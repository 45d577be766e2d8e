/** The stream of replies a request gets from the overlap loop. The next batch is launched before a token is processed,
and the limit is read off the request as that batch left it: so a reply is marked finished one token early exactly when
the request was launched again. Nothing here depends on pages, on evictions or on when aborts arrive. */
module OverlapStream {
  import CacheSpec
  import Sums
  import opened Requests
  import opened SchedSpec
  import opened SchedAdmit
  import opened SchedRound
  import opened SchedPost
  import opened SchedRun
  import opened SchedEntries
  import opened SchedSettings
  import opened SchedChunks
  import opened SchedReplies
  import opened Overlap
  import opened OverlapRun
  import opened OverlapReplies
  import opened OverlapPages

  function Bit(b: bool): nat {
    if b then 1 else 0
  }

  // ---- the stream against the request

  /** The replies so far, with whether the request was launched again before each of them: a reply is marked finished
  exactly when it would be the last one had the batch launched meanwhile been processed too, and a request is launched
  again only if more tokens are to come. */
  ghost predicate Marks(cfg: Config, params: Params, l: seq<Reply>, again: seq<bool>, u: int) {
    && |again| == |l|
    && forall i {:trigger l[i]} | 0 <= i < |l| ::
         && l[i].Detok? && l[i].uid == u
         && (l[i].finished <==> Ends(cfg, params, i + Bit(again[i]), l[i].token))
         && (again[i] ==> i + 1 < params.maxTokens)
  }

  /** Prompt and replied tokens are the request's tokens on the host. */
  ghost predicate Told(cfg: Config, r: Req, l: seq<Reply>, again: seq<bool>, u: int, ids: seq<int>) {
    r.ids == ids + SaidTokens(l) && r.maxLen == |ids| + r.params.maxTokens && Marks(cfg, r.params, l, again, u)
  }

  /** The replies against the state, with `ahead` tokens of `u` sampled but not processed yet. */
  ghost predicate Telling(cfg: Config, s: Sched, l: seq<Reply>, again: seq<bool>, u: int, ids: seq<int>, ahead: nat) {
    var r := Get(s.reqs, u);
    if u in s.reqs && !r.chunked then
      && Told(cfg, r, l, again, u, ids) && (u in s.running || ahead > 0 ==> r.deviceLen == |r.ids| + ahead)
      && (u in s.running ==> r.CanDecode()) && (ahead > 1 ==> r.deviceLen <= r.maxLen)
    else l == [] && again == [] && ahead == 0 && u !in s.running
  }

  /** Every queue entry of `u` holds this prompt, and an admitted request is queued only while it is a chunk. */
  ghost predicate Lined(s: Sched, u: int, ids: seq<int>) {
    forall p | p in s.pending && p.uid == u :: p.ids == ids && (u in s.reqs ==> Get(s.reqs, u).chunked)
  }

  lemma {:induction false} LinedSame(s: Sched, s': Sched, u: int, ids: seq<int>)
    requires Lined(s, u, ids) && s'.pending == s.pending && (u in s'.reqs ==> u in s.reqs)
    requires Get(s'.reqs, u).chunked == Get(s.reqs, u).chunked
    ensures Lined(s', u, ids)
  {
  }

  lemma {:induction false} TellingSame(cfg: Config, s: Sched, s': Sched, l: seq<Reply>, again: seq<bool>, u: int,
                                       ids: seq<int>, ahead: nat, ahead': nat)
    requires Telling(cfg, s, l, again, u, ids, ahead) && (u in s'.reqs <==> u in s.reqs)
    requires Get(s'.reqs, u) == Get(s.reqs, u) && (u in s'.running ==> u in s.running)
    requires ahead' == ahead || (ahead' == 0 && u !in s'.running)
    ensures Telling(cfg, s', l, again, u, ids, ahead')
  {
    hide Told;
  }

  // ---- messages

  lemma {:induction false} MsgTells(cfg: Config, s: Sched, m: Msg, l: seq<Reply>, again: seq<bool>, u: int,
                                    ids: seq<int>, ahead: nat)
    requires Ctrl(s) && Fresh(s, m) && Telling(cfg, s, l, again, u, ids, ahead) && Lined(s, u, ids)
    ensures var s', ids' := ProcessMsg(cfg, s, m), PromptAfter(cfg, ids, m, u);
            Telling(cfg, s', l, again, u, ids', ahead) && Lined(s', u, ids')
  {
    hide HandOver, DropPending, FindPending, Clamp, Told, DistinctUids, PendingUids;
    var s' := ProcessMsg(cfg, s, m);
    if m.UserMsg? {
      if |m.ids| < cfg.maxSeqLen {
        var p := Pending(m.uid, m.ids, Clamp(cfg, m.params, |m.ids|), false);
        assert forall q | q in s.pending + [p] :: q in s.pending || q == p;
        if m.uid == u {
          NoneQueued(s, m);
        }
      }
    } else {
      DropMembers(s.pending, m.uid);
    }
  }

  lemma {:induction false} MsgsTell(cfg: Config, s: Sched, msgs: seq<Msg>, l: seq<Reply>, again: seq<bool>, u: int,
                                    ids: seq<int>, ahead: nat)
    requires Ctrl(s) && AllFresh(cfg, s, msgs) && Telling(cfg, s, l, again, u, ids, ahead) && Lined(s, u, ids)
    ensures var s', ids' := ProcessMsgs(cfg, s, msgs), PromptAfterAll(cfg, ids, msgs, u);
            Telling(cfg, s', l, again, u, ids', ahead) && Lined(s', u, ids')
    decreases |msgs|
  {
    hide Ctrl, Fresh, ProcessMsg, Telling, PromptAfter, Lined;
    if msgs != [] {
      OneCtrl(cfg, s, msgs[0]);
      MsgTells(cfg, s, msgs[0], l, again, u, ids, ahead);
      MsgsTell(cfg, ProcessMsg(cfg, s, msgs[0]), msgs[1..], l, again, u, PromptAfter(cfg, ids, msgs[0], u), ahead);
    }
  }

  // ---- scheduling

  /** The queue after a round. */
  lemma {:induction false} RoundLines(cfg: Config, s: Sched, a: Adder, u: int, ids: seq<int>)
    requires Ctrl(s) && Lined(s, u, ids)
    ensures var r := AddAll(cfg, s, a, s.pending);
            Lined(r.s.(pending := ChunkList(s.pending, r.added) + s.pending[|r.added|..]), u, ids)
  {
    hide AddAll, ChunkList, UidsOf, DistinctUids;
    var r := AddAll(cfg, s, a, s.pending);
    RoundIs(cfg, s, a, s.pending);
    forall p | p in ChunkList(s.pending, r.added) + s.pending[|r.added|..] && p.uid == u
      ensures p.ids == ids && (u in r.s.reqs ==> Get(r.s.reqs, u).chunked)
    {
      if p in ChunkList(s.pending, r.added) {
        BackFrom(s.pending, r.added, p);
        var i :| 0 <= i < |r.added| && r.added[i].chunked && p == s.pending[i].(chunk := true);
        AddedUids(cfg, s, a, s.pending, i);
        assert s.pending[i] in s.pending;
      } else {
        assert p in s.pending;
        if u in UidsOf(r.added) {
          var i := UidAt(r.added, u);
          AddedUids(cfg, s, a, s.pending, i);
          RestApart(s.pending, |r.added|, p, i);
        }
      }
    }
  }

  lemma {:induction false} ScheduleLines(cfg: Config, s: Sched, u: int, ids: seq<int>)
    requires Ctrl(s) && Lined(s, u, ids)
    ensures Lined(Schedule(cfg, s).0, u, ids)
  {
    hide AddAll, ChunkList, InflightTokens, Lined, Sorted, Ctrl;
    RoundLines(cfg, s, Adder(cfg.budget, InflightTokens(cfg, s)), u, ids);
  }

  // ---- launching

  lemma {:induction false} PickedTells(cfg: Config, s: Sched, s1: Sched, s2: Sched, b: Batch, l: seq<Reply>,
                                       again: seq<bool>, u: int, ids: seq<int>, ahead: nat)
    requires Picked(s, s1, b, u) && s1.running == s.running && Telling(cfg, s, l, again, u, ids, ahead) && ahead <= 1
    requires Lined(s, u, ids)
    requires u in s2.reqs <==> u in s1.reqs || u in Uids(b.entries)
    requires Get(s2.reqs, u) == (if u in Uids(b.entries) then Get(s1.reqs, u).CompleteOne() else Get(s1.reqs, u))
    requires u in s2.running <==> (u in s1.running || u in Uids(b.entries)) && Get(s2.reqs, u).CanDecode()
    ensures Telling(cfg, s2, l, again, u, ids, ahead + Bit(u in Waiting(b.entries)))
  {
    hide Uids, Waiting, Marks;
    if u in Uids(b.entries) && b.prefill {
      var p :| p in s.pending && MadeFrom(Get(s1.reqs, u), p) && p.uid == u;
      assert l == [] && again == [] && ahead == 0;
      assert !Get(s1.reqs, u).chunked ==> Get(s1.reqs, u).ids == ids + SaidTokens([]);
      NoMarks(cfg, Get(s1.reqs, u).params, u);
    }
  }

  lemma {:induction false} NoMarks(cfg: Config, params: Params, u: int)
    ensures Marks(cfg, params, [], [], u)
  {
  }

  lemma {:induction false} LaunchTells(cfg: Config, s: Sched, i: Input, l: seq<Reply>, again: seq<bool>, u: int,
                                       ids: seq<int>, ahead: nat)
    requires Ctrl(s) && Telling(cfg, s, l, again, u, ids, ahead) && Lined(s, u, ids) && ahead <= 1
    ensures var (s2, f) := Launch(cfg, s, i);
            && Telling(cfg, s2, l, again, u, ids, ahead + Bit(u in Waiting(LastEntries(f))))
            && Lined(s2, u, ids)
  {
    hide Ctrl, Schedule, Prepare, Forward, Picked, Telling, Lined, Uids, Waiting, DistinctEntries;
    SchedulePicks(cfg, s, u);
    ScheduleLines(cfg, s, u, ids);
    var (s1, b) := Schedule(cfg, s);
    if b.None? {
      NoWaiting();
    } else {
      var tokens := TokensFor(b.value, i.tokens);
      ForwardOne(cfg, s1, b.value, i.ev, tokens, u);
      LinedSame(s1, Forward(cfg, Prepare(cfg, s1, b.value, i.ev), b.value, tokens), u, ids);
      PickedTells(cfg, s, s1, Forward(cfg, Prepare(cfg, s1, b.value, i.ev), b.value, tokens), b.value, l, again, u, ids,
                  ahead);
    }
  }

  // ---- post-processing

  /** The reply against the stream so far. */
  lemma {:induction false} ReplyTells(cfg: Config, r: Req, l: seq<Reply>, again: seq<bool>, u: int, ids: seq<int>,
                                      token: int, more: bool)
    requires Told(cfg, r, l, again, u, ids) && !r.chunked && r.deviceLen == |r.ids| + 1 + Bit(more)
    requires more ==> r.deviceLen <= r.maxLen
    ensures var q := r.AppendHost(token);
            Told(cfg, q, l + [Detok(u, token, IsFinished(cfg, q, token))], again + [more], u, ids)
  {
    var q := r.AppendHost(token);
    var x := Detok(u, token, IsFinished(cfg, q, token));
    var l', again' := l + [x], again + [more];
    assert SaidTokens(l') == SaidTokens(l) + [token];
    assert |SaidTokens(l)| == |l|;
    forall i | 0 <= i < |l'|
      ensures l'[i].Detok? && l'[i].uid == u && (again'[i] ==> i + 1 < q.params.maxTokens)
      ensures l'[i].finished <==> Ends(cfg, q.params, i + Bit(again'[i]), l'[i].token)
    {
      if i < |l| {
        assert l'[i] == l[i] && again'[i] == again[i];
      }
    }
  }

  // ---- a tick

  /** The relaunch marks a tick adds: one if it sends a reply. */
  ghost function AgainNow(replies: seq<Reply>, f: Option<Flight>, u: int): seq<bool> {
    if Said(replies, u) == [] then [] else [u in Waiting(LastEntries(f))]
  }

  ghost function InFlight(last: Option<Flight>, u: int): nat {
    Bit(u in Waiting(LastEntries(last)))
  }

  /** What the tick does to `u` after the launch. */
  lemma {:induction false} TailTells(cfg: Config, s: Sched, last: Option<Flight>, i: Input, l: seq<Reply>,
                                     again: seq<bool>, u: int, ids: seq<int>)
    requires FInv(s, last) && OFresh(cfg, s, last, i.msgs)
    requires var g := StagesOf(cfg, s, last, i);
             && Telling(cfg, g.launched, l, again, u, ids, InFlight(last, u) + InFlight(g.flight, u))
             && Lined(g.launched, u, ids)
    ensures var (s', f, replies) := OverlapTick(cfg, s, last, i);
            && Telling(cfg, s', l + Said(replies, u), again + AgainNow(replies, f, u), u, ids, InFlight(f, u))
            && Lined(s', u, ids)
  {
    hide FInv, OverlapTick, StagesOk, OFresh, ProcessMsgs, Launch, ProcessEntries, ApplyEntries, Uids, DistinctEntries,
      DistinctUids, Waiting, Said, Telling, Lined, Aborts, Gone;
    FlightShape(s, last);
    TickStages(cfg, s, last, i);
    TickIs(cfg, s, last, i);
    StagesApply(cfg, s, last, i);
    var g := StagesOf(cfg, s, last, i);
    var s3, s' := g.post.s.(finished := g.post.finished), g.applied.(deferred := {}, acks := [], inflight := {});
    ApplyIs(cfg, s3, LastEntries(last), {});
    AppliedKeeps(s3, g.applied, LastEntries(last));
    SaidConcat(g.post.replies, AckReplies(g.applied.acks), u);
    NothingSaid(g.applied.acks, u);
    assert Said(g.post.replies, u) + [] == Said(g.post.replies, u);
    NoneSaid(u);
    NoWaiting();
    if u in Waiting(LastEntries(last)) && u !in g.launched.deferred {
      var p := Post(g.launched, [], {});
      var k := EntriesHit(cfg, p, last.value.batch.prefill, last.value.batch.entries, last.value.tokens, u);
      var token := last.value.tokens[k];
      HitTells(cfg, g.launched, s', l, again, u, ids, token, u in Waiting(LastEntries(g.flight)));
      LinedSame(g.launched, s', u, ids);
      var x := Detok(u, token, IsFinished(cfg, Get(s'.reqs, u), token));
      assert Said(OverlapTick(cfg, s, last, i).2, u) == [x];
    } else {
      if last.Some? {
        EntriesSkip(cfg, Post(g.launched, [], {}), last.value.batch.prefill, last.value.batch.entries,
                    last.value.tokens, u);
      }
      assert l + [] == l && again + [] == again;
      if u in Waiting(LastEntries(last)) {
        DeferredOut(s, last, i, g, u);
      }
      TellingSame(cfg, g.launched, s', l, again, u, ids, InFlight(last, u) + InFlight(g.flight, u),
        InFlight(g.flight, u));
      LinedSame(g.launched, s', u, ids);
    }
  }

  /** An aborted request of the batch in flight is in no batch any more. */
  lemma {:induction false} DeferredOut(s: Sched, last: Option<Flight>, i: Input, g: Stages, u: int)
    requires FInv(s, last) && StagesOk(s, last, i, g) && u in Waiting(LastEntries(last)) && u in g.launched.deferred
    ensures u !in g.launched.running && u !in Waiting(LastEntries(g.flight)) && u !in g.applied.running
  {
    WaitingUids(LastEntries(last));
    WaitingUids(LastEntries(g.flight));
    hide StagesOk, FInv, Uids, Waiting, Aborts;
    DeferredNow(s, last, i, g, u);
    DeferredIdle(s, last, i, g, u);
  }

  lemma {:induction false} HitTells(cfg: Config, s: Sched, s': Sched, l: seq<Reply>, again: seq<bool>, u: int,
                                    ids: seq<int>, token: int, more: bool)
    requires Telling(cfg, s, l, again, u, ids, 1 + Bit(more)) && u in s'.reqs
    requires Get(s'.reqs, u) == Get(s.reqs, u).AppendHost(token) && s'.running <= s.running
    ensures u in s.reqs
    ensures var x := Detok(u, token, IsFinished(cfg, Get(s'.reqs, u), token));
            Telling(cfg, s', l + [x], again + [more], u, ids, Bit(more))
  {
    hide Told, IsFinished;
    ReplyTells(cfg, Get(s.reqs, u), l, again, u, ids, token, more);
  }

  lemma {:induction false} StreamTick(cfg: Config, s: Sched, last: Option<Flight>, i: Input, l: seq<Reply>,
                                      again: seq<bool>, u: int, ids: seq<int>)
    requires FInv(s, last) && OFresh(cfg, s, last, i.msgs)
    requires Telling(cfg, s, l, again, u, ids, InFlight(last, u)) && Lined(s, u, ids)
    ensures var (s', f, replies) := OverlapTick(cfg, s, last, i);
            var ids' := PromptAfterAll(cfg, ids, i.msgs, u);
            && Telling(cfg, s', l + Said(replies, u), again + AgainNow(replies, f, u), u, ids', InFlight(f, u))
            && Lined(s', u, ids')
  {
    hide FInv, OverlapTick, StagesOk, ProcessMsgs, Launch, ProcessEntries, ApplyEntries, Uids, DistinctEntries,
      DistinctUids, Telling, Lined, Ctrl, PromptAfterAll, Waiting, AllFresh, Released, Said, AgainNow;
    var s0, ids' := s.(inflight := LastUids(last)), PromptAfterAll(cfg, ids, i.msgs, u);
    StagesShape(s, last);
    TickStages(cfg, s, last, i);
    TickIs(cfg, s, last, i);
    var g := StagesOf(cfg, s, last, i);
    HeardCtrl(s, last, i, g);
    WithInflight(s, last);
    HeardOf(cfg, s, last, i);
    TellingSame(cfg, s, s0, l, again, u, ids, InFlight(last, u), InFlight(last, u));
    LinedSame(s, s0, u, ids);
    MsgsTell(cfg, s0, i.msgs, l, again, u, ids, InFlight(last, u));
    LaunchTells(cfg, g.heard, i, l, again, u, ids', InFlight(last, u));
    TailTells(cfg, s, last, i, l, again, u, ids');
  }

  // ---- after the mark

  /** A marked reply is the last one, or the last but one if the request was launched again before it; whatever is
  marked is neither queued nor running. */
  ghost predicate Closing(s: Sched, l: seq<Reply>, again: seq<bool>, u: int, flying: bool) {
    && |again| == |l|
    && forall i {:trigger l[i]} | 0 <= i < |l| && l[i].Detok? && l[i].finished ::
         && u in s.reqs && Gone(s, u)
         && (i == |l| - 1 || (i == |l| - 2 && again[i] && !flying)) && (i == |l| - 1 && flying ==> again[i])
  }

  lemma {:induction false} ClosingTick(cfg: Config, s: Sched, last: Option<Flight>, i: Input, l: seq<Reply>,
                                       again: seq<bool>, u: int)
    requires FInv(s, last) && OFresh(cfg, s, last, i.msgs) && DoneGone(s)
    requires Closing(s, l, again, u, u in Waiting(LastEntries(last)))
    ensures var (s', f, replies) := OverlapTick(cfg, s, last, i);
            Closing(s', l + Said(replies, u), again + AgainNow(replies, f, u), u, u in Waiting(LastEntries(f)))
  {
    hide FInv, OFresh, OverlapTick, Uids, Waiting, Said, Gone, DoneGone, Marked, Aborts;
    var (s', f, replies) := OverlapTick(cfg, s, last, i);
    var l', again' := l + Said(replies, u), again + AgainNow(replies, f, u);
    SentExactly(cfg, s, last, i, u);
    WaitingUids(LastEntries(f));
    SaidMarks(replies, u);
    forall k | 0 <= k < |l'| && l'[k].Detok? && l'[k].finished
      ensures && u in s'.reqs && Gone(s', u)
              && (k == |l'| - 1 || (k == |l'| - 2 && again'[k] && u !in Waiting(LastEntries(f))))
              && (k == |l'| - 1 && u in Waiting(LastEntries(f)) ==> again'[k])
    {
      if k < |l| {
        assert l'[k] == l[k] && again'[k] == again[k];
        GoneOn(cfg, s, last, i, u);
      } else {
        assert l'[k] == Said(replies, u)[k - |l|];
        MarkedGone(cfg, s, last, i, u);
      }
    }
  }

  lemma {:induction false} SaidMarks(rs: seq<Reply>, u: int)
    ensures forall k {:trigger Said(rs, u)[k]} | 0 <= k < |Said(rs, u)| && Said(rs, u)[k].Detok?
            && Said(rs, u)[k].finished ::
              Marked(rs, u)
    decreases |rs|
  {
    if rs != [] {
      SaidMarks(rs[1..], u);
      assert rs[0] in rs && forall r | r in rs[1..] :: r in rs;
      var first, rest := SaidBy(rs[0], u), Said(rs[1..], u);
      forall k | 0 <= k < |Said(rs, u)| && Said(rs, u)[k].Detok? && Said(rs, u)[k].finished
        ensures Marked(rs, u)
      {
        if k >= |first| {
          assert Said(rs, u)[k] == rest[k - |first|];
          assert Marked(rs[1..], u);
        }
      }
    }
  }

  // ---- whole runs

  /** All replies that a run of the overlap loop sends to `u`. */
  ghost function LoopStream(cfg: Config, ins: seq<Input>, u: int): seq<Reply>
    decreases |ins|
  {
    if ins == [] then [] else LoopStream(cfg, ins[..|ins| - 1], u) + Said(LoopAfter(cfg, ins).replies, u)
  }

  /** For each of them, whether the batch launched in its tick holds the request again. */
  ghost function Relaunched(cfg: Config, ins: seq<Input>, u: int): seq<bool>
    decreases |ins|
  {
    if ins == [] then []
    else Relaunched(cfg, ins[..|ins| - 1], u) + AgainNow(LoopAfter(cfg, ins).replies, LoopAfter(cfg, ins).last, u)
  }

  lemma {:induction false} StreamStart(cfg: Config, u: int)
    ensures Telling(cfg, InitState(cfg), [], [], u, [], InFlight(None, u)) && Lined(InitState(cfg), u, [])
    ensures Closing(InitState(cfg), [], [], u, u in Waiting(LastEntries(None)))
  {
    hide Range;
    NoWaiting();
  }

  lemma {:induction false} StreamRun(cfg: Config, ins: seq<Input>, u: int)
    requires IsLoop(cfg, ins)
    ensures var l, rs, again := LoopAfter(cfg, ins), LoopStream(cfg, ins, u), Relaunched(cfg, ins, u);
            && Telling(cfg, l.s, rs, again, u, PromptOf(cfg, ins, u), InFlight(l.last, u))
            && Lined(l.s, u, PromptOf(cfg, ins, u)) && Closing(l.s, rs, again, u, u in Waiting(LastEntries(l.last)))
    decreases |ins|
  {
    hide FInv, OFresh, OverlapTick, InitState, Telling, Lined, Closing, Said, AgainNow, InFlight, Waiting, DoneGone,
      PromptAfterAll;
    if ins == [] {
      StreamStart(cfg, u);
    } else {
      var was, i := ins[..|ins| - 1], ins[|ins| - 1];
      var l := LoopAfter(cfg, was);
      StreamRun(cfg, was, u);
      LoopControl(cfg, was);
      LoopDone(cfg, was);
      StreamTick(cfg, l.s, l.last, i, LoopStream(cfg, was, u), Relaunched(cfg, was, u), u, PromptOf(cfg, was, u));
      ClosingTick(cfg, l.s, l.last, i, LoopStream(cfg, was, u), Relaunched(cfg, was, u), u);
    }
  }

  /** The replies of the overlap loop to a request, in every run, for the settings submitted with it and its limit cut
  to what fits behind the prompt: its tokens stand behind the prompt on the host, they number at most the limit, or one
  if the limit is zero; reply `i` is marked finished exactly when the limit, counting the batch launched before it, the
  end token or a stop token says so; a marked reply is the last one, or the last but one if the request was launched
  again. */
  lemma {:induction false} LoopReplies(cfg: Config, ins: seq<Input>, u: int)
    requires IsLoop(cfg, ins) && LoopStream(cfg, ins, u) != []
    ensures var l, again, r := LoopStream(cfg, ins, u), Relaunched(cfg, ins, u), Get(LoopAfter(cfg, ins).s.reqs, u);
            var params := Granted(cfg, AskOf(cfg, ins, u), |PromptOf(cfg, ins, u)|);
            && r.ids == PromptOf(cfg, ins, u) + SaidTokens(l) && Marks(cfg, params, l, again, u)
            && |l| <= (if params.maxTokens > 1 then params.maxTokens else 1)
            && (forall i {:trigger l[i]} | 0 <= i < |l| - 1 && l[i].finished :: i == |l| - 2 && again[i])
            && (l[|l| - 1].finished ==> Gone(LoopAfter(cfg, ins).s, u))
  {
    hide IsLoop, LoopAfter, LoopStream, Relaunched, PromptOf, Gone, Ends, Lined, Granted, AskOf;
    StreamRun(cfg, ins, u);
    LoopSettles(cfg, ins, u);
    var l, again, r := LoopStream(cfg, ins, u), Relaunched(cfg, ins, u), Get(LoopAfter(cfg, ins).s.reqs, u);
    if |l| > 1 {
      StreamBound(cfg, r.params, l, again, u);
    }
  }

  lemma {:induction false} StreamBound(cfg: Config, params: Params, l: seq<Reply>, again: seq<bool>, u: int)
    requires Marks(cfg, params, l, again, u) && |l| > 1 && (l[|l| - 2].finished ==> again[|l| - 2])
    ensures |l| <= params.maxTokens
  {
    var k := |l| - 2;
    assert l[k].Detok?;
  }

  /** So a reply that is not the last by the count of tokens, the end token or a stop token is marked finished exactly
  when one more was asked for and the request was launched again already. */
  lemma {:induction false} MarkedEarly(cfg: Config, ins: seq<Input>, u: int, i: nat)
    requires IsLoop(cfg, ins) && i < |LoopStream(cfg, ins, u)|
    ensures var l, again := LoopStream(cfg, ins, u), Relaunched(cfg, ins, u);
            var params := Granted(cfg, AskOf(cfg, ins, u), |PromptOf(cfg, ins, u)|);
            && |again| == |l| && l[i].Detok?
            && (!Ends(cfg, params, i, l[i].token) ==> (l[i].finished <==> again[i] && params.maxTokens == i + 2))
            && (Ends(cfg, params, i, l[i].token) ==> l[i].finished)
  {
    hide IsLoop, LoopAfter, LoopStream, Relaunched, PromptOf, Gone, Granted, AskOf;
    LoopReplies(cfg, ins, u);
    assert LoopStream(cfg, ins, u)[i].Detok?;
  }
}
