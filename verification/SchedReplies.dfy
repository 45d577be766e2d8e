/** The stream of replies that a request gets from the normal loop: its tokens follow its prompt on the host, the stream
ends with the one reply that is marked finished, and it is marked exactly when the limit, the end token or a stop token
says so. */
module SchedReplies {
  import opened Requests
  import opened SchedSpec
  import opened SchedInv
  import opened SchedAdmit
  import opened SchedRound
  import opened SchedBatch
  import opened SchedForward
  import opened SchedPost
  import opened SchedRun
  import opened SchedEntries
  import opened SchedSettings
  import opened SchedSound
  import opened SchedProgress
  import opened SchedChunks

  // ---- streams

  ghost function TokenOf(r: Reply): int {
    if r.Detok? then r.token else 0
  }

  ghost function SaidTokens(l: seq<Reply>): seq<int> {
    seq(|l|, i requires 0 <= i < |l| => TokenOf(l[i]))
  }

  /** The `i`-th token is the last one: the limit is reached, or it is the end token or a stop token. */
  ghost predicate Ends(cfg: Config, params: Params, i: nat, token: int) {
    i + 1 >= params.maxTokens || (!params.ignoreEos && token == cfg.eos) || token in params.stops
  }

  /** The replies of a request with these settings: each is marked finished exactly when its token is the last one, and
  then no other follows. */
  ghost predicate Stream(cfg: Config, params: Params, l: seq<Reply>, u: int) {
    && (forall i {:trigger l[i]} | 0 <= i < |l| ::
          l[i].Detok? && l[i].uid == u && (l[i].finished <==> Ends(cfg, params, i, l[i].token)))
    && forall i {:trigger l[i]} | 0 <= i < |l| - 1 :: !l[i].finished
  }

  /** Such a stream holds as many tokens as asked for at most, but one even if none was. */
  lemma {:induction false} StreamLength(cfg: Config, params: Params, l: seq<Reply>, u: int)
    requires Stream(cfg, params, l, u)
    ensures |l| <= if params.maxTokens > 1 then params.maxTokens else 1
  {
    if |l| > 1 {
      assert !l[|l| - 2].finished;
    }
  }

  /** The request's tokens on the host are its prompt and the tokens replied. */
  ghost predicate Holds(cfg: Config, r: Req, l: seq<Reply>, u: int, ids: seq<int>) {
    r.ids == ids + SaidTokens(l) && r.maxLen == |ids| + r.params.maxTokens && Stream(cfg, r.params, l, u)
  }

  ghost predicate Open(l: seq<Reply>) {
    l != [] ==> l[|l| - 1].Detok? && !l[|l| - 1].finished
  }

  /** The replies `l` so far against the state: none before the prompt is computed, at least one afterwards; the stream
  of a running request is still open. */
  ghost predicate Answered(cfg: Config, s: Sched, l: seq<Reply>, u: int, ids: seq<int>) {
    var r := Get(s.reqs, u);
    if u in s.reqs && !r.chunked then l != [] && Holds(cfg, r, l, u, ids) && (u in s.running ==> Open(l))
    else l == []
  }

  /** A request of a batch whose token is still to be processed. */
  ghost predicate Expecting(cfg: Config, s: Sched, l: seq<Reply>, u: int, ids: seq<int>) {
    u in s.reqs && !Get(s.reqs, u).chunked && Holds(cfg, Get(s.reqs, u), l, u, ids) && Open(l)
  }

  ghost predicate Due(cfg: Config, s: Sched, l: seq<Reply>, u: int, ids: seq<int>, waiting: set<int>) {
    if u in waiting then Expecting(cfg, s, l, u, ids) else Answered(cfg, s, l, u, ids)
  }

  // ---- messages

  lemma {:induction false} AnsweredSame(cfg: Config, s: Sched, s': Sched, l: seq<Reply>, u: int, ids: seq<int>)
    requires Answered(cfg, s, l, u, ids) && (u in s'.reqs <==> u in s.reqs) && (u in s'.running ==> u in s.running)
    requires var r, r' := Get(s.reqs, u), Get(s'.reqs, u);
             r'.ids == r.ids && r'.maxLen == r.maxLen && r'.params == r.params && r'.chunked == r.chunked
    ensures Answered(cfg, s', l, u, ids)
  {
    hide Stream;
  }

  lemma {:induction false} MsgAnswered(cfg: Config, s: Sched, m: Msg, l: seq<Reply>, u: int, ids: seq<int>)
    requires Fresh(s, m) && Answered(cfg, s, l, u, ids)
    ensures Answered(cfg, ProcessMsg(cfg, s, m), l, u, PromptAfter(cfg, ids, m, u))
  {
    hide HandOver, DropPending, FindPending, Clamp, Holds;
    var s' := ProcessMsg(cfg, s, m);
    if m.UserMsg? && m.uid == u {
      assert u !in s.reqs;
    } else {
      AnsweredSame(cfg, s, s', l, u, ids);
    }
  }

  lemma {:induction false} MsgsAnswered(cfg: Config, s: Sched, msgs: seq<Msg>, l: seq<Reply>, u: int, ids: seq<int>)
    requires AllFresh(cfg, s, msgs) && Answered(cfg, s, l, u, ids)
    ensures Answered(cfg, ProcessMsgs(cfg, s, msgs), l, u, PromptAfterAll(cfg, ids, msgs, u))
    decreases |msgs|
  {
    hide Fresh, ProcessMsg, Answered, PromptAfter;
    if msgs != [] {
      MsgAnswered(cfg, s, msgs[0], l, u, ids);
      MsgsAnswered(cfg, ProcessMsg(cfg, s, msgs[0]), msgs[1..], l, u, PromptAfter(cfg, ids, msgs[0], u));
    }
  }

  // ---- the batch

  /** What scheduling and running a batch leaves: its requests, chunks aside, expect their next token. */
  lemma {:induction false} BatchDue(cfg: Config, s: Sched, s': Sched, l: seq<Reply>, u: int, ids: seq<int>)
    requires NInv(cfg, s) && Answered(cfg, s, l, u, ids) && Queued(s.pending, u, ids) && Schedule(cfg, s).1.Some?
    requires Forwarded(Schedule(cfg, s).0, s', Schedule(cfg, s).1.value) && s'.reqs.Keys == Schedule(cfg, s).0.reqs.Keys
    ensures Due(cfg, s', l, u, ids, Waiting(Schedule(cfg, s).1.value.entries))
  {
    hide NInv, Forwarded, AddAll, InflightTokens, NextQueue, RoundOk, SchedulePrefill, Sorted, Answered, Due, Uids,
      Queued;
    PrefillIs(cfg, s);
    var a := Adder(cfg.budget, InflightTokens(cfg, s));
    var r := AddAll(cfg, s, a, s.pending);
    RoundSize(cfg, s, a, s.pending, {}, r);
    if r.added == [] {
      DecodeDue(cfg, s, s', l, u, ids);
    } else if u in UidsOf(r.added) {
      PrefillDue(cfg, s, a, s', l, u, ids);
    } else {
      OtherDue(cfg, s, a, s', l, u, ids);
    }
  }

  lemma {:induction false} DecodeDue(cfg: Config, s: Sched, s': Sched, l: seq<Reply>, u: int, ids: seq<int>)
    requires NInv(cfg, s) && Answered(cfg, s, l, u, ids) && s'.reqs.Keys == s.reqs.Keys
    requires Forwarded(s, s', Batch(DecodeEntries(Sorted(s.running)), false))
    ensures Due(cfg, s', l, u, ids, Waiting(DecodeEntries(Sorted(s.running))))
  {
    hide RInv, QueueOk, HeadOk, DoneOk, Sorted, Uids, Waiting, Holds;
    SortedUids(s.running);
    DecodeWaits(s.running);
    if u in s.running {
      assert RunOk(cfg, s, u);
      assert Get(s'.reqs, u) == Get(s.reqs, u).CompleteOne();
      HoldsSame(cfg, Get(s.reqs, u), Get(s'.reqs, u), l, u, ids);
    } else {
      assert Get(s'.reqs, u) == Get(s.reqs, u);
      AnsweredSame(cfg, s, s', l, u, ids);
    }
  }

  lemma {:induction false} DecodeWaits(us: set<int>)
    ensures Waiting(DecodeEntries(Sorted(us))) == us
  {
    hide Sorted;
    var es := DecodeEntries(Sorted(us));
    forall u | u in us
      ensures u in Waiting(es)
    {
      var i :| 0 <= i < |Sorted(us)| && Sorted(us)[i] == u;
      assert es[i] == Entry(u, false);
    }
  }

  lemma {:induction false} HoldsSame(cfg: Config, r: Req, r': Req, l: seq<Reply>, u: int, ids: seq<int>)
    requires Holds(cfg, r, l, u, ids) && r'.ids == r.ids && r'.maxLen == r.maxLen && r'.params == r.params
    ensures Holds(cfg, r', l, u, ids)
  {
    hide Stream;
  }

  lemma {:induction false} PrefillDue(cfg: Config, s: Sched, a: Adder, s': Sched, l: seq<Reply>, u: int, ids: seq<int>)
    requires NInv(cfg, s) && Answered(cfg, s, l, u, ids) && Queued(s.pending, u, ids)
    requires var r := AddAll(cfg, s, a, s.pending);
             && RoundOk(cfg, s, a, s.pending, {}, r) && r.added != [] && u in UidsOf(r.added)
             && s'.reqs.Keys == r.s.reqs.Keys
             && Forwarded(r.s.(pending := NextQueue(s.pending, r.added)), s', Batch(EntriesOf(r.added), true))
    ensures Due(cfg, s', l, u, ids, Waiting(EntriesOf(AddAll(cfg, s, a, s.pending).added)))
  {
    hide LInv, AddAll, LastChunked, NextQueue, Uids, UidsOf, Work, ChunkUids, Kept, Holds, Waiting;
    var r := AddAll(cfg, s, a, s.pending);
    QueueOfLive(cfg, s, {});
    EntriesAre(r.added);
    UidsAreQueued(r.s, r.added, s.pending, u);
    var i :| 0 <= i < |r.added| && s.pending[i].uid == u;
    assert AddedFrom(r.s, r.added[i], s.pending[i]);
    QueuedSilent(cfg, s, l, u, ids, i);
    assert s.pending[i] in s.pending;
    assert Get(s'.reqs, u) == r.added[i].CompleteOne();
    InUids(EntriesOf(r.added), i);
    if r.added[i].chunked {
      ChunkWaitsNot(r.added, s.pending, r.s, i);
    } else {
      PromptHeld(cfg, r.added[i].CompleteOne(), u, ids);
    }
  }

  /** A queued request was not answered yet. */
  lemma {:induction false} QueuedSilent(cfg: Config, s: Sched, l: seq<Reply>, u: int, ids: seq<int>, i: nat)
    requires NInv(cfg, s) && Answered(cfg, s, l, u, ids) && i < |s.pending| && s.pending[i].uid == u
    ensures l == []
  {
    hide RInv, RunningOk, DoneOk, PendOk, DistinctUids, Holds;
  }

  lemma {:induction false} PromptHeld(cfg: Config, r: Req, u: int, ids: seq<int>)
    requires r.ids == ids && r.maxLen == |ids| + r.params.maxTokens
    ensures Holds(cfg, r, [], u, ids)
  {
    assert ids + SaidTokens([]) == ids;
  }

  lemma {:induction false} ChunkWaitsNot(added: seq<Req>, queue: seq<Pending>, s: Sched, i: nat)
    requires AllAdded(s, added, queue) && DistinctUids(queue) && i < |added| && added[i].chunked
    ensures queue[i].uid !in Waiting(EntriesOf(added))
  {
    EntriesAre(added);
    assert AddedFrom(s, added[i], queue[i]);
    var es := EntriesOf(added);
    forall j | 0 <= j < |es|
      ensures es[j].chunked || es[j].uid != queue[i].uid
    {
      assert AddedFrom(s, added[j], queue[j]);
    }
  }

  lemma {:induction false} OtherDue(cfg: Config, s: Sched, a: Adder, s': Sched, l: seq<Reply>, u: int, ids: seq<int>)
    requires NInv(cfg, s) && Answered(cfg, s, l, u, ids)
    requires var r := AddAll(cfg, s, a, s.pending);
             && RoundOk(cfg, s, a, s.pending, {}, r) && r.added != [] && u !in UidsOf(r.added)
             && s'.reqs.Keys == r.s.reqs.Keys
             && Forwarded(r.s.(pending := NextQueue(s.pending, r.added)), s', Batch(EntriesOf(r.added), true))
    ensures Due(cfg, s', l, u, ids, Waiting(EntriesOf(AddAll(cfg, s, a, s.pending).added)))
  {
    hide LInv, AddAll, LastChunked, NextQueue, Waiting, Uids, UidsOf, Work, AllAdded, Holds, Answered;
    var r := AddAll(cfg, s, a, s.pending);
    EntriesAre(r.added);
    OtherKeys(cfg, s, a, u);
    WaitingUids(EntriesOf(r.added));
    assert u in s.reqs ==> Get(r.s.reqs, u) == Get(s.reqs, u);
    assert Get(s'.reqs, u) == Get(r.s.reqs, u);
    assert u !in s.reqs ==> Get(s.reqs, u) == Get(s'.reqs, u);
    AnsweredSame(cfg, s, s', l, u, ids);
  }

  // ---- post-processing

  lemma {:induction false} TokenHeld(cfg: Config, r: Req, l: seq<Reply>, u: int, ids: seq<int>, token: int, fin: bool)
    requires Holds(cfg, r, l, u, ids) && Open(l) && (fin <==> Ends(cfg, r.params, |l|, token))
    ensures Holds(cfg, r.AppendHost(token), l + [Detok(u, token, fin)], u, ids)
  {
    var l' := l + [Detok(u, token, fin)];
    assert SaidTokens(l') == SaidTokens(l) + [token];
    assert ids + SaidTokens(l) + [token] == ids + (SaidTokens(l) + [token]);
    forall i | 0 <= i < |l'|
      ensures l'[i].Detok? && l'[i].uid == u && (l'[i].finished <==> Ends(cfg, r.params, i, l'[i].token))
      ensures i < |l'| - 1 ==> !l'[i].finished
    {
      assert i < |l| ==> l'[i] == l[i];
    }
  }

  /** The expected token arrives. */
  lemma {:induction false} EntryAnswers(cfg: Config, p: Post, prefill: bool, es: seq<Entry>, token: int, l: seq<Reply>,
                                        ids: seq<int>)
    requires PInv(cfg, p, es) && es != [] && !es[0].chunked && Expecting(cfg, p.s, l, es[0].uid, ids)
    ensures var p', u := ProcessEntry(cfg, p, prefill, es[0], token), es[0].uid;
            exists fin :: p'.replies == p.replies + [Detok(u, token, fin)]
                          && Answered(cfg, p'.s, l + [Detok(u, token, fin)], u, ids)
  {
    hide LInv, WaitsOk, DoneOk, Waiting, HandOver, Holds;
    var e, s := es[0], p.s;
    var u, r := e.uid, Get(p.s.reqs, e.uid);
    WaitsRest(cfg, s, es);
    NotDeferred(cfg, s, es);
    HoldsLength(cfg, r, l, u, ids);
    var fin := IsFinished(cfg, r.AppendHost(token), token);
    assert fin <==> Ends(cfg, r.params, |l|, token);
    TokenHeld(cfg, r, l, u, ids, token, fin);
    var p' := ProcessEntry(cfg, p, prefill, e, token);
    assert p'.replies == p.replies + [Detok(u, token, fin)];
    assert Get(p'.s.reqs, u) == r.AppendHost(token);
  }

  lemma {:induction false} HoldsLength(cfg: Config, r: Req, l: seq<Reply>, u: int, ids: seq<int>)
    requires Holds(cfg, r, l, u, ids)
    ensures |r.ids| == |ids| + |l| && r.maxLen == |ids| + r.params.maxTokens
  {
    hide Stream;
  }

  /** Another request's entry leaves `u` and its stream alone. */
  lemma {:induction false} EntryOther(cfg: Config, p: Post, prefill: bool, es: seq<Entry>, token: int, l: seq<Reply>,
                                      u: int,
                                      ids: seq<int>)
    requires PInv(cfg, p, es) && es != [] && (es[0].chunked || es[0].uid != u) && Due(cfg, p.s, l, u, ids, Waiting(es))
    ensures var p' := ProcessEntry(cfg, p, prefill, es[0], token);
            && Due(cfg, p'.s, l, u, ids, Waiting(es[1..])) && |p'.replies| >= |p.replies|
            && p'.replies[..|p.replies|] == p.replies && Said(p'.replies[|p.replies|..], u) == []
  {
    hide LInv, WaitsOk, WaitOk, DoneOk, Waiting, HandOver, Holds, IsFinished;
    var e, s := es[0], p.s;
    var p' := ProcessEntry(cfg, p, prefill, e, token);
    WaitsRest(cfg, s, es);
    NotDeferred(cfg, s, es);
    if e.chunked {
      assert Waiting(es) - {e.uid} == Waiting(es);
      assert p'.replies[|p.replies|..] == [];
    } else {
      var fin := IsFinished(cfg, Get(s.reqs, e.uid).AppendHost(token), token);
      SaidOne(Detok(e.uid, token, fin), u);
      assert p'.replies == p.replies + [Detok(e.uid, token, fin)];
      assert p'.replies[|p.replies|..] == [Detok(e.uid, token, fin)];
      if u !in Waiting(es) {
        AnsweredSame(cfg, s, p'.s, l, u, ids);
      }
    }
  }

  lemma {:induction false} EntriesAnswer(cfg: Config, p: Post, prefill: bool, es: seq<Entry>, tokens: seq<int>,
                                         l: seq<Reply>, u: int, ids: seq<int>)
    requires PInv(cfg, p, es) && |tokens| == |es| && Due(cfg, p.s, l, u, ids, Waiting(es))
    ensures var p' := ProcessEntries(cfg, p, prefill, es, tokens);
            && |p'.replies| >= |p.replies| && p'.replies[..|p.replies|] == p.replies
            && Answered(cfg, p'.s, l + Said(p'.replies[|p.replies|..], u), u, ids)
    decreases |es|
  {
    hide PInv, ProcessEntry, Answered, Expecting, Said, Waiting;
    if es == [] {
      NoWaiting();
      NoneSaid(u);
      assert p.replies[|p.replies|..] == [] && l + [] == l;
    } else {
      var p1 := ProcessEntry(cfg, p, prefill, es[0], tokens[0]);
      var p' := ProcessEntries(cfg, p, prefill, es, tokens);
      EntryKeeps(cfg, p, prefill, es, tokens[0]);
      var l1 := EntryStep(cfg, p, prefill, es, tokens[0], l, u, ids);
      EntriesAnswer(cfg, p1, prefill, es[1..], tokens[1..], l1, u, ids);
      SaidOn(p.replies, p1.replies, p'.replies, l, u);
    }
  }

  /** The stream grows with the replies. */
  lemma {:induction false} SaidOn(a: seq<Reply>, b: seq<Reply>, c: seq<Reply>, l: seq<Reply>, u: int)
    requires |a| <= |b| <= |c| && b[..|a|] == a && c[..|b|] == b
    ensures c[..|a|] == a
    ensures l + Said(c[|a|..], u) == l + Said(b[|a|..], u) + Said(c[|b|..], u)
  {
    hide Said;
    assert c[|a|..] == b[|a|..] + c[|b|..];
    SaidConcat(b[|a|..], c[|b|..], u);
    assert c[..|a|] == c[..|b|][..|a|];
  }

  /** One entry, whoever it belongs to. */
  lemma {:induction false} EntryStep(cfg: Config, p: Post, prefill: bool, es: seq<Entry>, token: int, l: seq<Reply>,
                                     u: int,
                                     ids: seq<int>) returns (l1: seq<Reply>)
    requires PInv(cfg, p, es) && es != [] && Due(cfg, p.s, l, u, ids, Waiting(es))
    ensures var p1 := ProcessEntry(cfg, p, prefill, es[0], token);
            && Due(cfg, p1.s, l1, u, ids, Waiting(es[1..])) && |p1.replies| >= |p.replies|
            && p1.replies[..|p.replies|] == p.replies && l1 == l + Said(p1.replies[|p.replies|..], u)
  {
    hide LInv, WaitsOk, DoneOk, ProcessEntry, Answered, Expecting, Said, Waiting;
    var p1 := ProcessEntry(cfg, p, prefill, es[0], token);
    if es[0].chunked || es[0].uid != u {
      EntryOther(cfg, p, prefill, es, token, l, u, ids);
      l1 := l;
      assert l + [] == l;
    } else {
      WaitsRest(cfg, p.s, es);
      EntryAnswers(cfg, p, prefill, es, token, l, ids);
      var fin :| p1.replies == p.replies + [Detok(u, token, fin)]
                 && Answered(cfg, p1.s, l + [Detok(u, token, fin)], u, ids);
      SaidOne(Detok(u, token, fin), u);
      assert p1.replies[|p.replies|..] == [Detok(u, token, fin)];
      l1 := l + [Detok(u, token, fin)];
    }
  }

  // ---- whole runs

  /** All replies that a run sends to `u`. */
  ghost function StreamOf(cfg: Config, ins: seq<Input>, u: int): seq<Reply>
    decreases |ins|
  {
    if ins == [] then []
    else
      StreamOf(cfg, ins[..|ins| - 1], u)
      + Said(NormalTick(cfg, StateAfter(cfg, ins[..|ins| - 1]), ins[|ins| - 1]).1, u)
  }

  lemma {:induction false} TickAnswers(cfg: Config, s: Sched, i: Input, l: seq<Reply>, u: int, ids: seq<int>)
    requires NInv(cfg, s) && Admissible(cfg, s, i) && Answered(cfg, s, l, u, ids)
    requires Queued(ProcessMsgs(cfg, s, i.msgs).pending, u, PromptAfterAll(cfg, ids, i.msgs, u))
    ensures var (s', replies) := NormalTick(cfg, s, i);
            Answered(cfg, s', l + Said(replies, u), u, PromptAfterAll(cfg, ids, i.msgs, u))
  {
    hide NInv, AllFresh, ProcessMsgs, Schedule, CanPrepare, Forward, Prepare, RInv, Planned, LInv, WaitsOk,
      ProcessEntries, Forwarded, Answered, Due, Uids, PromptAfterAll, Queued, Said, AckReplies, Waiting;
    var s0, ids' := ProcessMsgs(cfg, s, i.msgs), PromptAfterAll(cfg, ids, i.msgs, u);
    MsgsKeep(cfg, s, i.msgs);
    MsgsAnswered(cfg, s, i.msgs, l, u, ids);
    var (s1, b) := Schedule(cfg, s0);
    ScheduleKeeps(cfg, s0);
    if b.None? {
      NothingSaid(s0.acks, u);
      AnsweredSame(cfg, s0, s0.(acks := []), l, u, ids');
      assert l + [] == l && [] + AckReplies(s0.acks) == AckReplies(s0.acks);
    } else {
      var tokens := TokensFor(b.value, i.tokens);
      var s2 := Forward(cfg, Prepare(cfg, s1, b.value, i.ev), b.value, tokens);
      ForwardIs(cfg, s1, b.value, i.ev, tokens);
      ForwardKeys(cfg, s1, b.value, i.ev, tokens);
      BatchDue(cfg, s0, s2, l, u, ids');
      BatchRuns(cfg, s1, b.value, i.ev, tokens);
      NoneDone(s2);
      EntriesAnswer(cfg, Post(s2, [], {}), b.value.prefill, b.value.entries, tokens, l, u, ids');
      var p := ProcessEntries(cfg, Post(s2, [], {}), b.value.prefill, b.value.entries, tokens);
      var s3 := ProcessLast(cfg, s2, b.value, tokens).0;
      SaidConcat(p.replies, AckReplies(s3.acks), u);
      NothingSaid(s3.acks, u);
      assert p.replies[0..] == p.replies && Said(p.replies, u) + [] == Said(p.replies, u);
      AnsweredSame(cfg, p.s, s3.(acks := []), l + Said(p.replies, u), u, ids');
    }
  }

  /** In every run, the tokens replied to a request follow its prompt on the host; the replies are marked finished
  exactly when the limit, the end token or a stop token says so; only the last one can be, and a request that runs has
  none. */
  lemma {:induction false} RepliesShape(cfg: Config, ins: seq<Input>, u: int)
    requires IsRun(cfg, ins)
    ensures Answered(cfg, StateAfter(cfg, ins), StreamOf(cfg, ins, u), u, PromptOf(cfg, ins, u))
    decreases |ins|
  {
    hide NInv, NormalTick, Admissible, CfgOk, InitState, Answered, PromptAfterAll, Said, Tiled, AllFresh, ProcessMsgs;
    if ins == [] {
      InitAnswered(cfg, u);
    } else {
      var was, i := ins[..|ins| - 1], ins[|ins| - 1];
      Reachable(cfg, was);
      RepliesShape(cfg, was, u);
      ChunksTile(cfg, was, u);
      AdmissibleFresh(cfg, StateAfter(cfg, was), i);
      MsgsTiled(cfg, StateAfter(cfg, was), i.msgs, Spans(cfg, was, u), u, PromptOf(cfg, was, u),
        MatchedLen(cfg, was, u));
      TiledQueued(ProcessMsgs(cfg, StateAfter(cfg, was), i.msgs), Spans(cfg, was, u), u, PromptOf(cfg, ins, u),
                  MatchedLen(cfg, was, u));
      TickAnswers(cfg, StateAfter(cfg, was), i, StreamOf(cfg, was, u), u, PromptOf(cfg, was, u));
    }
  }

  lemma {:induction false} AdmissibleFresh(cfg: Config, s: Sched, i: Input)
    requires Admissible(cfg, s, i)
    ensures AllFresh(cfg, s, i.msgs)
  {
    hide Schedule, CanPrepare, ProcessMsgs, AllFresh;
  }

  lemma {:induction false} InitAnswered(cfg: Config, u: int)
    ensures Answered(cfg, InitState(cfg), [], u, [])
  {
    hide Range;
  }

  /** The stream of a request in any run: it is a well-formed stream for the settings submitted with the request, its
  limit cut to what fits behind the prompt; it is no longer than these allow, and on the host its tokens stand behind
  the prompt. */
  lemma {:induction false} RepliesOnce(cfg: Config, ins: seq<Input>, u: int)
    requires IsRun(cfg, ins) && StreamOf(cfg, ins, u) != []
    ensures var l, r := StreamOf(cfg, ins, u), Get(StateAfter(cfg, ins).reqs, u);
            var params := Granted(cfg, AskOf(cfg, ins, u), |PromptOf(cfg, ins, u)|);
            && Stream(cfg, params, l, u) && |l| <= (if params.maxTokens > 1 then params.maxTokens else 1)
            && r.ids == PromptOf(cfg, ins, u) + SaidTokens(l)
            && (l[|l| - 1].finished ==> u !in StateAfter(cfg, ins).running)
  {
    hide IsRun, StateAfter, StreamOf, PromptOf, Granted, AskOf;
    RepliesShape(cfg, ins, u);
    RunSettles(cfg, ins, u);
    var l := StreamOf(cfg, ins, u);
    StreamLength(cfg, Get(StateAfter(cfg, ins).reqs, u).params, l, u);
  }
}
