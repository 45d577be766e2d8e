/** The settings a request runs with are those it was submitted with, its limit cut to what fits behind its prompt: over
all runs of either loop, for the queue entry and for the request. */
module SchedSettings {
  import opened Requests
  import opened SchedSpec
  import opened SchedInv
  import opened SchedForward
  import opened SchedAdmit
  import opened SchedPost
  import opened SchedRun
  import opened SchedChunks
  import opened SchedEntries
  import opened Overlap
  import opened OverlapRun

  /** The submitted settings with no more tokens than fit behind a prompt of `n`. */
  function Granted(cfg: Config, asked: Params, n: nat): Params {
    var room: nat := if n < cfg.maxSeqLen then cfg.maxSeqLen - n else 0;
    Params(if asked.maxTokens < room then asked.maxTokens else room, asked.ignoreEos, asked.stops)
  }

  /** The settings submitted for `u`: those of the last message that was accepted. */
  ghost function AskAfter(cfg: Config, asked: Params, m: Msg, u: int): Params {
    if m.UserMsg? && m.uid == u && |m.ids| < cfg.maxSeqLen then m.params else asked
  }

  ghost function AskAfterAll(cfg: Config, asked: Params, msgs: seq<Msg>, u: int): Params
    decreases |msgs|
  {
    if msgs == [] then asked else AskAfterAll(cfg, AskAfter(cfg, asked, msgs[0], u), msgs[1..], u)
  }

  ghost function AskOf(cfg: Config, ins: seq<Input>, u: int): Params
    decreases |ins|
  {
    if ins == [] then Params(0, false, {}) else AskAfterAll(cfg, AskOf(cfg, ins[..|ins| - 1], u), ins[|ins| - 1].msgs,
      u)
  }

  /** The queue entry of `u` and its request have these settings, for a prompt of `n` tokens. */
  ghost predicate Settled(cfg: Config, s: Sched, u: int, n: nat, asked: Params) {
    && (forall p | p in s.pending && p.uid == u :: p.params == Granted(cfg, asked, n))
    && (u in s.reqs ==> Get(s.reqs, u).params == Granted(cfg, asked, n)) && Get(s.reqs, u).uid == u
  }

  lemma {:induction false} SettledSame(cfg: Config, s: Sched, s': Sched, u: int, n: nat, asked: Params)
    requires Settled(cfg, s, u, n, asked) && s'.pending == s.pending && (u in s'.reqs ==> u in s.reqs)
    requires Get(s'.reqs, u).params == Get(s.reqs, u).params && Get(s'.reqs, u).uid == Get(s.reqs, u).uid
    ensures Settled(cfg, s', u, n, asked)
  {
  }

  // ---- messages

  lemma {:induction false} NoneQueued(s: Sched, m: Msg)
    requires m.UserMsg? && Fresh(s, m)
    ensures forall p | p in s.pending :: p.uid != m.uid
  {
    forall p | p in s.pending
      ensures p.uid != m.uid
    {
      var i :| 0 <= i < |s.pending| && s.pending[i] == p;
    }
  }

  lemma {:induction false} MsgSettles(cfg: Config, s: Sched, m: Msg, u: int, ids: seq<int>, asked: Params)
    requires Ctrl(s) && Fresh(s, m) && Settled(cfg, s, u, |ids|, asked)
    ensures Settled(cfg, ProcessMsg(cfg, s, m), u, |PromptAfter(cfg, ids, m, u)|, AskAfter(cfg, asked, m, u))
  {
    hide HandOver, DropPending, FindPending, DistinctUids, PendingUids;
    if m.UserMsg? {
      if |m.ids| < cfg.maxSeqLen && m.uid == u {
        NoneQueued(s, m);
      }
    } else {
      DropMembers(s.pending, m.uid);
    }
  }

  lemma {:induction false} MsgsSettle(cfg: Config, s: Sched, msgs: seq<Msg>, u: int, ids: seq<int>, asked: Params)
    requires Ctrl(s) && AllFresh(cfg, s, msgs) && Settled(cfg, s, u, |ids|, asked)
    ensures Settled(cfg, ProcessMsgs(cfg, s, msgs), u, |PromptAfterAll(cfg, ids, msgs, u)|,
                    AskAfterAll(cfg, asked, msgs, u))
    decreases |msgs|
  {
    hide Ctrl, Fresh, ProcessMsg, Settled, PromptAfter, AskAfter;
    if msgs != [] {
      OneCtrl(cfg, s, msgs[0]);
      MsgSettles(cfg, s, msgs[0], u, ids, asked);
      MsgsSettle(cfg, ProcessMsg(cfg, s, msgs[0]), msgs[1..], u, PromptAfter(cfg, ids, msgs[0], u),
                 AskAfter(cfg, asked, msgs[0], u));
    }
  }

  // ---- the batch

  lemma {:induction false} QueueSettles(cfg: Config, s: Sched, u: int, n: nat, asked: Params)
    requires Ctrl(s) && Settled(cfg, s, u, n, asked)
    ensures forall p | p in Schedule(cfg, s).0.pending && p.uid == u :: p.params == Granted(cfg, asked, n)
  {
    hide AddAll, ChunkList, InflightTokens, Sorted, Ctrl, Granted;
    var r := AddAll(cfg, s, Adder(cfg.budget, InflightTokens(cfg, s)), s.pending);
    forall p | p in ChunkList(s.pending, r.added) + s.pending[|r.added|..] && p.uid == u
      ensures p.params == Granted(cfg, asked, n)
    {
      if p in ChunkList(s.pending, r.added) {
        BackFrom(s.pending, r.added, p);
        var i :| 0 <= i < |r.added| && r.added[i].chunked && p == s.pending[i].(chunk := true);
        assert s.pending[i] in s.pending;
      } else {
        assert p in s.pending;
      }
    }
  }

  lemma {:induction false} ScheduleSettles(cfg: Config, s: Sched, u: int, n: nat, asked: Params)
    requires Ctrl(s) && Settled(cfg, s, u, n, asked)
    ensures Settled(cfg, Schedule(cfg, s).0, u, n, asked)
  {
    QueueSettles(cfg, s, u, n, asked);
    SchedulePicks(cfg, s, u);
    hide Schedule, Granted, Uids, Waiting, Ctrl, DistinctEntries;
  }

  lemma {:induction false} LaunchSettles(cfg: Config, s: Sched, i: Input, u: int, n: nat, asked: Params)
    requires Ctrl(s) && Settled(cfg, s, u, n, asked)
    ensures Settled(cfg, Launch(cfg, s, i).0, u, n, asked)
  {
    hide Ctrl, Schedule, Prepare, Forward, Picked, Settled, Uids, DistinctEntries;
    SchedulePicks(cfg, s, u);
    ScheduleSettles(cfg, s, u, n, asked);
    var (s1, b) := Schedule(cfg, s);
    if b.Some? {
      var tokens := TokensFor(b.value, i.tokens);
      ForwardOne(cfg, s1, b.value, i.ev, tokens, u);
      SettledSame(cfg, s1, Forward(cfg, Prepare(cfg, s1, b.value, i.ev), b.value, tokens), u, n, asked);
    }
  }

  lemma {:induction false} EntriesSettle(cfg: Config, p: Post, prefill: bool, es: seq<Entry>, tokens: seq<int>, u: int,
                                         n: nat, asked: Params)
    requires |tokens| == |es| && DistinctEntries(es) && Uids(es) <= p.s.reqs.Keys && Settled(cfg, p.s, u, n, asked)
    ensures Settled(cfg, ProcessEntries(cfg, p, prefill, es, tokens).s, u, n, asked)
  {
    hide ProcessEntries, Waiting, Settled, Said, DistinctEntries;
    WaitingUids(es);
    if u in Waiting(es) && u !in p.s.deferred {
      var k := EntriesHit(cfg, p, prefill, es, tokens, u);
    } else {
      EntriesSkip(cfg, p, prefill, es, tokens, u);
    }
    SettledSame(cfg, p.s, ProcessEntries(cfg, p, prefill, es, tokens).s, u, n, asked);
  }

  // ---- ticks

  lemma {:induction false} PlainCtrl(cfg: Config, s: Sched)
    requires NInv(cfg, s)
    ensures Ctrl(s)
  {
    hide RInv, DoneOk, PendOk, ChunkOk;
    forall p | p in s.pending
      ensures p.chunk <==> p.uid in s.reqs
      ensures p.uid !in s.running
    {
      var i :| 0 <= i < |s.pending| && s.pending[i] == p;
    }
    forall u | u in s.running
      ensures u in s.reqs
    {
      assert RunOk(cfg, s, u);
    }
  }

  lemma {:induction false} NormalSettles(cfg: Config, s: Sched, i: Input, u: int, ids: seq<int>, asked: Params)
    requires NInv(cfg, s) && AllFresh(cfg, s, i.msgs) && Settled(cfg, s, u, |ids|, asked)
    ensures Settled(cfg, NormalTick(cfg, s, i).0, u, |PromptAfterAll(cfg, ids, i.msgs, u)|,
                    AskAfterAll(cfg, asked, i.msgs, u))
  {
    hide NInv, Ctrl, AllFresh, ProcessMsgs, Launch, ProcessEntries, Settled, Uids, DistinctEntries, PromptAfterAll,
      AskAfterAll, Launched;
    PlainCtrl(cfg, s);
    MsgsSettle(cfg, s, i.msgs, u, ids, asked);
    MsgsKeep(cfg, s, i.msgs);
    var s0 := ProcessMsgs(cfg, s, i.msgs);
    var n, asked' := |PromptAfterAll(cfg, ids, i.msgs, u)|, AskAfterAll(cfg, asked, i.msgs, u);
    PlainCtrl(cfg, s0);
    LaunchSettles(cfg, s0, i, u, n, asked');
    LaunchIs(cfg, s0, i);
    var (s2, f) := Launch(cfg, s0, i);
    if f.None? {
      SettledSame(cfg, s2, NormalTick(cfg, s, i).0, u, n, asked');
    } else {
      LaunchKeys(s0, s2, f);
      var es := f.value.batch.entries;
      EntriesSettle(cfg, Post(s2, [], {}), f.value.batch.prefill, es, f.value.tokens, u, n, asked');
      SettledSame(cfg, ProcessEntries(cfg, Post(s2, [], {}), f.value.batch.prefill, es, f.value.tokens).s,
                  NormalTick(cfg, s, i).0, u, n, asked');
    }
  }

  lemma {:induction false} LaunchKeys(s: Sched, s2: Sched, f: Option<Flight>)
    requires Launched(s, s2, f) && f.Some?
    ensures DistinctEntries(f.value.batch.entries) && |f.value.tokens| == |f.value.batch.entries|
    ensures Uids(f.value.batch.entries) <= s2.reqs.Keys
  {
    hide DistinctEntries, Uids, DistinctUids, PendingUids, PlainIdle;
  }

  /** Over every run of the normal loop: the queue entry and the request of `u` have the settings submitted for it, with
  no more tokens than fit behind the prompt. */
  lemma {:induction false} RunSettles(cfg: Config, ins: seq<Input>, u: int)
    requires IsRun(cfg, ins)
    ensures Settled(cfg, StateAfter(cfg, ins), u, |PromptOf(cfg, ins, u)|, AskOf(cfg, ins, u))
    decreases |ins|
  {
    hide NInv, NormalTick, CfgOk, InitState, Settled, PromptAfterAll, AskAfterAll, AllFresh, CanPrepare, Schedule,
      ProcessMsgs;
    if ins == [] {
      StartSettles(cfg, u);
    } else {
      var was := ins[..|ins| - 1];
      Reachable(cfg, was);
      RunSettles(cfg, was, u);
      NormalSettles(cfg, StateAfter(cfg, was), ins[|ins| - 1], u, PromptOf(cfg, was, u), AskOf(cfg, was, u));
    }
  }

  lemma {:induction false} StartSettles(cfg: Config, u: int)
    ensures Settled(cfg, InitState(cfg), u, 0, Params(0, false, {}))
  {
    hide Range;
  }

  lemma {:induction false} OverlapSettles(cfg: Config, s: Sched, last: Option<Flight>, i: Input, u: int, ids: seq<int>,
                                          asked: Params)
    requires FInv(s, last) && OFresh(cfg, s, last, i.msgs) && Settled(cfg, s, u, |ids|, asked)
    ensures Settled(cfg, OverlapTick(cfg, s, last, i).0, u, |PromptAfterAll(cfg, ids, i.msgs, u)|,
                    AskAfterAll(cfg, asked, i.msgs, u))
  {
    hide OverlapTick, StagesOk, ProcessMsgs, Launch, ProcessEntries, ApplyEntries, Uids, DistinctEntries, Settled,
      Ctrl, PromptAfterAll, AskAfterAll, AllFresh, Released, PlainIdle;
    var s0 := s.(inflight := LastUids(last));
    var n, asked' := |PromptAfterAll(cfg, ids, i.msgs, u)|, AskAfterAll(cfg, asked, i.msgs, u);
    TickStages(cfg, s, last, i);
    TickIs(cfg, s, last, i);
    var g := StagesOf(cfg, s, last, i);
    StagesKeys(s, last, i, g);
    WithInflight(s, last);
    HeardCtrl(s, last, i, g);
    SettledSame(cfg, s, s0, u, |ids|, asked);
    MsgsSettle(cfg, s0, i.msgs, u, ids, asked);
    LaunchSettles(cfg, g.heard, i, u, n, asked');
    if last.Some? {
      EntriesSettle(cfg, Post(g.launched, [], {}), last.value.batch.prefill, last.value.batch.entries,
        last.value.tokens, u, n, asked');
    }
    var s3, s' := g.post.s.(finished := g.post.finished), g.applied.(deferred := {}, acks := [], inflight := {});
    ApplyIs(cfg, s3, LastEntries(last), {});
    AppliedKeeps(s3, g.applied, LastEntries(last));
    SettledSame(cfg, g.post.s, s', u, n, asked');
  }

  /** The same over every run of the overlap loop. */
  lemma {:induction false} LoopSettles(cfg: Config, ins: seq<Input>, u: int)
    requires IsLoop(cfg, ins)
    ensures Settled(cfg, LoopAfter(cfg, ins).s, u, |PromptOf(cfg, ins, u)|, AskOf(cfg, ins, u))
    decreases |ins|
  {
    hide FInv, OFresh, OverlapTick, InitState, Settled, PromptAfterAll, AskAfterAll;
    if ins == [] {
      StartSettles(cfg, u);
    } else {
      var was, i := ins[..|ins| - 1], ins[|ins| - 1];
      var l := LoopAfter(cfg, was);
      LoopSettles(cfg, was, u);
      LoopControl(cfg, was);
      OverlapSettles(cfg, l.s, l.last, i, u, PromptOf(cfg, was, u), AskOf(cfg, was, u));
    }
  }
}
