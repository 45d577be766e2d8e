/** Progress when a page holds one token: with nothing live the head of the queue is always admitted, every tick without
new messages shrinks a measure, and so every accepted request finishes within finitely many ticks. */
module SchedProgress {
  import opened Paging
  import opened Sums
  import opened PrefixStore
  import opened CacheSpec
  import opened Requests
  import opened SchedSpec
  import opened SchedInv
  import opened SchedAdmit
  import opened SchedRound
  import opened SchedBatch
  import opened SchedForward
  import opened SchedPost
  import opened SchedRun
  import opened SchedSound

  /** One-token pages, a positive prefill budget, at least one row, and no sequence longer than the pool. */
  ghost predicate Roomy(cfg: Config) {
    cfg.ps == 1 && cfg.budget > 0 && cfg.numRows > 0 && cfg.maxSeqLen <= cfg.numPages
  }

  // ---- the head of the queue is admitted

  /** With no lock outstanding all pages and rows are at hand. */
  lemma {:induction false} AllAvailable(cfg: Config, s: Sched)
    requires cfg.ps == 1 && NInv(cfg, s) && s.cache.held == map[]
    ensures Avail(s.cache) == cfg.numPages && |s.rows| == cfg.numRows && CacheOk(s.cache, 1)
  {
    hide QueueOk, HeadOk, RunningOk, DoneOk, StoreOk, Shape, ReqsInv, Count, Range, Avail, Balance;
    assert Owners(cfg, s, {}) == map[];
    assert PageShares(map[], cfg.ps, All) == map[] && RowShares(map[], All) == map[];
    assert PagesOwned(cfg, s.cache, [], Owners(cfg, s, {}), All);
    assert RowsOwned(cfg, s.rows, Owners(cfg, s, {}), All);
    CountNone(All);
    CountAll(s.rows);
    CountAll(Range(0, cfg.numPages, cfg.ps));
    CountAll(Range(0, cfg.numRows, 1));
    NothingHeld(s.cache, 1);
  }

  /** Locking the matched prefix leaves room for the rest of the request. */
  lemma {:induction false} RoomAfterLock(c: Cache, u: int, ids: seq<int>, n: nat)
    requires StoreOk(c.store, 1) && u !in c.held && n <= |ids|
    ensures Avail(LockOp(c, u, ids[..n])) <= Avail(c) <= Avail(LockOp(c, u, ids[..n])) + n
  {
    hide StoreOk, Avail, LockOp, RunKeys, DivCeil;
    AlignedIsMod(n, 1);
    AlignedIsMod(0, 1);
    LockAvail(c, u, ids[..n], 1);
    RunCount(ids[..n], 0, n, 1);
    CeilOne(n);
  }

  lemma {:induction false} NewHeadFits(cfg: Config, s: Sched)
    requires Roomy(cfg) && NInv(cfg, s) && s.cache.held == map[] && s.pending != [] && !s.pending[0].chunk
    requires s.running == {}
    ensures TryAddOne(cfg, s, Adder(cfg.budget, InflightTokens(cfg, s)), s.pending[0]).Some?
  {
    hide LInv, CacheOk, Avail, LockOp, LongestMatch, WriteRow, AddReq, SlotsOf;
    AllAvailable(cfg, s);
    HeadWellFormed(cfg, s);
    NoInflight(cfg, s);
    var p := s.pending[0];
    var n := LongestMatch(s.cache.store, p.ids[..|p.ids| - 1], cfg.ps);
    assert p.ids[..|p.ids| - 1][..n] == p.ids[..n];
    StoreIn(s.cache);
    RoomAfterLock(s.cache, p.uid, p.ids, n);
  }

  lemma {:induction false} StoreIn(c: Cache)
    requires CacheOk(c, 1)
    ensures StoreOk(c.store, 1)
  {
    hide StoreOk;
  }

  lemma {:induction false} HeadWellFormed(cfg: Config, s: Sched)
    requires NInv(cfg, s) && s.pending != []
    ensures PendOk(cfg, s.pending[0]) && (s.pending[0].chunk ==> ChunkOk(s, s.pending[0]))
  {
    hide RInv, PendOk, ChunkOk, RunningOk;
  }

  lemma {:induction false} NoInflight(cfg: Config, s: Sched)
    requires s.running == {}
    ensures InflightTokens(cfg, s) == 0
  {
    assert RemainSum(s.reqs, {}) == map[];
    assert (cfg.ps - 1) * 0 == 0;
  }

  lemma {:induction false} ChunkHeadFits(cfg: Config, s: Sched)
    requires Roomy(cfg) && NInv(cfg, s) && s.pending != [] && s.pending[0].chunk
    ensures TryAddOne(cfg, s, Adder(cfg.budget, InflightTokens(cfg, s)), s.pending[0]).Some?
  {
    hide LInv, InflightTokens, AddReq;
    HeadWellFormed(cfg, s);
  }

  /** While nothing runs, the head of the queue is admitted. */
  lemma {:induction false} HeadAdmitted(cfg: Config, s: Sched)
    requires Roomy(cfg) && NInv(cfg, s) && s.running == {} && s.pending != []
    ensures var (s1, b) := Schedule(cfg, s);
            b.Some? && b.value.prefill && b.value.entries != [] && b.value.entries[0].uid == s.pending[0].uid
  {
    hide LInv, TryAddOne, InflightTokens, RoundOk, AddAll;
    if s.pending[0].chunk {
      ChunkHeadFits(cfg, s);
    } else {
      NothingLive(cfg, s);
      NewHeadFits(cfg, s);
    }
    PrefillIs(cfg, s);
    var a := Adder(cfg.budget, InflightTokens(cfg, s));
    FirstTaken(cfg, s, a, s.pending);
    EntriesAre(AddAll(cfg, s, a, s.pending).added);
  }

  lemma {:induction false} NothingLive(cfg: Config, s: Sched)
    requires NInv(cfg, s) && s.running == {} && s.pending != [] && !s.pending[0].chunk
    ensures s.cache.held == map[]
  {
    hide RInv, PendOk, RunningOk, HeadOk;
    forall u
      ensures u !in ChunkUids(s.pending)
    {
      ChunkHead(cfg, s, s.pending, u);
    }
    assert s.cache.held.Keys == {};
  }

  lemma {:induction false} FirstTaken(cfg: Config, s: Sched, a: Adder, queue: seq<Pending>)
    requires queue != [] && TryAddOne(cfg, s, a, queue[0]).Some?
    ensures var r := AddAll(cfg, s, a, queue); r.added != [] && r.added[0].uid == queue[0].uid
  {
    hide TryAddOne;
    StepUid(cfg, s, a, queue[0]);
  }

  // ---- the measure

  /** Prompt tokens of a queued entry that are computed already. */
  ghost function DoneOf(s: Sched, p: Pending): nat {
    if p.chunk && Get(s.reqs, p.uid).cachedLen <= |p.ids| then Get(s.reqs, p.uid).cachedLen else 0
  }

  ghost function QueueWork(s: Sched, queue: seq<Pending>): nat {
    if queue == [] then 0
    else |queue[0].ids| - DoneOf(s, queue[0]) + queue[0].params.maxTokens + 1 + QueueWork(s, queue[1..])
  }

  /** All work left: what running requests may still generate, what queued ones still compute and generate. */
  ghost function Measure(s: Sched): nat {
    RunNeed(s) + QueueWork(s, s.pending)
  }

  lemma {:induction false} QueueWorkSame(s: Sched, s': Sched, queue: seq<Pending>)
    requires forall i {:trigger queue[i]} | 0 <= i < |queue| && queue[i].chunk ::
               Get(s'.reqs, queue[i].uid).cachedLen == Get(s.reqs, queue[i].uid).cachedLen
    ensures QueueWork(s', queue) == QueueWork(s, queue)
    decreases |queue|
  {
    if queue != [] {
      assert forall i | 0 <= i < |queue[1..]| :: queue[1..][i] == queue[i + 1];
      assert queue[0].chunk ==> Get(s'.reqs, queue[0].uid).cachedLen == Get(s.reqs, queue[0].uid).cachedLen;
      QueueWorkSame(s, s', queue[1..]);
    }
  }

  lemma {:induction false} QueueWorkSplit(s: Sched, queue: seq<Pending>, k: nat)
    requires k <= |queue|
    ensures QueueWork(s, queue) == QueueWork(s, queue[..k]) + QueueWork(s, queue[k..])
    decreases |queue|
  {
    if k > 0 {
      QueueWorkSplit(s, queue[1..], k - 1);
      assert queue[..k][1..] == queue[1..][..k - 1] && queue[1..][k - 1..] == queue[k..];
    } else {
      assert queue[..0] == [] && queue[0..] == queue;
    }
  }

  /** The entries a round took counted for at least what was reserved for them, and one more each. */
  lemma {:induction false} TakenWork(s: Sched, s': Sched, added: seq<Req>, queue: seq<Pending>)
    requires AllAdded(s', added, queue)
    requires forall i {:trigger added[i]} | 0 <= i < |added| :: DoneOf(s, queue[i]) <= added[i].cachedLen
    ensures QueueWork(s, queue[..|added|]) >= Reserve(added, queue) + |added|
    ensures Work(added) >= |added|
    decreases |added|
  {
    if added != [] {
      AllAddedRest(s', added, queue);
      assert forall i | 0 <= i < |added[1..]| :: added[1..][i] == added[i + 1] && queue[1..][i] == queue[i + 1];
      TakenWork(s, s', added[1..], queue[1..]);
      assert queue[..|added|][1..] == queue[1..][..|added| - 1];
      assert DoneOf(s, queue[0]) <= added[0].cachedLen;
    }
  }

  /** The next chunk of a prompt starts where the last one ended. */
  lemma {:induction false} ChunkContinues(cfg: Config, s: Sched, a: Adder, queue: seq<Pending>)
    requires AddAll(cfg, s, a, queue).added != [] && queue[0].chunk
    ensures AddAll(cfg, s, a, queue).added[0].cachedLen == Get(s.reqs, queue[0].uid).cachedLen
  {
    hide TryAllocate, WriteRow;
  }

  lemma {:induction false} RoundStarts(cfg: Config, s: Sched, a: Adder, others: set<int>)
    requires LInv(cfg, s, s.pending, others) && RoundOk(cfg, s, a, s.pending, others, AddAll(cfg, s, a, s.pending))
    ensures var added := AddAll(cfg, s, a, s.pending).added;
            forall i {:trigger added[i]} | 0 <= i < |added| :: DoneOf(s, s.pending[i]) <= added[i].cachedLen
  {
    hide RInv, RoundOk, AddAll, RunningOk, HeadOk, PendOk, DistinctUids;
    RoundSize(cfg, s, a, s.pending, others, AddAll(cfg, s, a, s.pending));
    var added := AddAll(cfg, s, a, s.pending).added;
    if added != [] && s.pending[0].chunk {
      ChunkContinues(cfg, s, a, s.pending);
    }
  }

  lemma {:induction false} RoundSize(cfg: Config, s: Sched, a: Adder, queue: seq<Pending>, busy: set<int>, r: Round)
    requires RoundOk(cfg, s, a, queue, busy, r)
    ensures |r.added| <= |queue| && AllAdded(r.s, r.added, queue) && LastChunked(r.added)
  {
    hide LInv, Kept, LastChunked;
  }

  // ---- a tick shrinks the measure

  lemma {:induction false} PrefillShrinks(cfg: Config, s: Sched, a: Adder, s': Sched, others: set<int>)
    requires LInv(cfg, s, s.pending, others) && Aside(s, others)
    requires RoundOk(cfg, s, a, s.pending, others, AddAll(cfg, s, a, s.pending))
    requires AddAll(cfg, s, a, s.pending).added != []
    requires var r := AddAll(cfg, s, a, s.pending);
             && |r.added| <= |s.pending|
             && Forwarded(r.s.(pending := NextQueue(s.pending, r.added)), s', Batch(EntriesOf(r.added), true))
    ensures Measure(s') < Measure(s)
  {
    hide LInv, Aside, AllAdded, AddAll, LastChunked, UidsOf, NextQueue, Waiting, Uids, Reserve, Work, NextRem, Kept,
      QueueWork;
    var r := AddAll(cfg, s, a, s.pending);
    WorkReserved(r.s, r.added, s.pending);
    RoundStarts(cfg, s, a, others);
    TakenWork(s, r.s, r.added, s.pending);
    QueueWorkSplit(s, s.pending, |r.added|);
    RunNeedAfter(cfg, s, a, r, s', others);
    QueueWorkAfter(cfg, s, a, r, s', others);
  }

  lemma {:induction false} RunNeedAfter(cfg: Config, s: Sched, a: Adder, r: Round, s': Sched, others: set<int>)
    requires LInv(cfg, s, s.pending, others) && Aside(s, others)
    requires RoundOk(cfg, s, a, s.pending, others, r) && r.added != []
    requires Forwarded(r.s.(pending := NextQueue(s.pending, r.added)), s', Batch(EntriesOf(r.added), true))
    ensures RunNeed(s') <= RunNeed(s) + NextRem(r.added)
  {
    hide LInv, Aside, AllAdded, LastChunked, UidsOf, NextQueue, Waiting, Uids, Work, NextRem;
    EntriesAre(r.added);
    RemWaiting(r.s, r.added, s.pending, s', s.running);
    RemSubset(s'.reqs, s'.running, s.running + Waiting(EntriesOf(r.added)));
    RunningKept(cfg, s, a, r, s', others);
    RemSame(s.reqs, s'.reqs, s.running);
  }

  lemma {:induction false} QueueWorkAfter(cfg: Config, s: Sched, a: Adder, r: Round, s': Sched, others: set<int>)
    requires LInv(cfg, s, s.pending, others) && RoundOk(cfg, s, a, s.pending, others, r) && r.added != []
    requires Forwarded(r.s.(pending := NextQueue(s.pending, r.added)), s', Batch(EntriesOf(r.added), true))
    ensures QueueWork(s', s'.pending)
         == QueueWork(s, s.pending[|r.added|..])
            + (if r.added[|r.added| - 1].chunked
               then |s.pending[|r.added| - 1].ids| - r.added[|r.added| - 1].deviceLen
                    + s.pending[|r.added| - 1].params.maxTokens + 1
               else 0)
  {
    hide RInv, HeadOk, RunningOk, LastChunked, Waiting, Uids, UidsOf, Work, ChunkUids, LInv, QueueOk;
    QueueOfLive(cfg, s, others);
    var k, rest := |r.added| - 1, s.pending[|r.added|..];
    RestIndex(cfg, s, |r.added|);
    QueueWorkSame(s, s', rest);
    EntriesAre(r.added);
    AddedUid(r.s, r.added, s.pending, k);
    assert AddedFrom(r.s, r.added[k], s.pending[k]);
    assert Get(s'.reqs, r.added[k].uid) == r.added[k].CompleteOne();
    if r.added[k].chunked {
      var p := s.pending[k].(chunk := true);
      assert s'.pending == [p] + rest && s'.pending[1..] == rest;
    } else {
      assert s'.pending == rest;
    }
  }

  /** Each running request has one token less to come. */
  lemma {:induction false} OneLess(cfg: Config, s: Sched, s': Sched, others: set<int>, u: int)
    requires LInv(cfg, s, s.pending, others) && Aside(s, others) && u in s.running
    requires Forwarded(s, s', Batch(DecodeEntries(Sorted(s.running)), false))
    ensures Get(s'.reqs, u).RemainLen() == Get(s.reqs, u).RemainLen() - 1 >= 0
  {
    hide RInv, QueueOk, Sorted, Waiting, DoneOk, HeadOk, ChunkUids;
    SortedUids(s.running);
    assert RunOk(cfg, s, u);
  }

  lemma {:induction false} DecodeQueue(cfg: Config, s: Sched, s': Sched, others: set<int>)
    requires LInv(cfg, s, s.pending, others) && Aside(s, others)
    requires Forwarded(s, s', Batch(DecodeEntries(Sorted(s.running)), false))
    ensures QueueWork(s', s'.pending) == QueueWork(s, s.pending)
  {
    hide RInv, RunningOk, PendOk, Sorted, Waiting, Uids, DoneOk, HeadOk, DistinctUids;
    SortedUids(s.running);
    QueueWorkSame(s, s', s.pending);
  }

  lemma {:induction false} DecodeShrinks(cfg: Config, s: Sched, s': Sched, others: set<int>)
    requires LInv(cfg, s, s.pending, others) && Aside(s, others) && s.running != {}
    requires Forwarded(s, s', Batch(DecodeEntries(Sorted(s.running)), false))
    ensures Measure(s') < Measure(s)
  {
    hide LInv, Aside, Sorted, Waiting, Uids, QueueWork;
    SortedUids(s.running);
    forall u | u in s.running
      ensures Get(s'.reqs, u).RemainLen() == Get(s.reqs, u).RemainLen() - 1 >= 0
    {
      OneLess(cfg, s, s', others, u);
    }
    RemStep(s.reqs, s'.reqs, s.running);
    WaitingUids(DecodeEntries(Sorted(s.running)));
    RemSubset(s'.reqs, s'.running, s.running);
    DecodeQueue(cfg, s, s', others);
  }

  lemma {:induction false} ScheduleShrinks(cfg: Config, s: Sched, s': Sched, others: set<int>)
    requires LInv(cfg, s, s.pending, others) && Aside(s, others) && Schedule(cfg, s).1.Some?
    requires Forwarded(Schedule(cfg, s).0, s', Schedule(cfg, s).1.value)
    ensures Measure(s') < Measure(s)
  {
    hide LInv, Aside, Forwarded, AddAll, InflightTokens, NextQueue, RoundOk, SchedulePrefill, Sorted, Measure;
    PrefillLive(cfg, s, others);
    var a := Adder(cfg.budget, InflightTokens(cfg, s));
    var r := AddAll(cfg, s, a, s.pending);
    RoundSize(cfg, s, a, s.pending, others, r);
    if r.added != [] {
      PrefillShrinks(cfg, s, a, s', others);
    } else {
      DecodeShrinks(cfg, s, s', others);
    }
  }

  lemma {:induction false} LighterMeasure(s: Sched, s': Sched)
    requires Lighter(s, s')
    ensures Measure(s') <= Measure(s)
  {
    RemSame(s.reqs, s'.reqs, s'.running);
    RemSubset(s.reqs, s'.running, s.running);
    forall i | 0 <= i < |s.pending| && s.pending[i].chunk
      ensures Get(s'.reqs, s.pending[i].uid).cachedLen == Get(s.reqs, s.pending[i].uid).cachedLen
    {
    }
    QueueWorkSame(s, s', s.pending);
  }

  /** Without new messages a tick that finds any work leaves strictly less of it. */
  lemma {:induction false} TickShrinks(cfg: Config, s: Sched, i: Input)
    requires Roomy(cfg) && NInv(cfg, s) && Admissible(cfg, s, i) && i.msgs == []
    requires s.pending != [] || s.running != {}
    ensures Measure(NormalTick(cfg, s, i).0) < Measure(s)
  {
    hide LInv, AllFresh, Schedule, CanPrepare, Forward, Prepare, RInv, Planned, ProcessLast, Measure, PagesFor,
      Forwarded;
    if s.running == {} {
      HeadAdmitted(cfg, s);
    }
    var (s1, b) := Schedule(cfg, s);
    ScheduleKeeps(cfg, s);
    var tokens := TokensFor(b.value, i.tokens);
    var s2 := Forward(cfg, Prepare(cfg, s1, b.value, i.ev), b.value, tokens);
    ForwardIs(cfg, s1, b.value, i.ev, tokens);
    ScheduleShrinks(cfg, s, s2, {});
    ProcessMeasure(cfg, s2, b.value, tokens);
  }

  lemma {:induction false} ProcessMeasure(cfg: Config, s: Sched, b: Batch, tokens: seq<int>)
    requires |tokens| == |b.entries|
    ensures Measure(ProcessLast(cfg, s, b, tokens).0.(acks := [])) <= Measure(s)
  {
    hide ProcessEntries;
    EntriesLighter(cfg, Post(s, [], {}), b.prefill, b.entries, tokens);
    LighterMeasure(s, ProcessLast(cfg, s, b, tokens).0.(acks := []));
  }

  // ---- every accepted request finishes

  ghost predicate Quiet(ins: seq<Input>) {
    forall i {:trigger ins[i]} | 0 <= i < |ins| :: ins[i].msgs == []
  }

  ghost predicate Idle(s: Sched) {
    s.pending == [] && s.running == {}
  }

  lemma {:induction false} IdleStays(cfg: Config, s: Sched, i: Input)
    requires Idle(s) && i.msgs == []
    ensures Idle(NormalTick(cfg, s, i).0)
  {
    assert AddAll(cfg, s, Adder(cfg.budget, InflightTokens(cfg, s)), []).added == [];
  }

  lemma {:induction false} RunsDown(cfg: Config, ins: seq<Input>, more: seq<Input>)
    requires Roomy(cfg) && IsRun(cfg, ins + more) && Quiet(more)
    ensures IsRun(cfg, ins)
    ensures Idle(StateAfter(cfg, ins + more))
         || Measure(StateAfter(cfg, ins + more)) + |more| <= Measure(StateAfter(cfg, ins))
    decreases |more|
  {
    hide NInv, NormalTick, Admissible, CfgOk, Measure, Roomy;
    if more == [] {
      assert ins + more == ins;
    } else {
      var all, last := ins + more, more[|more| - 1];
      assert all[..|all| - 1] == ins + more[..|more| - 1] && all[|all| - 1] == last;
      RunsDown(cfg, ins, more[..|more| - 1]);
      var s := StateAfter(cfg, ins + more[..|more| - 1]);
      assert StateAfter(cfg, all) == NormalTick(cfg, s, last).0;
      Reachable(cfg, ins + more[..|more| - 1]);
      if Idle(s) {
        IdleStays(cfg, s, last);
      } else {
        TickShrinks(cfg, s, last);
      }
    }
  }

  /** Termination: from any reachable state, after at most `Measure` ticks without new messages nothing is queued,
  nothing runs, every row is free and every page is free or cached. */
  lemma {:induction false} AllFinish(cfg: Config, ins: seq<Input>, more: seq<Input>)
    requires Roomy(cfg) && IsRun(cfg, ins + more) && Quiet(more) && |more| > Measure(StateAfter(cfg, ins))
    ensures var s := StateAfter(cfg, ins + more);
            && s.pending == [] && s.running == {} && s.cache.held == map[] && |s.rows| == cfg.numRows
            && |s.cache.free| + |s.cache.store.Keys| == cfg.numPages
  {
    hide IsRun, StateAfter, Measure, Roomy;
    RunsDown(cfg, ins, more);
    IdleIntegrity(cfg, ins + more);
  }
}
