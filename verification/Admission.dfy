/** Which batch comes next, without the loop that builds it: as many requests from the front of the queue as there is
room for, by the reservation estimate; and if there is room for none, everything that runs, in the order of its uids. */
module Admission {
  import Sums
  import opened Paging
  import opened PrefixStore
  import opened CacheSpec
  import opened Requests
  import opened SchedSpec
  import opened SchedInv
  import opened SchedAdmit
  import opened SchedRound
  import opened SchedBatch
  import opened SchedForward
  import opened SchedPost
  import opened SchedRun
  import opened Overlap
  import opened OverlapRun
  import opened OverlapLag
  import opened OverlapOwn
  import opened OverlapPages
  import opened OverlapSound

  // ---- what a queue entry needs

  /** Where its computation goes on: behind its last chunk, or behind the longest stored prefix of all but its last
  token. */
  ghost function Begin(cfg: Config, s: Sched, p: Pending): nat {
    if p.chunk then Get(s.reqs, p.uid).cachedLen
    else if p.ids == [] then 0
    else LongestMatch(s.cache.store, p.ids[..|p.ids| - 1], cfg.ps)
  }

  /** Prompt tokens it still has to compute. */
  ghost function ToCompute(cfg: Config, s: Sched, p: Pending): int {
    |p.ids| - Begin(cfg, s, p)
  }

  /** Prompt tokens of the first `k` entries. */
  ghost function Prompts(cfg: Config, s: Sched, queue: seq<Pending>, k: nat): int
    requires k <= |queue|
  {
    if k == 0 then 0 else Prompts(cfg, s, queue, k - 1) + ToCompute(cfg, s, queue[k - 1])
  }

  /** Prompt and reply tokens of the first `k` entries. */
  ghost function Estimate(cfg: Config, s: Sched, queue: seq<Pending>, k: nat): int
    requires k <= |queue|
  {
    if k == 0 then 0
    else Estimate(cfg, s, queue, k - 1) + ToCompute(cfg, s, queue[k - 1]) + queue[k - 1].params.maxTokens
  }

  /** New requests, which need a row, among the first `k` entries. */
  function NewOnes(queue: seq<Pending>, k: nat): nat
    requires k <= |queue|
  {
    if k == 0 then 0 else NewOnes(queue, k - 1) + (if queue[k - 1].chunk then 0 else 1)
  }

  /** The locks once the new ones among the first `k` entries hold their matched prefixes. */
  ghost function LocksBehind(cfg: Config, s: Sched, queue: seq<Pending>, k: nat): map<int, seq<int>>
    requires k <= |queue|
  {
    if k == 0 then s.cache.held
    else
      var p := queue[k - 1];
      var held := LocksBehind(cfg, s, queue, k - 1);
      if p.chunk || Begin(cfg, s, p) > |p.ids| then held else held[p.uid := p.ids[..Begin(cfg, s, p)]]
  }

  /** Tokens the running requests may still produce, with a page of slack for each when pages hold several tokens. */
  ghost function RunningNeed(cfg: Config, s: Sched): nat {
    Sums.Total(map u | u in s.running ::
      (if Get(s.reqs, u).maxLen > Get(s.reqs, u).deviceLen then Get(s.reqs, u).maxLen - Get(s.reqs, u).deviceLen else 0)
      + (cfg.ps - 1))
  }

  /** There is room for the entry `k` behind those before it: budget is left; and a new one finds a row, and slots for
  what it and all before it and all running requests may need, beside everything locked by then. */
  ghost predicate Room(cfg: Config, s: Sched, queue: seq<Pending>, k: nat)
    requires k < |queue|
  {
    && queue[k].ids != [] && Prompts(cfg, s, queue, k) < cfg.budget
    && (queue[k].chunk ||
         (&& NewOnes(queue, k) < |s.rows|
          && RunningNeed(cfg, s) + Estimate(cfg, s, queue, k + 1)
               <= Avail(s.cache.(held := LocksBehind(cfg, s, queue, k + 1))) * cfg.ps))
  }

  // ---- the sums

  lemma {:induction false} TotalPlus(m: map<int, nat>, m': map<int, nat>, d: nat)
    requires m'.Keys == m.Keys && forall k | k in m :: m'[k] == m[k] + d
    ensures Sums.Total(m') == Sums.Total(m) + d * |m.Keys|
    decreases |m.Keys|
  {
    if m == map[] {
      assert m' == map[];
    } else {
      var k := Sums.PickKey(m);
      Sums.TotalPick(m', k);
      TotalPlus(m - {k}, m' - {k}, d);
      OneLess(m.Keys, k, d);
      assert (m - {k}).Keys == m.Keys - {k};
    }
  }

  lemma {:induction false} OneLess(us: set<int>, u: int, d: nat)
    requires u in us
    ensures d * |us - {u}| + d == d * |us| && |us - {u}| < |us|
  {
  }

  lemma {:induction false} RunningIs(cfg: Config, s: Sched)
    ensures RunningNeed(cfg, s) == InflightTokens(cfg, s)
  {
    var m := RemainSum(s.reqs, s.running);
    var m' := map u | u in s.running ::
      (if Get(s.reqs, u).maxLen > Get(s.reqs, u).deviceLen then Get(s.reqs, u).maxLen - Get(s.reqs, u).deviceLen else 0)
      + (cfg.ps - 1);
    TotalPlus(m, m', cfg.ps - 1);
    assert m.Keys == s.running;
  }

  lemma {:induction false} LockLess(c: Cache, u: int, path: seq<int>)
    requires u !in c.held
    ensures Avail(LockOp(c, u, path)) <= Avail(c)
  {
    var c' := LockOp(c, u, path);
    forall q | q in Protected(c.store, c.held)
      ensures q in Protected(c.store, c'.held)
    {
      var v :| v in c.held && q <= c.held[v];
      assert v in c'.held && c'.held[v] == c.held[v];
    }
    Subset(Unprotected(c.store, c'.held), Unprotected(c.store, c.held));
  }

  lemma {:induction false} Subset<T>(a: set<T>, b: set<T>)
    requires a <= b
    ensures |a| <= |b|
  {
    assert b == a + (b - a);
    assert |a + (b - a)| == |a| + |b - a|;
  }

  // ---- one round

  /** What a round needs to know of its queue. */
  ghost predicate Ready(s: Sched, queue: seq<Pending>) {
    && DistinctUids(queue)
    && forall i {:trigger queue[i]} | 0 <= i < |queue| ::
         if queue[i].chunk then Get(s.reqs, queue[i].uid).cachedLen <= |queue[i].ids|
         else queue[i].uid !in s.cache.held
  }

  /** State and totals after the first `k` entries were taken. */
  ghost predicate Behind(cfg: Config, s: Sched, queue: seq<Pending>, k: nat, t: Sched, a: Adder)
    requires k <= |queue|
  {
    && t.cache == s.cache.(held := LocksBehind(cfg, s, queue, k)) && |t.rows| == |s.rows| - NewOnes(queue, k)
    && a.budget == (if Prompts(cfg, s, queue, k) < cfg.budget then cfg.budget - Prompts(cfg, s, queue, k) else 0)
    && a.reserved == RunningNeed(cfg, s) + Estimate(cfg, s, queue, k)
    && (forall i {:trigger queue[i]} | k <= i < |queue| :: Get(t.reqs, queue[i].uid) == Get(s.reqs, queue[i].uid))
  }

  lemma {:induction false} LocksNew(cfg: Config, s: Sched, queue: seq<Pending>, k: nat, i: nat)
    requires Ready(s, queue) && k <= i < |queue| && !queue[i].chunk
    ensures queue[i].uid !in LocksBehind(cfg, s, queue, k)
    decreases k
  {
    hide Begin;
    if k > 0 {
      LocksNew(cfg, s, queue, k - 1, i);
    }
  }

  /** An entry is taken exactly when there is room for it. */
  lemma {:induction false} StepExactly(cfg: Config, s: Sched, queue: seq<Pending>, k: nat, t: Sched, a: Adder)
    requires Ready(s, queue) && k < |queue| && Behind(cfg, s, queue, k, t, a)
    ensures TryAddOne(cfg, t, a, queue[k]).Some? <==> Room(cfg, s, queue, k)
  {
    hide WriteRow, Avail, SlotsOf, RunningNeed, LongestMatch, DistinctUids;
    var p := queue[k];
    if a.budget > 0 && p.ids != [] && !p.chunk && t.rows != [] {
      LocksNew(cfg, s, queue, k, k);
      LockLess(t.cache, p.uid, p.ids[..Begin(cfg, s, p)]);
      assert LockOp(t.cache, p.uid, p.ids[..Begin(cfg, s, p)])
          == s.cache.(held := LocksBehind(cfg, s, queue, k + 1));
      SlotsMore(Avail(LockOp(t.cache, p.uid, p.ids[..Begin(cfg, s, p)])), Avail(t.cache), cfg.ps);
    }
  }

  lemma {:induction false} SlotsMore(a: int, b: int, ps: Pos)
    requires a <= b
    ensures a * ps <= b * ps
  {
  }

  lemma {:induction false} StepBehind(cfg: Config, s: Sched, queue: seq<Pending>, k: nat, t: Sched, a: Adder)
    requires Ready(s, queue) && k < |queue| && Behind(cfg, s, queue, k, t, a)
    requires TryAddOne(cfg, t, a, queue[k]).Some?
    ensures var (t1, a1, q) := TryAddOne(cfg, t, a, queue[k]).value; Behind(cfg, s, queue, k + 1, t1, a1)
  {
    hide WriteRow, Avail, SlotsOf, RunningNeed, LongestMatch;
  }

  lemma {:induction false} RoundExactly(cfg: Config, s: Sched, queue: seq<Pending>, k: nat, t: Sched, a: Adder)
    requires Ready(s, queue) && k <= |queue| && Behind(cfg, s, queue, k, t, a)
    ensures var n := k + |AddAll(cfg, t, a, queue[k..]).added|;
            && (forall i | k <= i < n :: Room(cfg, s, queue, i)) && (n < |queue| ==> !Room(cfg, s, queue, n))
    decreases |queue| - k
  {
    hide TryAddOne, Room, Behind, Ready;
    if k < |queue| {
      StepExactly(cfg, s, queue, k, t, a);
      assert queue[k..][0] == queue[k] && queue[k..][1..] == queue[k + 1..];
      if TryAddOne(cfg, t, a, queue[k]).Some? {
        var (t1, a1, q) := TryAddOne(cfg, t, a, queue[k]).value;
        StepBehind(cfg, s, queue, k, t, a);
        RoundExactly(cfg, s, queue, k + 1, t1, a1);
      }
    }
  }

  // ---- the next batch

  /** There is room for the first `k` queue entries and not for another. */
  ghost predicate RoomFor(cfg: Config, s: Sched, k: nat) {
    && k <= |s.pending| && (forall i | 0 <= i < k :: Room(cfg, s, s.pending, i))
    && (k < |s.pending| ==> !Room(cfg, s, s.pending, k))
  }

  /** The batch of a state with room for `k` queue entries. */
  ghost predicate BatchIs(s: Sched, b: Option<Batch>, k: nat)
    requires k <= |s.pending|
  {
    if k > 0 then
      && b.Some? && b.value.prefill && |b.value.entries| == k
      && forall i {:trigger b.value.entries[i]} | 0 <= i < k :: b.value.entries[i].uid == s.pending[i].uid
    else if s.running != {} then
      && b.Some? && !b.value.prefill && Uids(b.value.entries) == s.running
      && (forall e | e in b.value.entries :: !e.chunked)
      && (forall i, j | 0 <= i < j < |b.value.entries| :: b.value.entries[i].uid < b.value.entries[j].uid)
    else b.None?
  }

  lemma {:induction false} DecodeIs(s: Sched)
    requires s.running != {}
    ensures BatchIs(s, Some(Batch(DecodeEntries(Sorted(s.running)), false)), 0)
  {
    hide Sorted;
    SortedUids(s.running);
  }

  /** The batch a state schedules. */
  lemma {:induction false} BatchExactly(cfg: Config, s: Sched)
    requires Ready(s, s.pending)
    ensures exists k :: RoomFor(cfg, s, k) && BatchIs(s, Schedule(cfg, s).1, k)
  {
    hide AddAll, InflightTokens, ChunkList, Sorted, Room, RunningNeed, Uids;
    RunningIs(cfg, s);
    var a := Adder(cfg.budget, InflightTokens(cfg, s));
    var r := AddAll(cfg, s, a, s.pending);
    assert s.cache.(held := s.cache.held) == s.cache;
    assert s.pending[0..] == s.pending;
    RoundExactly(cfg, s, s.pending, 0, s, a);
    assert RoomFor(cfg, s, |r.added|);
    if r.added == [] {
      if s.running != {} {
        DecodeIs(s);
      }
    } else {
      EntriesAre(r.added);
      forall i | 0 <= i < |r.added|
        ensures EntriesOf(r.added)[i].uid == s.pending[i].uid
      {
        AddedUids(cfg, s, a, s.pending, i);
      }
    }
    assert BatchIs(s, Schedule(cfg, s).1, |r.added|);
  }

  // ---- whole runs

  lemma {:induction false} LiveReady(cfg: Config, s: Sched, others: set<int>)
    requires LInv(cfg, s, s.pending, others) && Aside(s, others)
    ensures Ready(s, s.pending)
  {
    QueueApart(cfg, s, others);
    hide RInv, PendOk, RunningOk, DoneOk, Aside;
    forall i | 0 <= i < |s.pending| && !s.pending[i].chunk
      ensures s.pending[i].uid !in s.cache.held
    {
      assert s.pending[i].uid !in ChunkUids(s.pending);
    }
  }

  /** In every reachable state of the normal loop the next batch is exactly what there is room for. */
  lemma {:induction false} NextBatchExactly(cfg: Config, ins: seq<Input>, msgs: seq<Msg>)
    requires IsRun(cfg, ins) && AllFresh(cfg, StateAfter(cfg, ins), msgs)
    ensures var s := ProcessMsgs(cfg, StateAfter(cfg, ins), msgs);
            exists k :: RoomFor(cfg, s, k) && BatchIs(s, Schedule(cfg, s).1, k)
  {
    hide LInv, IsRun, StateAfter, AllFresh, ProcessMsgs, RoomFor, BatchIs, Schedule, Ready, Aside;
    Reachable(cfg, ins);
    MsgsKeep(cfg, StateAfter(cfg, ins), msgs);
    var s := ProcessMsgs(cfg, StateAfter(cfg, ins), msgs);
    assert Aside(s, {}) by {
      NoneAside(s);
    }
    LiveReady(cfg, s, {});
    BatchExactly(cfg, s);
  }

  lemma {:induction false} NoneAside(s: Sched)
    ensures Aside(s, {})
  {
  }

  lemma {:induction false} CaughtReady(s: Sched, lag: map<int, int>)
    requires Ready(Caught(s, lag), s.pending)
    ensures Ready(s, s.pending)
  {
    hide Later, DistinctUids;
    forall i | 0 <= i < |s.pending|
      ensures Get(Later(s.reqs, lag), s.pending[i].uid).cachedLen == Get(s.reqs, s.pending[i].uid).cachedLen
    {
      LaterGet(s.reqs, lag, s.pending[i].uid);
    }
  }

  /** The same in every state of the overlap loop that no late abort has touched. */
  lemma {:induction false} LoopBatchExactly(cfg: Config, ins: seq<Input>, i: Input)
    requires IsServed(cfg, ins + [i]) && Timely(cfg, ins)
    ensures var l := LoopAfter(cfg, ins);
            var s := ProcessMsgs(cfg, l.s.(inflight := LastUids(l.last)), i.msgs);
            exists k :: RoomFor(cfg, s, k) && BatchIs(s, Schedule(cfg, s).1, k)
  {
    hide OwnInv, Hearing, FInv, Ctrl, Timely, LoopAfter, Schedule, ProcessMsgs, OFresh, Uids, StagesOf, IsServed,
      DistinctEntries, LInv, Aside, Later, LagOf, Unqueued, Ready, RoomFor, BatchIs;
    var l := LoopAfter(cfg, ins);
    TickFits(cfg, ins, i);
    FlightShape(l.s, l.last);
    StagesShape(l.s, l.last);
    var s := StagesOf(cfg, l.s, l.last, i).heard;
    FitsFresh(cfg, l.s, l.last, i);
    HeardReady(cfg, l.s, l.last, i);
    HeardOf(cfg, l.s, l.last, i);
    var lag := LagOf(LastEntries(l.last), Tokens(l.last), s.deferred);
    HeardCaught(cfg, s, LastEntries(l.last), Tokens(l.last), IsPrefill(l.last));
    LiveReady(cfg, Caught(s, lag), Idle(Caught(s, lag)));
    CaughtReady(s, lag);
    BatchExactly(cfg, s);
  }
}
