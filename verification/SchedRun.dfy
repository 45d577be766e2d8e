/** Runs of the normal loop: the invariant holds in every reachable state, so every page and every row always has
exactly one owner, and the idle check of the cache manager never fails. */
module SchedRun {
  import opened Paging
  import opened Sums
  import opened PrefixStore
  import opened CacheSpec
  import opened Requests
  import opened SchedSpec
  import opened SchedInv
  import opened SchedAdmit
  import opened SchedBatch
  import opened SchedForward
  import opened SchedPost

  // ---- one tick

  ghost predicate AllFresh(cfg: Config, s: Sched, msgs: seq<Msg>)
    decreases |msgs|
  {
    msgs != [] ==> Fresh(s, msgs[0]) && AllFresh(cfg, ProcessMsg(cfg, s, msgs[0]), msgs[1..])
  }

  /** What a tick takes from outside: fresh messages, and for its batch an eviction the cache can perform. */
  ghost predicate Admissible(cfg: Config, s: Sched, i: Input) {
    && AllFresh(cfg, s, i.msgs)
    && var (s1, b) := Schedule(cfg, ProcessMsgs(cfg, s, i.msgs));
       b.Some? ==> CanPrepare(cfg, s1, b.value, i.ev)
  }

  lemma {:induction false} MsgsKeep(cfg: Config, s: Sched, msgs: seq<Msg>)
    requires NInv(cfg, s) && AllFresh(cfg, s, msgs)
    ensures NInv(cfg, ProcessMsgs(cfg, s, msgs))
    decreases |msgs|
  {
    hide NInv, Fresh, ProcessMsg;
    if msgs != [] {
      MsgKeeps(cfg, s, msgs[0]);
      MsgsKeep(cfg, ProcessMsg(cfg, s, msgs[0]), msgs[1..]);
    }
  }

  lemma {:induction false} PlannedPrepared(cfg: Config, s: Sched, s': Sched, b: Batch, others: set<int> := {})
    requires Planned(cfg, s, b, others)
    requires s' == s.(cache := s'.cache, table := s'.table) && s'.cache.held == s.cache.held
    ensures Planned(cfg, s', b, others)
  {
    hide PendOk, DistinctUids, ChunkUids;
    EntriesFrame(cfg, s, s', b.entries);
    forall u | u in s'.running && u !in Uids(b.entries)
      ensures RunOk(cfg, s', u)
    {
      RunMoved(cfg, s, s', u);
    }
  }

  /** Preparing and running a planned batch, with the requests of `others` standing by. */
  lemma {:induction false} BatchLive(cfg: Config, s: Sched, b: Batch, ev: Eviction, tokens: seq<int>, others: set<int>)
    requires RInv(cfg, s, {}, []) && Planned(cfg, s, b, others) && CanPrepare(cfg, s, b, ev)
    requires |tokens| == |b.entries|
    ensures var s' := Forward(cfg, Prepare(cfg, s, b, ev), b, tokens);
            LInv(cfg, s', s'.pending, Waiting(b.entries) + others) && WaitsOk(cfg, s', b.entries)
  {
    hide RInv, Planned, CanPrepare, LInv, WaitsOk, Forward, Prepare, Waiting;
    PrepareKeeps(cfg, s, b, ev, others);
    var s1 := Prepare(cfg, s, b, ev);
    PlannedPrepared(cfg, s, s1, b, others);
    ForwardKeeps(cfg, s1, b, tokens, others);
  }

  lemma {:induction false} BatchRuns(cfg: Config, s: Sched, b: Batch, ev: Eviction, tokens: seq<int>)
    requires RInv(cfg, s, {}, []) && Planned(cfg, s, b) && CanPrepare(cfg, s, b, ev) && |tokens| == |b.entries|
    ensures var s' := Forward(cfg, Prepare(cfg, s, b, ev), b, tokens);
            LInv(cfg, s', s'.pending, Waiting(b.entries)) && WaitsOk(cfg, s', b.entries)
  {
    hide RInv, Planned, CanPrepare, LInv, WaitsOk, Forward, Prepare, Waiting;
    BatchLive(cfg, s, b, ev, tokens, {});
    assert Waiting(b.entries) + {} == Waiting(b.entries);
  }

  lemma {:induction false} AcksSent(cfg: Config, s: Sched)
    requires NInv(cfg, s)
    ensures NInv(cfg, s.(acks := []))
  {
    hide RInv, QueueOk, RunningOk, HeadOk, ChunkUids;
    var s' := s.(acks := []);
    RInvSameOf(cfg, s, s');
    LiveSame(cfg, s, s', {}, {});
  }

  /** A whole tick of the normal loop keeps the invariant. */
  lemma {:induction false} TickKeeps(cfg: Config, s: Sched, i: Input)
    requires NInv(cfg, s) && Admissible(cfg, s, i)
    ensures NInv(cfg, NormalTick(cfg, s, i).0)
  {
    hide NInv, AllFresh, ProcessMsgs, Schedule, CanPrepare, Forward, Prepare, RInv, Planned, LInv, WaitsOk, ProcessLast;
    var s0 := ProcessMsgs(cfg, s, i.msgs);
    MsgsKeep(cfg, s, i.msgs);
    var (s1, b) := Schedule(cfg, s0);
    ScheduleKeeps(cfg, s0);
    if b.None? {
      AcksSent(cfg, s0);
    } else {
      var tokens := TokensFor(b.value, i.tokens);
      BatchRuns(cfg, s1, b.value, i.ev, tokens);
      var s2 := Forward(cfg, Prepare(cfg, s1, b.value, i.ev), b.value, tokens);
      ProcessKeeps(cfg, s2, b.value, tokens);
      AcksSent(cfg, ProcessLast(cfg, s2, b.value, tokens).0);
    }
  }

  // ---- whole runs

  ghost function StateAfter(cfg: Config, ins: seq<Input>): Sched
    decreases |ins|
  {
    if ins == [] then InitState(cfg) else NormalTick(cfg, StateAfter(cfg, ins[..|ins| - 1]), ins[|ins| - 1]).0
  }

  ghost predicate IsRun(cfg: Config, ins: seq<Input>)
    decreases |ins|
  {
    CfgOk(cfg) && (ins != [] ==>
      IsRun(cfg, ins[..|ins| - 1]) && Admissible(cfg, StateAfter(cfg, ins[..|ins| - 1]), ins[|ins| - 1]))
  }

  lemma {:induction false} InitOwned(cfg: Config)
    ensures Owned(cfg, InitState(cfg).cache, InitState(cfg).rows, [], map[])
  {
    hide Range, Strided;
    var s := InitState(cfg);
    forall k
      ensures PagesOwned(cfg, s.cache, [], map[], k) && RowsOwned(cfg, s.rows, map[], k)
    {
      assert PageShares(map[], cfg.ps, k) == map[] && RowShares(map[], k) == map[];
      assert PageHits(map[], cfg.ps, k) == map[];
      CountNone(k);
    }
  }

  lemma {:induction false} InitKeeps(cfg: Config)
    requires CfgOk(cfg)
    ensures NInv(cfg, InitState(cfg))
  {
    hide Owned, Range, AlignUp, PendOk;
    var s := InitState(cfg);
    InitOwned(cfg);
    assert Owners(cfg, s, {}) == map[];
  }

  /** Every reachable state of the normal loop satisfies the invariant. */
  lemma {:induction false} Reachable(cfg: Config, ins: seq<Input>)
    requires IsRun(cfg, ins)
    ensures NInv(cfg, StateAfter(cfg, ins))
    decreases |ins|
  {
    hide NInv, NormalTick, Admissible, CfgOk, InitState;
    if ins == [] {
      InitKeeps(cfg);
    } else {
      Reachable(cfg, ins[..|ins| - 1]);
      TickKeeps(cfg, StateAfter(cfg, ins[..|ins| - 1]), ins[|ins| - 1]);
    }
  }

  // ---- what that means for pages and rows

  /** How many requests own the page that starts at slot `x`, or the row `x`. */
  ghost function PageOwners(cfg: Config, s: Sched, x: int): nat {
    Total(PageShares(Owners(cfg, s, {}), cfg.ps, One(x)))
  }

  ghost function RowOwners(cfg: Config, s: Sched, x: int): nat {
    Total(RowShares(Owners(cfg, s, {}), One(x)))
  }

  lemma {:induction false} RangeHas(from: nat, n: nat, step: Pos, i: nat)
    requires i < n
    ensures Count(Range(from, n, step), One(from + i * step)) == 1
    decreases n
  {
    RangeOnce(from, n, step, from + i * step);
    RangeIn(from, n, step, i);
    CountIn(Range(from, n, step), from + i * step);
  }

  lemma {:induction false} RangeIn(from: nat, n: nat, step: Pos, i: nat)
    requires i < n
    ensures from + i * step in Range(from, n, step)
    decreases n
  {
    if i == 0 {
      assert 0 * step == 0;
    } else {
      RangeIn(from + step, n - 1, step, i - 1);
      assert from + step + (i - 1) * step == from + i * step;
    }
  }

  /** Page `i` is in exactly one place - once in the free list, the last page of one stored prefix, or in the owned part
  of one request's row - and row `i` is free once or held by one request. */
  ghost predicate OneEach(cfg: Config, s: Sched, i: nat) {
    && (i < cfg.numPages ==>
          Count(s.cache.free, One(i * cfg.ps)) + StorePages(s.cache.store, cfg.ps, One(i * cfg.ps))
          + PageOwners(cfg, s, i * cfg.ps) == 1)
    && (i < cfg.numRows ==> Count(s.rows, One(i)) + RowOwners(cfg, s, i) == 1)
  }

  lemma {:induction false} OneEachOf(cfg: Config, s: Sched, i: nat)
    requires RInv(cfg, s, {}, [])
    ensures OneEach(cfg, s, i)
  {
    hide RInv, Count, StorePages, Range, PageOwners, RowOwners;
    OwnedHere(cfg, s, i * cfg.ps, i);
    if i < cfg.numPages {
      RangeHas(0, cfg.numPages, cfg.ps, i);
    }
    if i < cfg.numRows {
      RangeHas(0, cfg.numRows, 1, i);
    }
  }

  /** Page conservation: in every reachable state every page and every row has exactly one owner. */
  lemma {:induction false} OneOwner(cfg: Config, ins: seq<Input>, i: nat)
    requires IsRun(cfg, ins)
    ensures OneEach(cfg, StateAfter(cfg, ins), i)
  {
    hide RInv, IsRun, StateAfter, QueueOk, HeadOk, RunningOk, DoneOk, OneEach;
    Reachable(cfg, ins);
    OneEachOf(cfg, StateAfter(cfg, ins), i);
  }

  lemma {:induction false} OwnedHere(cfg: Config, s: Sched, x: int, row: int)
    requires RInv(cfg, s, {}, [])
    ensures Count(s.cache.free, One(x)) + StorePages(s.cache.store, cfg.ps, One(x)) + PageOwners(cfg, s, x)
         == Count(Range(0, cfg.numPages, cfg.ps), One(x))
    ensures Count(s.rows, One(row)) + RowOwners(cfg, s, row) == Count(Range(0, cfg.numRows, 1), One(row))
  {
    hide CacheOk, Shape, ReqsInv, Count, StorePages, Range, Owners;
    assert PagesOwned(cfg, s.cache, [], Owners(cfg, s, {}), One(x));
    assert RowsOwned(cfg, s.rows, Owners(cfg, s, {}), One(row));
    CountNone(One(x));
  }

  lemma {:induction false} FreeAligned(cfg: Config, s: Sched, x: int)
    requires RInv(cfg, s, {}, []) && x in s.cache.free
    ensures x >= 0 && x % cfg.ps == 0
  {
    hide RInv, Count, StorePages, Range, PageOwners, RowOwners;
    OwnedHere(cfg, s, x, 0);
    CountIn(s.cache.free, x);
    RangeOnce(0, cfg.numPages, cfg.ps, x);
    AlignedIsMod(x, cfg.ps);
  }

  /** Nothing but page starts of the pool is ever free. */
  lemma {:induction false} FreePagesAligned(cfg: Config, ins: seq<Input>, x: int)
    requires IsRun(cfg, ins) && x in StateAfter(cfg, ins).cache.free
    ensures x >= 0 && x % cfg.ps == 0
  {
    hide LInv, IsRun, StateAfter;
    Reachable(cfg, ins);
    RInvOf(cfg, StateAfter(cfg, ins), {});
    FreeAligned(cfg, StateAfter(cfg, ins), x);
  }

  /** The idle check: with no request queued or running, free and cached pages together are all pages. */
  lemma {:induction false} IdleIntegrity(cfg: Config, ins: seq<Input>)
    requires IsRun(cfg, ins) && StateAfter(cfg, ins).pending == [] && StateAfter(cfg, ins).running == {}
    ensures var s := StateAfter(cfg, ins);
            && |s.cache.free| + |s.cache.store.Keys| == cfg.numPages && s.cache.held == map[]
            && |s.rows| == cfg.numRows
  {
    hide IsRun, StateAfter;
    Reachable(cfg, ins);
    IdleTotals(cfg, StateAfter(cfg, ins));
  }

  lemma {:induction false} IdleTotals(cfg: Config, s: Sched)
    requires NInv(cfg, s) && s.pending == [] && s.running == {}
    ensures |s.cache.free| + |s.cache.store.Keys| == cfg.numPages && s.cache.held == map[] && |s.rows| == cfg.numRows
  {
    hide QueueOk, HeadOk, RunningOk, DoneOk, StoreOk, Shape, ReqsInv, Count, StorePages, Range;
    assert ChunkUids([]) == {};
    assert s.cache.held.Keys == {};
    assert Owners(cfg, s, {}) == map[];
    assert PageShares(map[], cfg.ps, All) == map[] && RowShares(map[], All) == map[];
    assert PagesOwned(cfg, s.cache, [], Owners(cfg, s, {}), All);
    assert RowsOwned(cfg, s.rows, Owners(cfg, s, {}), All);
    CountNone(All);
    CountAll(s.cache.free);
    CountAll(s.rows);
    CountAll(Range(0, cfg.numPages, cfg.ps));
    CountAll(Range(0, cfg.numRows, 1));
    StoreCounts(s.cache.store, cfg.ps);
  }
}
