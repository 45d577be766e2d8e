/** Runs of the overlap loop: every page and every row has exactly one owner in all their states exactly when no abort
hits a request that is finished and still in flight. */
module OverlapPages {
  import opened Paging
  import opened Sums
  import opened PrefixStore
  import opened CacheSpec
  import opened Requests
  import opened SchedSpec
  import opened SchedInv
  import opened SchedAdmit
  import opened SchedRound
  import opened SchedForward
  import opened SchedPost
  import opened SchedRun
  import opened Overlap
  import opened OverlapRun
  import opened OverlapOwn

  // ---- runs

  /** A run of the overlap loop whose inputs fit: fresh messages, and for each batch an eviction the cache can perform.
  */
  ghost predicate IsServed(cfg: Config, ins: seq<Input>)
    decreases |ins|
  {
    CfgOk(cfg) && (ins != [] ==>
      var l := LoopAfter(cfg, ins[..|ins| - 1]);
      IsServed(cfg, ins[..|ins| - 1]) && Fits(cfg, l.s, l.last, ins[|ins| - 1]))
  }

  ghost predicate Fits(cfg: Config, s: Sched, last: Option<Flight>, i: Input) {
    OFresh(cfg, s, last, i.msgs) && CanLaunch(cfg, ProcessMsgs(cfg, s.(inflight := LastUids(last)), i.msgs), i)
  }

  lemma {:induction false} ServedLoop(cfg: Config, ins: seq<Input>)
    requires IsServed(cfg, ins)
    ensures IsLoop(cfg, ins)
    decreases |ins|
  {
    hide LoopAfter, OFresh, CanLaunch;
    if ins != [] {
      ServedLoop(cfg, ins[..|ins| - 1]);
    }
  }

  lemma {:induction false} InitOwn(cfg: Config)
    requires CfgOk(cfg)
    ensures OwnInv(cfg, InitState(cfg), None)
  {
    hide RInv, CfgOk, Range;
    var s := InitState(cfg);
    InitKeeps(cfg);
    NoWaiting();
    assert {} * s.cache.held.Keys == {};
  }

  lemma {:induction false} TickOwn(cfg: Config, s: Sched, last: Option<Flight>, i: Input)
    requires FInv(s, last) && OwnInv(cfg, s, last) && Fits(cfg, s, last, i) && !LateAbort(s, last, i.msgs)
    ensures var (s', f, replies) := OverlapTick(cfg, s, last, i); OwnInv(cfg, s', f)
  {
    hide FInv, OwnInv, CanLaunch, OFresh, LateAbort, OverlapTick, ProcessMsgs, Uids;
    StagesShape(s, last);
    HeardOf(cfg, s, last, i);
    OwnKeeps(cfg, s, last, i);
  }

  /** In every reachable state the requests that hold rows and pages are the running ones, the queued chunk and those
  that wait for their last token. */
  lemma {:induction false} LoopOwns(cfg: Config, ins: seq<Input>)
    requires IsServed(cfg, ins) && Timely(cfg, ins)
    ensures OwnInv(cfg, LoopAfter(cfg, ins).s, LoopAfter(cfg, ins).last)
    decreases |ins|
  {
    hide FInv, OwnInv, OverlapTick, Fits, LateAbort, InitState, CfgOk;
    if ins == [] {
      InitOwn(cfg);
    } else {
      var was := ins[..|ins| - 1];
      var l := LoopAfter(cfg, was);
      LoopOwns(cfg, was);
      ServedLoop(cfg, was);
      LoopControl(cfg, was);
      TickOwn(cfg, l.s, l.last, ins[|ins| - 1]);
    }
  }

  lemma {:induction false} OwnRes(cfg: Config, s: Sched, last: Option<Flight>)
    requires OwnInv(cfg, s, last)
    ensures RInv(cfg, s, {}, [])
  {
    hide RInv, AllFlying, QueueOk, HeadOk, RunningOk, DoneOk;
  }

  lemma {:induction false} ServedStep(cfg: Config, ins: seq<Input>, i: Input)
    ensures IsServed(cfg, ins + [i]) <==>
              IsServed(cfg, ins) && Fits(cfg, LoopAfter(cfg, ins).s, LoopAfter(cfg, ins).last, i)
  {
    hide Fits, LoopAfter;
    var all := ins + [i];
    assert all[..|all| - 1] == ins && all[|all| - 1] == i;
  }

  /** What one more tick of a run may rely on. */
  lemma {:induction false} TickFits(cfg: Config, ins: seq<Input>, i: Input)
    requires IsServed(cfg, ins + [i]) && Timely(cfg, ins)
    ensures IsServed(cfg, ins)
    ensures var l := LoopAfter(cfg, ins);
            && FInv(l.s, l.last) && OwnInv(cfg, l.s, l.last) && Fits(cfg, l.s, l.last, i)
            && StagesOf(cfg, l.s, l.last, i).heard
               == ProcessMsgs(cfg, l.s.(inflight := LastUids(l.last)), i.msgs)
  {
    hide FInv, OwnInv, LoopAfter, Fits, Timely, StagesOf;
    var l := LoopAfter(cfg, ins);
    ServedStep(cfg, ins, i);
    ServedLoop(cfg, ins);
    LoopControl(cfg, ins);
    LoopOwns(cfg, ins);
    StagesShape(l.s, l.last);
    HeardOf(cfg, l.s, l.last, i);
  }

  lemma {:induction false} FitsFresh(cfg: Config, s: Sched, last: Option<Flight>, i: Input)
    requires Fits(cfg, s, last, i)
    ensures OFresh(cfg, s, last, i.msgs)
  {
    hide OFresh, CanLaunch;
  }

  lemma {:induction false} FlightShape(s: Sched, last: Option<Flight>)
    requires FInv(s, last)
    ensures DistinctEntries(LastEntries(last)) && |Tokens(last)| == |LastEntries(last)|
    ensures LastUids(last) <= s.reqs.Keys && DistinctUids(s.pending)
  {
    hide DistinctEntries, DistinctUids, Uids;
  }

  // ---- a late abort

  /** How often row `x` is free or held. */
  ghost function RowUses(cfg: Config, s: Sched, x: int): nat {
    Count(s.rows, One(x)) + RowOwners(cfg, s, x)
  }

  lemma {:induction false} UsesFrame(cfg: Config, s: Sched, s': Sched, x: int)
    requires s'.rows == s.rows && s'.cache.held.Keys == s.cache.held.Keys && s'.reqs == s.reqs
    ensures RowUses(cfg, s', x) == RowUses(cfg, s, x)
  {
    hide Segment, Total;
    TotalSame(RowShares(Owners(cfg, s, {}), One(x)), RowShares(Owners(cfg, s', {}), One(x)));
  }

  lemma {:induction false} HandOverHeld(c: Cache, r: Req, table: Table, ps: Pos)
    ensures var c' := HandOver(c, r, table, true, ps); c'.held == c.held || c'.held == c.held - {r.uid}
  {
    hide LongestMatch, Inserted, Strided;
  }

  lemma {:induction false} ReleaseHeld(cfg: Config, s: Sched, u: int)
    requires Get(s.reqs, u).uid == u
    ensures var s' := Release(cfg, s, u);
            && s'.rows == s.rows + [Get(s.reqs, u).row] && s'.reqs == s.reqs && s'.deferred == s.deferred
            && (s'.cache.held == s.cache.held || s'.cache.held == s.cache.held - {u})
  {
    hide HandOver;
    HandOverHeld(s.cache, Get(s.reqs, u), s.table, cfg.ps);
  }

  /** A release never makes a row less used, and one of a request that holds nothing makes its row more used. */
  lemma {:induction false} ReleaseUses(cfg: Config, s: Sched, u: int, x: int)
    requires Get(s.reqs, u).uid == u
    ensures var n, n' := RowUses(cfg, s, x), RowUses(cfg, Release(cfg, s, u), x);
            n' >= n && (u !in s.cache.held ==> n' == n + Hit(One(x), Get(s.reqs, u).row))
  {
    hide Segment, Total, Release, Count, Hit;
    ReleaseHeld(cfg, s, u);
    var s', row := Release(cfg, s, u), Get(s.reqs, u).row;
    CountConcat(s.rows, [row], One(x));
    CountOne(row, One(x));
    var m, m' := RowShares(Owners(cfg, s, {}), One(x)), RowShares(Owners(cfg, s', {}), One(x));
    if u in s.cache.held && s'.cache.held == s.cache.held - {u} {
      TotalDrop(m, m', u);
    } else {
      assert s'.cache.held.Keys == s.cache.held.Keys;
      TotalSame(m, m');
    }
  }

  /** One deferred release and its acknowledgement. */
  ghost function Acked(cfg: Config, s: Sched, u: int): Sched {
    var s1 := Release(cfg, s, u);
    s1.(acks := s1.acks + [u])
  }

  lemma {:induction false} AckedUses(cfg: Config, s: Sched, u: int, x: int)
    requires Get(s.reqs, u).uid == u
    ensures var n, n' := RowUses(cfg, s, x), RowUses(cfg, Acked(cfg, s, u), x);
            n' >= n && (u !in s.cache.held ==> n' == n + Hit(One(x), Get(s.reqs, u).row))
    ensures var s' := Acked(cfg, s, u);
            s'.reqs == s.reqs && s'.deferred == s.deferred && s'.cache.held.Keys <= s.cache.held.Keys
  {
    hide Release, RowUses, Hit;
    ReleaseHeld(cfg, s, u);
    ReleaseUses(cfg, s, u, x);
    UsesFrame(cfg, Release(cfg, s, u), Acked(cfg, s, u), x);
  }

  lemma {:induction false} ApplyUses(cfg: Config, s: Sched, es: seq<Entry>, done: set<int>, x: int)
    requires forall u | u in s.deferred :: Get(s.reqs, u).uid == u
    ensures RowUses(cfg, ApplyEntries(cfg, s, es, done), x) >= RowUses(cfg, s, x)
    decreases |es|
  {
    hide Release, RowUses;
    if es != [] {
      var u := es[0].uid;
      if u in s.deferred && u !in done {
        AckedUses(cfg, s, u, x);
        ApplyUses(cfg, Acked(cfg, s, u), es[1..], done + {u}, x);
      } else {
        ApplyUses(cfg, s, es[1..], done, x);
      }
    }
  }

  /** A deferred request that holds nothing has its row released once more. */
  lemma {:induction false} ApplyLate(cfg: Config, s: Sched, es: seq<Entry>, done: set<int>, u: int)
    requires u in Uids(es) && u in s.deferred && u !in done && u !in s.cache.held
    requires forall v | v in s.deferred :: Get(s.reqs, v).uid == v
    ensures var x := Get(s.reqs, u).row; RowUses(cfg, ApplyEntries(cfg, s, es, done), x) > RowUses(cfg, s, x)
    decreases |es|
  {
    hide Release, RowUses, Uids;
    NoUids();
    UidsSplit(es);
    var v, x := es[0].uid, Get(s.reqs, u).row;
    if v in s.deferred && v !in done {
      var s1 := Acked(cfg, s, v);
      AckedUses(cfg, s, v, x);
      if v == u {
        ApplyUses(cfg, s1, es[1..], done + {v}, x);
      } else {
        ApplyLate(cfg, s1, es[1..], done + {v}, u);
      }
    } else {
      ApplyLate(cfg, s, es[1..], done, u);
    }
  }

  lemma {:induction false} LateState(cfg: Config, s: Sched, done: set<int>, f: Option<Flight>, u: int)
    requires Settling(cfg, s, done, f) && u in s.deferred && u in s.finished
    ensures RInv(cfg, Outside(s), {}, []) && u !in s.cache.held && 0 <= Get(s.reqs, u).row < cfg.numRows
    ensures forall v | v in s.deferred :: Get(s.reqs, v).uid == v
  {
    forall v | v in s.deferred
      ensures Get(s.reqs, v).uid == v
    {
      DeferredKnown(cfg, s, done, f, v);
    }
    hide RInv, QueueOk, HeadOk, RunningOk, AllLanding, Waiting, ChunkUids;
    assert u !in s.cache.held;
  }

  lemma {:induction false} DeferredKnown(cfg: Config, s: Sched, done: set<int>, f: Option<Flight>, v: int)
    requires Settling(cfg, s, done, f) && v in s.deferred
    ensures Placed(cfg, s, v)
  {
    hide LInv, AllLanding, Waiting, Idle, Away;
    if v in s.cache.held {
      HeldPlaced(cfg, Outside(s), Away(Outside(s), LastEntries(f)), v);
    }
  }

  /** A tick with a late abort leaves a row used twice. */
  lemma {:induction false} LateBreaks(cfg: Config, s: Sched, last: Option<Flight>, i: Input) returns (x: nat)
    requires FInv(s, last) && OwnInv(cfg, s, last) && Fits(cfg, s, last, i) && LateAbort(s, last, i.msgs)
    ensures !OneEach(cfg, OverlapTick(cfg, s, last, i).0, x)
  {
    hide OwnInv, CanLaunch, OFresh, OverlapTick, ProcessMsgs, Uids, StagesOf, StagesOk, Settling, Ctrl, Aborts,
      PlainIdle, DistinctEntries, ApplyEntries, RowUses, Count;
    var u :| u in Aborts(i.msgs) && u in s.finished && u in LastUids(last);
    StagesShape(s, last);
    var g := StagesOf(cfg, s, last, i);
    HeardOf(cfg, s, last, i);
    TickStages(cfg, s, last, i);
    TickIs(cfg, s, last, i);
    TickProcessed(cfg, s, last, i);
    HeardDeferred(s, last, i, g);
    LateState(cfg, g.post.s, g.post.finished, g.flight, u);
    x := Get(g.post.s.reqs, u).row;
    var s3 := g.post.s.(finished := g.post.finished);
    StagesApply(cfg, s, last, i);
    ApplyLate(cfg, s3, LastEntries(last), {}, u);
    OneEachOf(cfg, Outside(g.post.s), x);
    UsesFrame(cfg, Outside(g.post.s), s3, x);
    UsesFrame(cfg, g.applied, OverlapTick(cfg, s, last, i).0, x);
    UsesAre(cfg, Outside(g.post.s), x);
    UsesAre(cfg, OverlapTick(cfg, s, last, i).0, x);
  }

  lemma {:induction false} UsesAre(cfg: Config, s: Sched, x: nat)
    ensures OneEach(cfg, s, x) && x < cfg.numRows ==> RowUses(cfg, s, x) == 1
  {
    hide Count, RowOwners, PageOwners;
  }

  // ---- both ways

  ghost predicate AllOnce(cfg: Config, s: Sched) {
    forall x: nat {:trigger OneEach(cfg, s, x)} :: OneEach(cfg, s, x)
  }

  /** Page conservation over the overlap loop: in every state of a run every page and every row has exactly one owner,
  if and only if no abort of the run came too late. */
  lemma {:induction false} OwnedExactly(cfg: Config, ins: seq<Input>)
    requires IsServed(cfg, ins)
    ensures (forall k {:trigger ins[..k]} | 0 <= k <= |ins| :: AllOnce(cfg, LoopAfter(cfg, ins[..k]).s))
            <==> Timely(cfg, ins)
    decreases |ins|
  {
    hide AllOnce, OneEach, LoopAfter;
    if Timely(cfg, ins) {
      forall k | 0 <= k <= |ins|
        ensures AllOnce(cfg, LoopAfter(cfg, ins[..k]).s)
      {
        Prefix(cfg, ins, k);
        OwnedNow(cfg, ins[..k]);
      }
    } else {
      var k := BrokenAt(cfg, ins);
      assert !AllOnce(cfg, LoopAfter(cfg, ins[..k]).s);
    }
  }

  lemma {:induction false} Prefix(cfg: Config, ins: seq<Input>, k: nat)
    requires IsServed(cfg, ins) && Timely(cfg, ins) && k <= |ins|
    ensures IsServed(cfg, ins[..k]) && Timely(cfg, ins[..k])
    decreases |ins|
  {
    hide LoopAfter, Fits, LateAbort;
    if k == |ins| {
      assert ins[..k] == ins;
    } else {
      Prefix(cfg, ins[..|ins| - 1], k);
      assert ins[..|ins| - 1][..k] == ins[..k];
    }
  }

  lemma {:induction false} OwnedNow(cfg: Config, ins: seq<Input>)
    requires IsServed(cfg, ins) && Timely(cfg, ins)
    ensures AllOnce(cfg, LoopAfter(cfg, ins).s)
  {
    hide IsServed, Timely, LoopAfter, RInv, OwnInv, OneEach;
    LoopOwns(cfg, ins);
    OwnRes(cfg, LoopAfter(cfg, ins).s, LoopAfter(cfg, ins).last);
    forall x: nat
      ensures OneEach(cfg, LoopAfter(cfg, ins).s, x)
    {
      OneEachOf(cfg, LoopAfter(cfg, ins).s, x);
    }
  }

  /** After the first late abort some page or row has not exactly one owner. */
  lemma {:induction false} BrokenAt(cfg: Config, ins: seq<Input>) returns (k: nat)
    requires IsServed(cfg, ins) && !Timely(cfg, ins)
    ensures k <= |ins| && !AllOnce(cfg, LoopAfter(cfg, ins[..k]).s)
    decreases |ins|
  {
    hide OverlapTick, Fits, LateAbort, FInv, OwnInv, OneEach;
    var was, i := ins[..|ins| - 1], ins[|ins| - 1];
    if Timely(cfg, was) {
      var l := LoopAfter(cfg, was);
      LoopOwns(cfg, was);
      ServedLoop(cfg, was);
      LoopControl(cfg, was);
      var x := LateBreaks(cfg, l.s, l.last, i);
      k := |ins|;
      assert ins[..k] == ins;
      assert !OneEach(cfg, LoopAfter(cfg, ins).s, x);
    } else {
      k := BrokenAt(cfg, was);
      assert was[..k] == ins[..k];
    }
  }

  /** Nothing but page starts of the pool is ever free in the overlap loop either. */
  lemma {:induction false} LoopFreeAligned(cfg: Config, ins: seq<Input>, x: int)
    requires IsServed(cfg, ins) && Timely(cfg, ins) && x in LoopAfter(cfg, ins).s.cache.free
    ensures x >= 0 && x % cfg.ps == 0
  {
    hide IsServed, Timely, LoopAfter, RInv, OwnInv;
    LoopOwns(cfg, ins);
    OwnRes(cfg, LoopAfter(cfg, ins).s, LoopAfter(cfg, ins).last);
    FreeAligned(cfg, LoopAfter(cfg, ins).s, x);
  }

  /** The idle check of the overlap loop: with nothing queued, running or in flight, free and cached pages together are
  all pages. */
  lemma {:induction false} LoopIdleIntegrity(cfg: Config, ins: seq<Input>)
    requires IsServed(cfg, ins) && Timely(cfg, ins)
    requires var l := LoopAfter(cfg, ins); l.last.None? && l.s.pending == [] && l.s.running == {}
    ensures var s := LoopAfter(cfg, ins).s;
            && |s.cache.free| + |s.cache.store.Keys| == cfg.numPages && s.cache.held == map[]
            && |s.rows| == cfg.numRows
  {
    hide IsServed, Timely, LoopAfter, LInv;
    LoopOwns(cfg, ins);
    var s := LoopAfter(cfg, ins).s;
    NoWaiting();
    assert {} * s.cache.held.Keys == {};
    IdleTotals(cfg, s);
  }
}
