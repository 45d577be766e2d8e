/** The cells stay right through every step of the scheduler: stored prefixes and the computed part of every row hold
what the tokens alone would give. The one step that needs more is a hand-over of a request that goes on. */
module KvSteps {
  import opened Paging
  import opened PrefixStore
  import opened CacheSpec
  import opened Requests
  import opened SchedSpec
  import opened SchedInv
  import opened SchedAdmit
  import opened SchedRound
  import opened SchedBatch
  import opened SchedForward
  import opened SchedPost
  import opened SchedRun
  import opened SchedIsolation
  import opened SchedMirror
  import opened KvCells
  import opened KvSlots

  ghost predicate EntryRight(kv: Kv, store: Store, p: seq<int>)
    requires p in store
  {
    Right(kv, store[p], p)
  }

  /** Every stored prefix lies on whole pages that hold its cells. */
  ghost predicate StoreRight(cfg: Config, kv: Kv, store: Store) {
    PagesWhole(cfg, store) && forall p {:trigger EntryRight(kv, store, p)} | p in store :: EntryRight(kv, store, p)
  }

  /** The row of `u` begins with the stored slots of its locked path, and its computed part holds its tokens' cells. */
  ghost predicate RowRight(s: Sched, kv: Kv, u: int) {
    var r := Get(s.reqs, u);
    Attached(s, u) && r.cachedLen <= |r.ids| && Right(kv, Upto(RowOf(s, u), r.cachedLen), r.ids[..r.cachedLen])
  }

  ghost predicate KvRight(cfg: Config, s: Sched, kv: Kv) {
    StoreRight(cfg, kv, s.cache.store) && forall u {:trigger RowRight(s, kv, u)} | u in s.cache.held ::
      RowRight(s, kv, u)
  }

  // ---- handing over

  /** Others stored more of the request's computed tokens than it has locked. */
  ghost predicate Overtaken(cfg: Config, s: Sched, u: int) {
    LongestMatch(s.cache.store, Pages(Computed(Get(s.reqs, u)), cfg.ps), cfg.ps) > |Locked(s.cache, u)|
  }

  lemma {:induction false} WholeTake(seg: seq<int>, k: nat, ps: Pos)
    requires Whole(seg, ps) && k <= |seg| && Aligned(k, ps)
    ensures Whole(seg[..k], ps)
  {
    hide Strided, Expand, Aligned, DivCeil;
    var a, b := seg[..k], seg[k..];
    assert seg == a + b;
    StridedConcat(a, b, ps);
    ExpandConcat(Strided(a, ps), Strided(b, ps), ps);
    ExpandLength(a, ps);
    assert seg == Expand(Strided(a, ps), ps) + Expand(Strided(b, ps), ps);
    assert seg[..k] == Expand(Strided(a, ps), ps);
  }

  lemma {:induction false} WholeJoin(a: seq<int>, b: seq<int>, ps: Pos)
    requires Whole(a, ps) && Whole(b, ps) && Aligned(|a|, ps)
    ensures Whole(a + b, ps)
  {
    hide Strided, Expand, Aligned;
    StridedConcat(a, b, ps);
    ExpandConcat(Strided(a, ps), Strided(b, ps), ps);
  }

  /** The slots an insertion stores hold the cells of the path, on whole pages. */
  lemma {:induction false} PathRight(cfg: Config, kv: Kv, store: Store, a: seq<int>, slots: seq<int>)
    requires StoreOk(store, cfg.ps) && StoreRight(cfg, kv, store) && |a| == |slots| && Aligned(|a|, cfg.ps)
    requires Right(kv, slots, a)
    requires var m := LongestMatch(store, a, cfg.ps); Whole(slots[m..], cfg.ps)
    ensures |PathSlots(store, a, slots, cfg.ps)| == |a|
    ensures Right(kv, PathSlots(store, a, slots, cfg.ps), a) && Whole(PathSlots(store, a, slots, cfg.ps), cfg.ps)
  {
    hide StoreOk, Right, Whole, Aligned, LongestMatch;
    InsertIsRun(store, a, slots, cfg.ps);
    var m := LongestMatch(store, a, cfg.ps);
    var first := SlotsOf(store, a[..m]);
    if m > 0 {
      assert EntryRight(kv, store, a[..m]) && StoredWhole(cfg, store, a[..m]);
    } else {
      NothingRight(kv, cfg.ps);
      assert a[..0] == [];
    }
    RightJoin(kv, first, slots, a, m);
    WholeJoin(first, slots[m..], cfg.ps);
    assert PathSlots(store, a, slots, cfg.ps) == first + slots[m..];
  }

  lemma {:induction false} NothingRight(kv: Kv, ps: Pos)
    ensures Right(kv, [], []) && Whole([], ps)
  {
    assert Strided([], ps) == [];
  }

  /** Inserting a path whose slots hold its cells. */
  lemma {:induction false} InsertRight(cfg: Config, kv: Kv, store: Store, a: seq<int>, slots: seq<int>)
    requires StoreOk(store, cfg.ps) && StoreRight(cfg, kv, store) && |a| == |slots| && Aligned(|a|, cfg.ps)
    requires Right(kv, slots, a)
    requires var m := LongestMatch(store, a, cfg.ps); Whole(slots[m..], cfg.ps)
    ensures StoreRight(cfg, kv, Inserted(store, a, slots, cfg.ps))
  {
    hide StoreOk, Right, Whole, Aligned, LongestMatch, PathSlots, Inserted, Run;
    PathRight(cfg, kv, store, a, slots);
    InsertIsRun(store, a, slots, cfg.ps);
    InsertRunOn(store, a, slots, cfg.ps);
    var all, m := PathSlots(store, a, slots, cfg.ps), LongestMatch(store, a, cfg.ps);
    var store' := Inserted(store, a, slots, cfg.ps);
    forall p | p in store'
      ensures StoredWhole(cfg, store', p) && EntryRight(kv, store', p)
    {
      RunAt(store, a, all, m, |a|, cfg.ps, p);
      if p in store {
        assert StoredWhole(cfg, store, p) && EntryRight(kv, store, p);
      } else {
        RightTake(kv, all, a, |p|);
        WholeTake(all, |p|, cfg.ps);
        assert a[..|p|] == p;
      }
    }
  }

  /** The whole pages of a row between two aligned ends within what it owns. */
  lemma {:induction false} WholeMiddle(row: seq<int>, lo: nat, m: nat, il: nat, up: nat, ps: Pos)
    requires lo <= m <= il <= up <= |row| && Aligned(lo, ps) && Aligned(m, ps) && Aligned(il, ps) && Aligned(up, ps)
    requires Whole(Slice(row, lo, up), ps)
    ensures Whole(row[..il][m..], ps)
  {
    hide Whole, Aligned;
    WholeTail(row, lo, m, up, ps);
    AlignedDiff(il, m, ps);
    WholeTake(Slice(row, m, up), il - m, ps);
    assert Slice(row, m, up)[..il - m] == row[..il][m..];
  }

  /** What a hand-over inserts: the whole pages of the computed tokens, in slots that hold their cells. */
  lemma {:induction false} HandsRight(cfg: Config, s: Sched, kv: Kv, u: int)
    requires RInv(cfg, s, {}, []) && SchedInv.Settled(s, {}, u) && RowRight(s, kv, u)
    ensures var r, a := Get(s.reqs, u), Pages(Computed(Get(s.reqs, u)), cfg.ps);
            var slots := Upto(RowOf(s, u), |a|);
            && |a| == |slots| && |a| <= r.cachedLen && Aligned(|a|, cfg.ps) && |a| == AlignDown(r.cachedLen, cfg.ps)
            && Right(kv, slots, a) && |Locked(s.cache, u)| <= LongestMatch(s.cache.store, a, cfg.ps)
            && Whole(slots[LongestMatch(s.cache.store, a, cfg.ps)..], cfg.ps)
  {
    hide Owned, Owners, CacheOk, Aligned, AlignUp, AlignDown, Whole, LongestMatch, Right, Shape;
    var r, row, hl := Get(s.reqs, u), RowOf(s, u), |Locked(s.cache, u)|;
    ReqFacts(cfg, s, {}, [], u);
    HandOverCall(cfg, s, {}, [], u, true);
    MatchCoversLock(s.cache, u, Computed(r), cfg.ps);
    var a, il := Pages(Computed(r), cfg.ps), AlignDown(r.cachedLen, cfg.ps);
    AlignBracket(r.cachedLen, cfg.ps);
    RightTake(kv, row[..r.cachedLen], r.ids[..r.cachedLen], il);
    assert row[..r.cachedLen][..il] == row[..il] && r.ids[..r.cachedLen][..il] == a;
    WholeMiddle(row, hl, LongestMatch(s.cache.store, a, cfg.ps), il, AlignUp(r.cachedLen, cfg.ps), cfg.ps);
  }

  lemma {:induction false} HandOverRight(cfg: Config, s: Sched, kv: Kv, u: int, finished: bool)
    requires RInv(cfg, s, {}, []) && SchedInv.Settled(s, {}, u)
    requires StoreRight(cfg, kv, s.cache.store) && RowRight(s, kv, u)
    ensures var c' := HandOver(s.cache, Get(s.reqs, u), s.table, finished, cfg.ps);
            && StoreRight(cfg, kv, c'.store)
            && (!finished && !Overtaken(cfg, s, u) ==>
                  Upto(RowOf(s, u), |Locked(c', u)|) == SlotsOf(c'.store, Locked(c', u)))
  {
    hide RInv, Right, Whole, Aligned, AlignDown, LongestMatch, StoreOk, Inserted, StoreRight, Strided, Slice, From;
    var r, row := Get(s.reqs, u), RowOf(s, u);
    var a := Pages(Computed(r), cfg.ps);
    var slots := Upto(row, |a|);
    HandOverCall(cfg, s, {}, [], u, finished);
    HandsRight(cfg, s, kv, u);
    InsertRight(cfg, kv, s.cache.store, a, slots);
    assert Upto(Upto(row, r.cachedLen), |a|) == slots;
    if !finished && !Overtaken(cfg, s, u) {
      LockedIn(cfg, s, u);
      NothingMissing(cfg, s, u, a);
    }
  }

  /** If the stored part is just the locked path, the inserted path is stored with the request's own slots. */
  lemma {:induction false} NothingMissing(cfg: Config, s: Sched, u: int, a: seq<int>)
    requires StoreOk(s.cache.store, cfg.ps) && Attached(s, u) && Locked(s.cache, u) <= a && Aligned(|a|, cfg.ps)
    requires |a| == |Upto(RowOf(s, u), |a|)| && LongestMatch(s.cache.store, a, cfg.ps) == |Locked(s.cache, u)|
    ensures SlotsOf(Inserted(s.cache.store, a, Upto(RowOf(s, u), |a|), cfg.ps), a) == Upto(RowOf(s, u), |a|)
  {
    hide StoreOk, Aligned, LongestMatch, RowOf, Inserted, Locked;
    var m, slots := |Locked(s.cache, u)|, Upto(RowOf(s, u), |a|);
    assert Locked(s.cache, u) == a[..m];
    assert slots[..m] == Upto(RowOf(s, u), m);
    StoredPath(cfg, s.cache.store, a, slots);
  }

  lemma {:induction false} LockedIn(cfg: Config, s: Sched, u: int)
    requires RInv(cfg, s, {}, []) && SchedInv.Settled(s, {}, u)
    ensures Locked(s.cache, u) <= Pages(Computed(Get(s.reqs, u)), cfg.ps) && StoreOk(s.cache.store, cfg.ps)
  {
    hide Owned, Owners, Aligned, AlignDown, StoreOk, Shape, ReqsInv;
    HandOverCall(cfg, s, {}, [], u, true);
    MatchCoversLock(s.cache, u, Computed(Get(s.reqs, u)), cfg.ps);
    var h, ids := Locked(s.cache, u), Computed(Get(s.reqs, u));
    PrefixesComparable(h, Pages(ids, cfg.ps), ids);
  }

  lemma {:induction false} StoredPath(cfg: Config, store: Store, a: seq<int>, slots: seq<int>)
    requires StoreOk(store, cfg.ps) && |a| == |slots| && Aligned(|a|, cfg.ps)
    requires var m := LongestMatch(store, a, cfg.ps); slots[..m] == SlotsOf(store, a[..m])
    ensures SlotsOf(Inserted(store, a, slots, cfg.ps), a) == slots
  {
    hide StoreOk, Aligned, LongestMatch, Inserted, Run;
    InsertIsRun(store, a, slots, cfg.ps);
    InsertRunOn(store, a, slots, cfg.ps);
    var m, all := LongestMatch(store, a, cfg.ps), PathSlots(store, a, slots, cfg.ps);
    assert all == slots[..m] + slots[m..] == slots;
    if a != [] {
      InsertedWhole(store, a, slots, cfg.ps);
      RunAt(store, a, all, m, |a|, cfg.ps, a);
      if a in store {
        StoredAll(store, a, cfg.ps);
        assert a[..|a|] == a && slots[..|a|] == slots;
      }
    }
  }

  lemma {:induction false} StoredAll(store: Store, a: seq<int>, ps: Pos)
    requires a in store && Aligned(|a|, ps)
    ensures LongestMatch(store, a, ps) == |a|
  {
    hide Aligned;
    assert a[..|a|] == a;
  }

  /** A request that a step leaves alone. */
  lemma {:induction false} RowSame(s: Sched, s': Sched, kv: Kv, v: int)
    requires RowRight(s, kv, v) && Get(s'.reqs, v) == Get(s.reqs, v) && RowOf(s', v) == RowOf(s, v)
    requires Locked(s'.cache, v) == Locked(s.cache, v)
    requires SlotsOf(s'.cache.store, Locked(s.cache, v)) == SlotsOf(s.cache.store, Locked(s.cache, v))
    ensures RowRight(s', kv, v)
  {
    hide Right;
  }

  lemma {:induction false} KvSame(cfg: Config, s: Sched, s': Sched, kv: Kv)
    requires KvRight(cfg, s, kv) && s'.reqs == s.reqs && s'.table == s.table && s'.cache == s.cache
    ensures KvRight(cfg, s', kv)
  {
    hide StoreRight, RowRight;
    forall u | u in s'.cache.held
      ensures RowRight(s', kv, u)
    {
      assert RowRight(s, kv, u);
      RowSame(s, s', kv, u);
    }
  }

  /** What is locked stays stored with its slots in a hand-over. */
  lemma {:induction false} HandOverOthers(cfg: Config, s: Sched, u: int, finished: bool, v: int)
    requires RInv(cfg, s, {}, []) && SchedInv.Settled(s, {}, u) && v in s.cache.held && v != u
    ensures var c' := HandOver(s.cache, Get(s.reqs, u), s.table, finished, cfg.ps);
            && v in c'.held && Locked(c', v) == Locked(s.cache, v)
            && SlotsOf(c'.store, Locked(s.cache, v)) == SlotsOf(s.cache.store, Locked(s.cache, v))
  {
    hide Owned, Owners, ReqsInv, Shape, StoreOk, CacheReqOp, HandOver, Pages;
    var r := Get(s.reqs, u);
    HandOverCall(cfg, s, {}, [], u, finished);
    CacheReqKeeps(s.cache, u, Computed(r), Upto(RowOf(s, u), r.cachedLen), finished, cfg.ps);
  }

  lemma {:induction false} ReleaseRight(cfg: Config, s: Sched, kv: Kv, u: int)
    requires RInv(cfg, s, {}, []) && SchedInv.Settled(s, {}, u) && KvRight(cfg, s, kv)
    ensures KvRight(cfg, Release(cfg, s, u), kv)
  {
    hide RInv, StoreRight, RowRight, HandOver, Locked;
    var s' := Release(cfg, s, u);
    assert RowRight(s, kv, u);
    HandOverRight(cfg, s, kv, u, true);
    HandOverState(cfg, s, {}, [], u, true);
    forall v | v in s'.cache.held
      ensures RowRight(s', kv, v)
    {
      assert RowRight(s, kv, v);
      HandOverOthers(cfg, s, u, true, v);
      RowSame(s, s', kv, v);
    }
  }

  /** A hand-over of a request that goes on and was not overtaken. */
  lemma {:induction false} KeepRight(cfg: Config, s: Sched, kv: Kv, u: int)
    requires RInv(cfg, s, {}, []) && SchedInv.Settled(s, {}, u) && KvRight(cfg, s, kv) && !Overtaken(cfg, s, u)
    ensures KvRight(cfg, KeepCached(cfg, s, u), kv)
  {
    hide RInv, StoreRight, HandOver, Overtaken, Locked, Right;
    var s' := KeepCached(cfg, s, u);
    assert RowRight(s, kv, u);
    HandOverRight(cfg, s, kv, u, false);
    HandOverState(cfg, s, {}, [], u, false);
    forall v | v in s'.cache.held
      ensures RowRight(s', kv, v)
    {
      if v != u {
        assert RowRight(s, kv, v);
        HandOverOthers(cfg, s, u, false, v);
        RowSame(s, s', kv, v);
      }
    }
  }

  // ---- messages

  /** An abort outside an overlap window. */
  lemma {:induction false} AbortRight(cfg: Config, s: Sched, u: int, busy: set<int>, kv: Kv)
    requires LInv(cfg, s, s.pending, busy) && u !in busy && KvRight(cfg, s, kv)
    ensures KvRight(cfg, ProcessMsg(cfg, s, AbortMsg(u)), kv)
  {
    hide RInv, QueueOk, RunningOk, HeadOk, ChunkUids, DropPending, FindPending, Release, KvRight, DoneOk;
    var s1 := s.(pending := DropPending(s.pending, u));
    var s2 := s1.(running := s.running - {u});
    AbortDrop(cfg, s, u, busy);
    KvSame(cfg, s, s1, kv);
    KvSame(cfg, s, s2, kv);
    var s' := ProcessMsg(cfg, s, AbortMsg(u));
    if u in ChunkUids(s.pending) {
      ReleaseRight(cfg, s1, kv, u);
      KvSame(cfg, Release(cfg, s1, u), s', kv);
    } else if u in s.running {
      ReleaseRight(cfg, s2, kv, u);
      KvSame(cfg, Release(cfg, s2, u), s', kv);
    } else {
      KvSame(cfg, s1, s', kv);
    }
  }

  // ---- admission

  /** The next chunk of a queued prompt. */
  lemma {:induction false} ChunkRight(cfg: Config, s: Sched, a: Adder, queue: seq<Pending>, busy: set<int>, kv: Kv)
    requires LInv(cfg, s, queue, busy) && queue != [] && queue[0].chunk && TryAddOne(cfg, s, a, queue[0]).Some?
    requires KvRight(cfg, s, kv)
    ensures KvRight(cfg, TryAddOne(cfg, s, a, queue[0]).value.0, kv)
  {
    hide RInv, RunningOk, DoneOk, WriteRow, QueueOk, StoreRight, Right, Locked;
    var p := queue[0];
    var (s', a', q) := TryAddOne(cfg, s, a, p).value;
    assert p in queue;
    forall v | v in s'.cache.held
      ensures RowRight(s', kv, v)
    {
      assert RowRight(s, kv, v);
      if v != p.uid {
        RowSame(s, s', kv, v);
      } else {
        assert q.ids[..q.cachedLen] == Get(s.reqs, v).ids[..q.cachedLen];
      }
    }
  }

  /** A new request reads its matched prefix through the slots stored for it. */
  lemma {:induction false} NewRight(cfg: Config, s: Sched, s': Sched, p: Pending, n: nat, q: Req, kv: Kv)
    requires RInv(cfg, s, {}, []) && NewAdmit(cfg, s, s', p, n, q) && p.uid !in s.cache.held && KvRight(cfg, s, kv)
    ensures KvRight(cfg, s', kv)
  {
    hide RInv, StoreRight, RowRight, LongestMatch, NewAdmit;
    NewRow(cfg, s, s', p, n, q, kv);
    NewCache(cfg, s, s', p, n, q);
    forall v | v in s'.cache.held
      ensures RowRight(s', kv, v)
    {
      if v != p.uid {
        assert RowRight(s, kv, v);
        NewSame(cfg, s, s', p, n, q, v);
        RowSame(s, s', kv, v);
      }
    }
  }

  lemma {:induction false} NewCache(cfg: Config, s: Sched, s': Sched, p: Pending, n: nat, q: Req)
    requires NewAdmit(cfg, s, s', p, n, q)
    ensures s'.cache.store == s.cache.store && s'.cache.held.Keys == s.cache.held.Keys + {p.uid}
  {
    hide LongestMatch, WriteRow;
  }

  lemma {:induction false} NewRow(cfg: Config, s: Sched, s': Sched, p: Pending, n: nat, q: Req, kv: Kv)
    requires RInv(cfg, s, {}, []) && NewAdmit(cfg, s, s', p, n, q) && StoreRight(cfg, kv, s.cache.store)
    ensures RowRight(s', kv, p.uid)
  {
    hide Owned, ReqsInv, LongestMatch, Right, Aligned, StoreOk, WriteRow, AlignUp;
    var row, slots := s.rows[|s.rows| - 1], SlotsOf(s.cache.store, p.ids[..n]);
    FreeRowRange(cfg, s, {}, [], row);
    MatchedPath(s.cache.store, p.ids, n, cfg.ps);
    if n == 0 {
      NothingRight(kv, cfg.ps);
      assert p.ids[..0] == [] && q.ids[..0] == [];
    } else {
      assert EntryRight(kv, s.cache.store, p.ids[..n]);
      StoredSize(s.cache.store, p.ids[..n], cfg.ps);
      WriteRowFacts(s.table, row, 0, slots, cfg.numRows + 1, cfg.width);
      LengthFits(cfg, n);
      assert s'.table[row][0..n] == slots && s'.table[row][..n] == slots;
      assert q.ids[..n] == p.ids[..n];
    }
  }

  lemma {:induction false} LengthFits(cfg: Config, n: nat)
    requires CfgOk(cfg) && n < cfg.maxSeqLen
    ensures n <= cfg.width
  {
    AlignBracket(cfg.maxSeqLen, cfg.ps);
  }

  lemma {:induction false} StoredSize(store: Store, p: seq<int>, ps: Pos)
    requires StoreOk(store, ps) && p in store
    ensures |store[p]| == |p| > 0
  {
  }

  lemma {:induction false} StepRight(cfg: Config, s: Sched, a: Adder, queue: seq<Pending>, busy: set<int>, kv: Kv)
    requires LInv(cfg, s, queue, busy) && Apart(queue, busy) && queue != [] && TryAddOne(cfg, s, a, queue[0]).Some?
    requires KvRight(cfg, s, kv)
    ensures KvRight(cfg, TryAddOne(cfg, s, a, queue[0]).value.0, kv)
  {
    hide RInv, QueueOk, RunningOk, DoneOk, HeadOk, Apart, TryAddOne, AddedFrom, NewAdmit, KvRight;
    if queue[0].chunk {
      ChunkRight(cfg, s, a, queue, busy, kv);
    } else {
      NewStep(cfg, s, a, queue, busy);
      StepUid(cfg, s, a, queue[0]);
      var (s', a', q) := TryAddOne(cfg, s, a, queue[0]).value;
      NewRight(cfg, s, s', queue[0], q.cachedLen, q, kv);
    }
  }

  lemma {:induction false} RoundRight(cfg: Config, s: Sched, a: Adder, queue: seq<Pending>, busy: set<int>, kv: Kv)
    requires LInv(cfg, s, queue, busy) && Apart(queue, busy) && a.budget >= 0 && KvRight(cfg, s, kv)
    ensures KvRight(cfg, AddAll(cfg, s, a, queue).s, kv)
    decreases |queue|
  {
    hide LInv, Apart, TryAddOne, AddedFrom, Gave, KvRight;
    if queue != [] && TryAddOne(cfg, s, a, queue[0]).Some? {
      var (s1, a1, q) := TryAddOne(cfg, s, a, queue[0]).value;
      StepKeeps(cfg, s, a, queue, busy);
      StepRight(cfg, s, a, queue, busy, kv);
      RoundRight(cfg, s1, a1, queue[1..], busy + {q.uid}, kv);
    }
  }

  lemma {:induction false} ScheduleRight(cfg: Config, s: Sched, others: set<int>, kv: Kv)
    requires LInv(cfg, s, s.pending, others) && Aside(s, others) && KvRight(cfg, s, kv)
    ensures KvRight(cfg, Schedule(cfg, s).0, kv)
  {
    hide LInv, AddAll, InflightTokens, NextQueue, RoundOk, KvRight, Sorted, Apart;
    var a := Adder(cfg.budget, InflightTokens(cfg, s));
    QueueApart(cfg, s, others);
    PrefillLive(cfg, s, others);
    RoundRight(cfg, s, a, s.pending, others, kv);
    var r := AddAll(cfg, s, a, s.pending);
    if r.added != [] {
      KvSame(cfg, r.s, Schedule(cfg, s).0, kv);
    }
  }

  // ---- preparing a batch

  /** Pages are written behind what is computed, and into the rows of the batch only. */
  lemma {:induction false} AssignPrefix(cfg: Config, reqs: map<int, Req>, table: Table, es: seq<Entry>, pages: seq<int>,
                                        row: int, n: nat)
    requires forall i {:trigger es[i]} | 0 <= i < |es| && Get(reqs, es[i].uid).row == row ::
               n <= Get(reqs, es[i].uid).cachedLen
    ensures Upto(RowAt(AssignPages(cfg, reqs, table, es, pages), row), n) == Upto(RowAt(table, row), n)
    decreases |es|
  {
    hide PagesNeeded, Expand, AlignUp;
    if es != [] {
      var r := Get(reqs, es[0].uid);
      var k := PagesNeeded(r, cfg.ps);
      if k <= |pages| {
        var slots := Expand(pages[..k], cfg.ps);
        var at := AlignUp(r.cachedLen, cfg.ps);
        AlignBracket(r.cachedLen, cfg.ps);
        WritePrefix(table, r.row, at, slots, row, n);
        assert forall i | 0 <= i < |es[1..]| :: es[1..][i] == es[i + 1];
        AssignPrefix(cfg, reqs, WriteRow(table, r.row, at, slots), es[1..], pages[k..], row, n);
      }
    }
  }

  lemma {:induction false} WritePrefix(t: Table, row: int, at: nat, vals: seq<int>, other: int, n: nat)
    requires other == row ==> n <= at
    ensures Upto(RowAt(WriteRow(t, row, at, vals), other), n) == Upto(RowAt(t, other), n)
  {
    if 0 <= row < |t| && at + |vals| <= |t[row]| && other == row {
      var a, b := t[row], WriteRow(t, row, at, vals)[row];
      assert b[..n] == a[..n];
    }
  }

  /** What an eviction leaves is as right as before. */
  lemma {:induction false} EvictRight(cfg: Config, kv: Kv, c: Cache, need: nat, ev: Eviction)
    requires StoreRight(cfg, kv, c.store) && LegalEviction(c, need, ev, cfg.ps)
    ensures StoreRight(cfg, kv, ev.store)
  {
    hide Right, Whole, Strided, StorePages, StoreOk;
    forall p | p in ev.store
      ensures StoredWhole(cfg, ev.store, p) && EntryRight(kv, ev.store, p)
    {
      assert StoredWhole(cfg, c.store, p) && EntryRight(kv, c.store, p);
    }
  }

  lemma {:induction false} RowKept(cfg: Config, s: Sched, s': Sched, kv: Kv, v: int)
    requires RowRight(s, kv, v) && Get(s'.reqs, v) == Get(s.reqs, v) && |Locked(s.cache, v)| <= Get(s.reqs, v).cachedLen
    requires Upto(RowOf(s', v), Get(s.reqs, v).cachedLen) == Upto(RowOf(s, v), Get(s.reqs, v).cachedLen)
    requires Get(s.reqs, v).cachedLen <= |RowOf(s, v)| == |RowOf(s', v)|
    requires Locked(s'.cache, v) == Locked(s.cache, v)
    requires SlotsOf(s'.cache.store, Locked(s.cache, v)) == SlotsOf(s.cache.store, Locked(s.cache, v))
    ensures RowRight(s', kv, v)
  {
    hide Right, Locked, RowOf;
    var n, hl := Get(s.reqs, v).cachedLen, |Locked(s.cache, v)|;
    assert Upto(RowOf(s', v), hl) == Upto(RowOf(s', v), n)[..hl];
    assert Upto(RowOf(s, v), hl) == Upto(RowOf(s, v), n)[..hl];
  }

  /** The rows of a batch are those of its requests. */
  lemma {:induction false} RowPrefix(cfg: Config, s: Sched, es: seq<Entry>, table: Table, pages: seq<int>, v: int)
    requires RInv(cfg, s, {}, []) && Uids(es) <= s.cache.held.Keys && v in s.cache.held
    ensures var r := Get(s.reqs, v);
            Upto(RowAt(AssignPages(cfg, s.reqs, table, es, pages), r.row), r.cachedLen) == Upto(RowAt(table, r.row),
              r.cachedLen)
  {
    hide RInv, Uids, AssignPages;
    forall i | 0 <= i < |es| && Get(s.reqs, es[i].uid).row == Get(s.reqs, v).row
      ensures es[i].uid == v
    {
      InUids(es, i);
      if es[i].uid != v {
        RowsApart(cfg, s, {}, [], es[i].uid, v);
      }
    }
    AssignPrefix(cfg, s.reqs, table, es, pages, Get(s.reqs, v).row, Get(s.reqs, v).cachedLen);
  }

  lemma {:induction false} PrepareRight(cfg: Config, s: Sched, b: Batch, ev: Eviction, others: set<int>, kv: Kv)
    requires RInv(cfg, s, {}, []) && Planned(cfg, s, b, others) && CanPrepare(cfg, s, b, ev) && KvRight(cfg, s, kv)
    ensures KvRight(cfg, Prepare(cfg, s, b, ev), kv)
  {
    hide RInv, Planned, PagesFor, LegalEviction, StoreRight, RowRight, AssignPages, Allocated, Uids, SlotsOf, RowOf,
      Locked;
    var s', need := Prepare(cfg, s, b, ev), PagesFor(cfg, s.reqs, b.entries);
    PrepareKeeps(cfg, s, b, ev, others);
    PlannedEntries(cfg, s, b, others);
    if need > 0 {
      EvictRight(cfg, kv, s.cache, need, ev);
      forall v | v in s'.cache.held
        ensures RowRight(s', kv, v)
      {
        assert RowRight(s, kv, v);
        PreparedRow(cfg, s, b, ev, others, v);
        RowKept(cfg, s, s', kv, v);
      }
    }
  }

  lemma {:induction false} PreparedRow(cfg: Config, s: Sched, b: Batch, ev: Eviction, others: set<int>, v: int)
    requires RInv(cfg, s, {}, []) && Planned(cfg, s, b, others) && CanPrepare(cfg, s, b, ev) && v in s.cache.held
    requires PagesFor(cfg, s.reqs, b.entries) > 0
    ensures var s', n := Prepare(cfg, s, b, ev), Get(s.reqs, v).cachedLen;
            && Upto(RowOf(s', v), n) == Upto(RowOf(s, v), n)
              && |Locked(s.cache, v)| <= n <= |RowOf(s, v)| == |RowOf(s', v)|
            && Locked(s'.cache, v) == Locked(s.cache, v)
            && SlotsOf(s'.cache.store, Locked(s.cache, v)) == SlotsOf(s.cache.store, Locked(s.cache, v))
  {
    hide Owned, ReqsInv, Shape, Planned, PagesFor, LegalEviction, AssignPages, Allocated, Uids, StoreOk, AlignUp;
    PrepareKeeps(cfg, s, b, ev, others);
    PlannedEntries(cfg, s, b, others);
    var s', need := Prepare(cfg, s, b, ev), PagesFor(cfg, s.reqs, b.entries);
    AllocKeeps(s.cache, need, ev, cfg.ps);
    ReqFacts(cfg, s, {}, [], v);
    ReqFacts(cfg, s', Uids(b.entries), [], v);
    RowPrefix(cfg, s, b.entries, s.table, Allocated(s.cache, need, ev, cfg.ps), v);
  }

  // ---- computing the batch

  /** How far the row of `u` is computed while the requests of `done` have run. */
  ghost function Reach(s: Sched, done: set<int>, u: int): nat {
    if u in done then Get(s.reqs, u).deviceLen else Get(s.reqs, u).cachedLen
  }

  /** The row of `u` while the batch runs: what is computed so far holds the cells of its tokens. */
  ghost predicate RunsRight(s: Sched, done: set<int>, kv: Kv, u: int) {
    var n, ids := Reach(s, done, u), Get(s.reqs, u).ids;
    Attached(s, u) && n <= |ids| && Right(kv, Upto(RowOf(s, u), n), ids[..n])
  }

  ghost predicate KvRuns(cfg: Config, s: Sched, done: set<int>, kv: Kv) {
    && StoreRight(cfg, kv, s.cache.store)
    && forall u {:trigger RunsRight(s, done, kv, u)} | u in s.cache.held :: RunsRight(s, done, kv, u)
  }

  lemma {:induction false} StoreComputed(cfg: Config, s: Sched, prep: set<int>, u: int, kv: Kv, kv': Kv)
    requires RInv(cfg, s, prep, []) && u in s.cache.held && u in prep && StoreRight(cfg, kv, s.cache.store)
    requires forall x | x !in WriteSlots(s, u) :: CellAt(kv', x) == CellAt(kv, x)
    ensures StoreRight(cfg, kv', s.cache.store)
  {
    hide RInv, Right, CellAt, WriteSlots;
    forall p | p in s.cache.store
      ensures EntryRight(kv', s.cache.store, p)
    {
      assert EntryRight(kv, s.cache.store, p);
      forall x | x in s.cache.store[p]
        ensures CellAt(kv', x) == CellAt(kv, x)
      {
        WritesUnstored(cfg, s, prep, u, p, x);
      }
      RightSame(kv, kv', s.cache.store[p], p);
    }
  }

  lemma {:induction false} OtherComputed(cfg: Config, s: Sched, prep: set<int>, done: set<int>, u: int, v: int, kv: Kv,
                                         kv': Kv)
    requires RInv(cfg, s, prep, []) && u in s.cache.held && u in prep && v in s.cache.held && v != u && done <= prep
    requires PagesWhole(cfg, s.cache.store) && RunsRight(s, done, kv, v)
    requires forall x | x !in WriteSlots(s, u) :: CellAt(kv', x) == CellAt(kv, x)
    ensures RunsRight(s, done + {u}, kv', v)
  {
    hide RInv, Right, CellAt, WriteSlots, Attached, RowOf;
    ReqFacts(cfg, s, prep, [], v);
    var n, row := Reach(s, done, v), RowOf(s, v);
    forall x | x in Upto(row, n)
      ensures CellAt(kv', x) == CellAt(kv, x)
    {
      var j :| 0 <= j < |Upto(row, n)| && Upto(row, n)[j] == x;
      WritesMiss(cfg, s, prep, u, v, j);
    }
    RightSame(kv, kv', Upto(row, n), Get(s.reqs, v).ids[..n]);
  }

  /** Running one request of the batch. */
  lemma {:induction false} OneComputed(cfg: Config, s: Sched, prep: set<int>, done: set<int>, u: int, kv: Kv)
    requires RInv(cfg, s, prep, []) && u in s.cache.held && u in prep && u !in done && PagesWhole(cfg, s.cache.store)
    requires RunsRight(s, done, kv, u) && Mirror(s, u) && |Get(s.reqs, u).ids| == Get(s.reqs, u).deviceLen
    ensures var r := Get(s.reqs, u);
            RunsRight(s, done + {u}, ComputeRow(kv, RowOf(s, u), PoolRow(s, u), r.cachedLen, r.deviceLen), u)
  {
    hide RInv, Right, Attached, RowOf, PoolRow, ComputeRow, AlignUp;
    ReqFacts(cfg, s, prep, [], u);
    var r, row, tokens := Get(s.reqs, u), RowOf(s, u), PoolRow(s, u);
    forall i, j | 0 <= i < j < r.deviceLen && r.cachedLen <= j
      ensures row[i] != row[j]
    {
      if i < r.cachedLen {
        WritesMiss(cfg, s, prep, u, u, i);
        WrittenThere(s, u, j);
      } else {
        WritesDistinct(cfg, s, prep, u, i, j);
      }
    }
    assert tokens[..r.deviceLen] == r.ids && tokens[..r.cachedLen] == r.ids[..r.cachedLen];
    ComputeRight(kv, row, tokens, r.cachedLen, r.deviceLen);
    assert r.ids[..r.deviceLen] == r.ids;
  }

  lemma {:induction false} WrittenThere(s: Sched, u: int, j: nat)
    requires Get(s.reqs, u).cachedLen <= j < Get(s.reqs, u).deviceLen <= |RowOf(s, u)|
    ensures RowOf(s, u)[j] in WriteSlots(s, u)
  {
    assert WriteSlots(s, u)[j - Get(s.reqs, u).cachedLen] == RowOf(s, u)[j];
  }

  lemma {:induction false} RequestComputed(cfg: Config, s: Sched, prep: set<int>, done: set<int>, u: int, kv: Kv)
    requires RInv(cfg, s, prep, []) && u in s.cache.held && u in prep && u !in done && done <= prep
    requires KvRuns(cfg, s, done, kv) && Mirror(s, u) && |Get(s.reqs, u).ids| == Get(s.reqs, u).deviceLen
    ensures var r := Get(s.reqs, u);
            KvRuns(cfg, s, done + {u}, ComputeRow(kv, RowOf(s, u), PoolRow(s, u), r.cachedLen, r.deviceLen))
  {
    hide RInv, RunsRight, RowOf, PoolRow, ComputeRow, CellAt, WriteSlots, Mirror;
    var r := Get(s.reqs, u);
    var kv' := ComputeRow(kv, RowOf(s, u), PoolRow(s, u), r.cachedLen, r.deviceLen);
    forall x | x !in WriteSlots(s, u)
      ensures CellAt(kv', x) == CellAt(kv, x)
    {
      RowFrame(cfg, s, prep, u, kv, x);
    }
    StoreComputed(cfg, s, prep, u, kv, kv');
    forall v | v in s.cache.held
      ensures RunsRight(s, done + {u}, kv', v)
    {
      assert RunsRight(s, done, kv, v);
      if v == u {
        OneComputed(cfg, s, prep, done, u, kv);
      } else {
        OtherComputed(cfg, s, prep, done, u, v, kv, kv');
      }
    }
  }

  lemma {:induction false} RowFrame(cfg: Config, s: Sched, prep: set<int>, u: int, kv: Kv, x: int)
    requires RInv(cfg, s, prep, []) && u in s.cache.held && u in prep && x !in WriteSlots(s, u)
    ensures var r := Get(s.reqs, u);
            CellAt(ComputeRow(kv, RowOf(s, u), PoolRow(s, u), r.cachedLen, r.deviceLen), x) == CellAt(kv, x)
  {
    hide RInv, RowOf, PoolRow, WriteSlots, AlignUp;
    ReqFacts(cfg, s, prep, [], u);
    var r := Get(s.reqs, u);
    forall j | r.cachedLen <= j < r.deviceLen && j < |RowOf(s, u)|
      ensures RowOf(s, u)[j] != x
    {
      WrittenThere(s, u, j);
    }
    ComputeFrame(kv, RowOf(s, u), PoolRow(s, u), r.cachedLen, r.deviceLen, x);
  }

  lemma {:induction false} BatchComputed(cfg: Config, s: Sched, prep: set<int>, done: set<int>, es: seq<Entry>, kv: Kv)
    requires RInv(cfg, s, prep, []) && Uids(es) <= prep && Uids(es) <= s.cache.held.Keys && DistinctEntries(es)
    requires Uids(es) !! done && done <= prep && KvRuns(cfg, s, done, kv)
    requires forall i {:trigger es[i]} | 0 <= i < |es| :: EntryOk(cfg, s, es[i]) && Mirror(s, es[i].uid)
    ensures KvRuns(cfg, s, done + Uids(es), ComputeBatch(kv, s, es))
    decreases |es|
  {
    hide RInv, KvRuns, RowOf, PoolRow, ComputeRow, Mirror, Uids, DistinctEntries;
    if es == [] {
      NoUids();
      assert done + {} == done;
    } else {
      var u := es[0].uid;
      var r := Get(s.reqs, u);
      UidsSplit(es);
      DistinctRest(es);
      assert EntryOk(cfg, s, es[0]) && Mirror(s, u);
      RequestComputed(cfg, s, prep, done, u, kv);
      assert forall i | 0 <= i < |es[1..]| :: es[1..][i] == es[i + 1];
      BatchComputed(cfg, s, prep, done + {u}, es[1..],
                    ComputeRow(kv, RowOf(s, u), PoolRow(s, u), r.cachedLen, r.deviceLen));
      assert done + {u} + Uids(es[1..]) == done + Uids(es);
    }
  }

  /** While a prepared batch runs, every request of it reads the cells of its tokens, its own new ones included. */
  lemma {:induction false} BatchRight(cfg: Config, s: Sched, b: Batch, others: set<int>, kv: Kv)
    requires RInv(cfg, s, Uids(b.entries), []) && Planned(cfg, s, b, others) && KvRight(cfg, s, kv)
    requires Mirrors(s, Live(s) - others)
    ensures KvRuns(cfg, s, Uids(b.entries), ComputeBatch(kv, s, b.entries))
  {
    hide RInv, Planned, StoreRight, Right, Attached, RowOf, Mirror, Uids, DistinctEntries, EntryOk, ComputeBatch;
    var es := b.entries;
    PlannedEntries(cfg, s, b, others);
    PlannedApart(cfg, s, b, others);
    forall u | u in s.cache.held
      ensures RunsRight(s, {}, kv, u)
    {
      assert RowRight(s, kv, u);
    }
    forall i | 0 <= i < |es|
      ensures EntryOk(cfg, s, es[i]) && Mirror(s, es[i].uid)
    {
      InUids(es, i);
      PlannedEntry(cfg, s, b, others, i);
    }
    BatchComputed(cfg, s, Uids(es), {}, es, kv);
    assert {} + Uids(es) == Uids(es);
  }

  lemma {:induction false} PlannedEntry(cfg: Config, s: Sched, b: Batch, others: set<int>, i: nat)
    requires Planned(cfg, s, b, others) && i < |b.entries|
    ensures EntryOk(cfg, s, b.entries[i])
  {
    hide QueueOk, RunningOk, ChunkUids, HeadReady, ChunksQueued, DoneOk, Uids, EntryOk;
  }

  /** What attention reads for `u` in a prepared batch: the cells of its tokens on the device, all of them. */
  ghost predicate Attends(s: Sched, kv: Kv, u: int) {
    var n := Get(s.reqs, u).deviceLen;
    n <= |RowOf(s, u)| && n <= |PoolRow(s, u)| && Right(kv, RowOf(s, u)[..n], PoolRow(s, u)[..n])
  }

  lemma {:induction false} RunsAttend(cfg: Config, s: Sched, b: Batch, others: set<int>, kv: Kv, k: nat)
    requires RInv(cfg, s, Uids(b.entries), []) && Planned(cfg, s, b, others) && KvRuns(cfg, s, Uids(b.entries), kv)
    requires Mirrors(s, Live(s) - others) && k < |b.entries|
    ensures Attends(s, kv, b.entries[k].uid)
  {
    hide RInv, Planned, Right, Uids, Attached, RowOf, PoolRow, AlignUp;
    var u := b.entries[k].uid;
    InUids(b.entries, k);
    PlannedEntries(cfg, s, b, others);
    PlannedApart(cfg, s, b, others);
    PlannedEntry(cfg, s, b, others, k);
    ReqFacts(cfg, s, Uids(b.entries), [], u);
    assert RunsRight(s, Uids(b.entries), kv, u) && Mirror(s, u);
    var n, ids := Get(s.reqs, u).deviceLen, Get(s.reqs, u).ids;
    assert ids[..n] == ids == PoolRow(s, u)[..n];
  }

  ghost predicate AllAttend(s: Sched, es: seq<Entry>, kv: Kv) {
    forall k {:trigger es[k]} | 0 <= k < |es| :: Attends(s, kv, es[k].uid)
  }

  /** The forward pass keeps the cells right. */
  lemma {:induction false} ForwardRight(cfg: Config, s: Sched, b: Batch, tokens: seq<int>, others: set<int>, kv: Kv)
    requires RInv(cfg, s, Uids(b.entries), []) && Planned(cfg, s, b, others) && KvRight(cfg, s, kv)
    requires Mirrors(s, Live(s) - others) && |tokens| == |b.entries|
    ensures KvRight(cfg, Forward(cfg, s, b, tokens), ComputeBatch(kv, s, b.entries))
  {
    hide RInv, Planned, StoreRight, Right, Uids, DistinctEntries, ComputeBatch, Commit, Mirrors, RowAt;
    BatchRight(cfg, s, b, others, kv);
    PlannedEntries(cfg, s, b, others);
    CommitAdvances(cfg, s, b.entries, tokens);
    var s', kv' := Forward(cfg, s, b, tokens), ComputeBatch(kv, s, b.entries);
    forall u | u in s'.cache.held
      ensures RowRight(s', kv', u)
    {
      assert RunsRight(s, Uids(b.entries), kv', u);
    }
  }

  /** What a launch computes. */
  ghost function KvLaunch(cfg: Config, s: Sched, i: Input, kv: Kv): Kv {
    var (s1, b) := Schedule(cfg, s);
    if b.None? then kv else ComputeBatch(kv, Prepare(cfg, s1, b.value, i.ev), b.value.entries)
  }

  lemma {:induction false} LaunchRight(cfg: Config, t: Sched, i: Input, others: set<int>, kv: Kv)
    requires LInv(cfg, t, t.pending, others) && Aside(t, others) && KvRight(cfg, t, kv)
    requires var (t1, b) := Schedule(cfg, t); b.Some? ==> CanPrepare(cfg, t1, b.value, i.ev)
    requires Mirrors(t, Live(t) - others)
    ensures KvRight(cfg, Launch(cfg, t, i).0, KvLaunch(cfg, t, i, kv))
    ensures var (t1, b) := Schedule(cfg, t);
            b.Some? ==> AllAttend(Prepare(cfg, t1, b.value, i.ev), b.value.entries, KvLaunch(cfg, t, i, kv))
  {
    hide LInv, Aside, Schedule, Prepare, Forward, CanPrepare, Planned, RInv, KvRight, Mirrors, ComputeBatch, Uids,
      KvRuns, Attends, Live;
    ScheduleLive(cfg, t, others);
    ScheduleRight(cfg, t, others, kv);
    var (t1, b) := Schedule(cfg, t);
    if b.Some? {
      ScheduleMirrors(cfg, t, others);
      PrepareKeeps(cfg, t1, b.value, i.ev, others);
      var t2 := Prepare(cfg, t1, b.value, i.ev);
      PlannedPrepared(cfg, t1, t2, b.value, others);
      PrepareMirrors(cfg, t1, b.value, i.ev, others);
      PrepareRight(cfg, t1, b.value, i.ev, others, kv);
      BatchRight(cfg, t2, b.value, others, kv);
      forall k | 0 <= k < |b.value.entries|
        ensures Attends(t2, KvLaunch(cfg, t, i, kv), b.value.entries[k].uid)
      {
        RunsAttend(cfg, t2, b.value, others, KvLaunch(cfg, t, i, kv), k);
      }
      ForwardRight(cfg, t2, b.value, TokensFor(b.value, i.tokens), others, kv);
    }
  }
}
