/** Who may write a slot: what a batch writes is on no page of the prefix tree and in nobody else's row, so that
whatever was computed before stays as it is. */
module KvSlots {
  import opened Paging
  import opened Sums
  import opened PrefixStore
  import opened CacheSpec
  import opened Requests
  import opened SchedSpec
  import opened SchedInv
  import opened SchedIsolation

  // ---- stored slots

  /** Stored prefixes lie on whole pages. */
  ghost predicate StoredWhole(cfg: Config, store: Store, p: seq<int>)
    requires p in store
  {
    Whole(store[p], cfg.ps)
  }

  ghost predicate PagesWhole(cfg: Config, store: Store) {
    forall p {:trigger StoredWhole(cfg, store, p)} | p in store :: StoredWhole(cfg, store, p)
  }

  /** Where a page start stands in a list of whole pages. */
  lemma {:induction false} StridedAt(s: seq<int>, ps: Pos, y: int) returns (k: nat)
    requires Aligned(|s|, ps) && y in Strided(s, ps)
    ensures Aligned(k, ps) && k + ps <= |s| && s[k] == y
    decreases |s|
  {
    AlignedAtLeastPage(|s|, ps);
    if y == s[0] {
      k := 0;
    } else {
      StepAligned(|s|, ps);
      k := StridedAt(s[ps..], ps, y);
      StepAligned(k, ps);
      assert s[ps..][k] == s[k + ps];
      k := k + ps;
    }
  }

  /** Every page start of a stored prefix is the last page of some stored prefix. */
  lemma {:induction false} PageStored(cfg: Config, store: Store, p: seq<int>, y: int)
    requires StoreOk(store, cfg.ps) && p in store && y in Strided(store[p], cfg.ps)
    ensures StorePages(store, cfg.ps, One(y)) >= 1
  {
    hide Strided, Aligned, StorePages;
    var k := StridedAt(store[p], cfg.ps, y);
    StepAligned(k, cfg.ps);
    var n := k + cfg.ps;
    if n == |p| {
      assert p[..n] == p && store[p][..n] == store[p];
    } else {
      assert PrefixKept(store, p, n);
    }
    LastHit(cfg, store, p[..n], y, k);
  }

  lemma {:induction false} LastHit(cfg: Config, store: Store, p: seq<int>, y: int, k: nat)
    requires p in store && |p| == |store[p]| == k + cfg.ps && store[p][k] == y
    ensures StorePages(store, cfg.ps, One(y)) >= 1
  {
    TotalPick(PageHits(store, cfg.ps, One(y)), p);
  }

  lemma {:induction false} StoredAligned(cfg: Config, s: Sched, prep: set<int>, y: int)
    requires RInv(cfg, s, prep, []) && StorePages(s.cache.store, cfg.ps, One(y)) >= 1
    ensures y >= 0 && Aligned(y, cfg.ps)
  {
    hide Shapes, ReqsInv, RowsOwned, Range, Count, StorePages, Owners, PageShares, Aligned;
    assert PagesOwned(cfg, s.cache, [], Owners(cfg, s, prep), One(y));
    RangeOnce(0, cfg.numPages, cfg.ps, y);
    ZeroAligned(cfg.ps);
  }

  lemma {:induction false} PageOf(x: int, y: int, ps: Pos)
    requires 0 <= y <= x < y + ps && Aligned(y, ps)
    ensures AlignDown(x, ps) == y
  {
    hide Aligned, AlignDown;
    AlignedApart(y, AlignDown(x, ps), ps);
    AlignedApart(AlignDown(x, ps), y, ps);
  }

  /** The page of a stored slot counts as stored. */
  lemma {:induction false} SlotStored(cfg: Config, s: Sched, prep: set<int>, p: seq<int>, x: int)
    requires RInv(cfg, s, prep, []) && p in s.cache.store && StoredWhole(cfg, s.cache.store, p) && x in s.cache.store[p]
    ensures x >= 0 && StorePages(s.cache.store, cfg.ps, One(AlignDown(x, cfg.ps))) >= 1
  {
    hide Owned, ReqsInv, Shape, StorePages, Strided, Expand, Aligned, AlignDown, StoreOk;
    var y := ExpandIn(Strided(s.cache.store[p], cfg.ps), cfg.ps, x);
    PageStored(cfg, s.cache.store, p, y);
    StoredAligned(cfg, s, prep, y);
    PageOf(x, y, cfg.ps);
  }

  // ---- owned slots

  /** A request owns a slot at most once, and then its page is neither free nor stored. */
  lemma {:induction false} OwnOnce(cfg: Config, s: Sched, prep: set<int>, u: int, x: int)
    requires RInv(cfg, s, prep, []) && u in s.cache.held && x in Segment(cfg, s, prep, u)
    ensures x >= 0 && Count(Segment(cfg, s, prep, u), One(x)) == 1
    ensures StorePages(s.cache.store, cfg.ps, One(AlignDown(x, cfg.ps))) == 0
    ensures AlignDown(x, cfg.ps) !in s.cache.free
  {
    hide RInv, Count, AlignDown, OwnersOf, StorePages, Segment;
    SlotsNatural(cfg, s, prep, u, x);
    var page := AlignDown(x, cfg.ps);
    OwnersKeys(cfg, s, prep, page);
    SlotShare(cfg, s, prep, u, x);
    CountIn(Segment(cfg, s, prep, u), x);
    TotalPick(OwnersOf(cfg, s, prep, page), u);
    PageOnce(cfg, s, prep, page);
    CountIn(s.cache.free, page);
  }

  /** No slot has two owners. */
  lemma {:induction false} OwnApart(cfg: Config, s: Sched, prep: set<int>, u: int, v: int, x: int)
    requires RInv(cfg, s, prep, []) && u in s.cache.held && v in s.cache.held && u != v
    requires x in Segment(cfg, s, prep, u)
    ensures x !in Segment(cfg, s, prep, v)
  {
    hide RInv, Count, AlignDown, OwnersOf, StorePages, Segment;
    SlotsNatural(cfg, s, prep, u, x);
    var page := AlignDown(x, cfg.ps);
    OwnersKeys(cfg, s, prep, page);
    SlotShare(cfg, s, prep, u, x);
    SlotShare(cfg, s, prep, v, x);
    CountIn(Segment(cfg, s, prep, u), x);
    CountIn(Segment(cfg, s, prep, v), x);
    TotalTwo(OwnersOf(cfg, s, prep, page), u, v);
    PageOnce(cfg, s, prep, page);
  }

  lemma {:induction false} OnceApart(s: seq<int>, i: nat, j: nat)
    requires i < j < |s| && Count(s, One(s[i])) == 1
    ensures s[i] != s[j]
  {
    hide Count;
    var a, b := s[..j], s[j..];
    assert s == a + b;
    CountConcat(a, b, One(s[i]));
    assert a[i] in a && b[0] in b;
    CountIn(a, s[i]);
    CountIn(b, s[i]);
  }

  // ---- rows

  /** The row of `u` begins with the slots stored for its locked path. */
  ghost predicate Attached(s: Sched, u: int) {
    Upto(RowOf(s, u), |Locked(s.cache, u)|) == SlotsOf(s.cache.store, Locked(s.cache, u))
  }

  /** The slots of a row up to the end of its pages: stored with the locked path, or owned. */
  lemma {:induction false} RowSlots(cfg: Config, s: Sched, prep: set<int>, u: int, j: nat)
    requires RInv(cfg, s, prep, []) && u in s.cache.held && Attached(s, u) && j < End(s, prep, u)
    ensures j < |RowOf(s, u)|
    ensures j < |Locked(s.cache, u)| ==>
              && Locked(s.cache, u) in s.cache.store && RowOf(s, u)[j] in s.cache.store[Locked(s.cache, u)]
    ensures j >= |Locked(s.cache, u)| ==>
              && j - |Locked(s.cache, u)| < |Segment(cfg, s, prep, u)|
              && Segment(cfg, s, prep, u)[j - |Locked(s.cache, u)|] == RowOf(s, u)[j]
  {
    hide RInv, AlignUp, Aligned, Whole;
    ReqFacts(cfg, s, prep, [], u);
    var row, hl := RowOf(s, u), |Locked(s.cache, u)|;
    if j < hl {
      assert Upto(row, hl)[j] == row[j];
    }
  }

  lemma {:induction false} WriteAt(cfg: Config, s: Sched, prep: set<int>, u: int, x: int) returns (i: nat)
    requires RInv(cfg, s, prep, []) && u in s.cache.held && u in prep && x in WriteSlots(s, u)
    ensures Get(s.reqs, u).cachedLen <= i < Get(s.reqs, u).deviceLen <= |RowOf(s, u)| && RowOf(s, u)[i] == x
    ensures x in Segment(cfg, s, prep, u)
  {
    hide RInv, AlignUp, Aligned, Whole, Segment;
    ReqFacts(cfg, s, prep, [], u);
    WritesOwn(cfg, s, prep, u, One(x));
    var r := Get(s.reqs, u);
    var k :| 0 <= k < |WriteSlots(s, u)| && WriteSlots(s, u)[k] == x;
    i := r.cachedLen + k;
  }

  /** What a prepared request writes is in nobody else's row, and not in the part of its own that is computed. */
  lemma {:induction false} WritesMiss(cfg: Config, s: Sched, prep: set<int>, u: int, v: int, j: nat)
    requires RInv(cfg, s, prep, []) && PagesWhole(cfg, s.cache.store) && u in s.cache.held && u in prep
    requires v in s.cache.held && Attached(s, v) && j < End(s, prep, v) && (v == u ==> j < Get(s.reqs, u).cachedLen)
    ensures j < |RowOf(s, v)| && RowOf(s, v)[j] !in WriteSlots(s, u)
  {
    hide RInv, WriteSlots, Segment, StorePages, AlignDown, Attached, RowOf;
    RowSlots(cfg, s, prep, v, j);
    var x, hl := RowOf(s, v)[j], |Locked(s.cache, v)|;
    if x in WriteSlots(s, u) {
      var i := WriteAt(cfg, s, prep, u, x);
      OwnOnce(cfg, s, prep, u, x);
      if j < hl {
        assert StoredWhole(cfg, s.cache.store, Locked(s.cache, v));
        SlotStored(cfg, s, prep, Locked(s.cache, v), x);
      } else if v != u {
        OwnApart(cfg, s, prep, u, v, x);
      } else {
        RowSlots(cfg, s, prep, u, i);
        OnceApart(Segment(cfg, s, prep, u), j - hl, i - hl);
      }
    }
  }

  /** And it is on no stored page. */
  lemma {:induction false} WritesUnstored(cfg: Config, s: Sched, prep: set<int>, u: int, p: seq<int>, x: int)
    requires RInv(cfg, s, prep, []) && PagesWhole(cfg, s.cache.store) && u in s.cache.held && u in prep
    requires p in s.cache.store && x in s.cache.store[p]
    ensures x !in WriteSlots(s, u)
  {
    hide RInv, WriteSlots, Segment, StorePages, AlignDown, RowOf;
    if x in WriteSlots(s, u) {
      var i := WriteAt(cfg, s, prep, u, x);
      OwnOnce(cfg, s, prep, u, x);
      assert StoredWhole(cfg, s.cache.store, p);
      SlotStored(cfg, s, prep, p, x);
    }
  }

  /** The slots a request writes are distinct. */
  lemma {:induction false} WritesDistinct(cfg: Config, s: Sched, prep: set<int>, u: int, i: nat, j: nat)
    requires RInv(cfg, s, prep, []) && u in s.cache.held && u in prep && Attached(s, u)
    requires Get(s.reqs, u).cachedLen <= i < j < Get(s.reqs, u).deviceLen
    ensures j < |RowOf(s, u)| && RowOf(s, u)[i] != RowOf(s, u)[j]
  {
    hide RInv, Segment, StorePages, AlignDown, Attached, RowOf;
    ReqFacts(cfg, s, prep, [], u);
    RowSlots(cfg, s, prep, u, i);
    RowSlots(cfg, s, prep, u, j);
    OwnOnce(cfg, s, prep, u, RowOf(s, u)[i]);
    OnceApart(Segment(cfg, s, prep, u), i - |Locked(s.cache, u)|, j - |Locked(s.cache, u)|);
  }

  /** No page that a request reads is free. */
  lemma {:induction false} ReadNotFree(cfg: Config, s: Sched, u: int, j: nat)
    requires RInv(cfg, s, {}, []) && PagesWhole(cfg, s.cache.store) && u in s.cache.held && Attached(s, u)
    requires j < Get(s.reqs, u).cachedLen
    ensures j < |RowOf(s, u)| && RowOf(s, u)[j] >= 0 && AlignDown(RowOf(s, u)[j], cfg.ps) !in s.cache.free
  {
    hide RInv, Segment, StorePages, AlignDown, Attached, RowOf, Count, OwnersOf;
    RowSlots(cfg, s, {}, u, j);
    var x := RowOf(s, u)[j];
    if j < |Locked(s.cache, u)| {
      assert StoredWhole(cfg, s.cache.store, Locked(s.cache, u));
      SlotStored(cfg, s, {}, Locked(s.cache, u), x);
      PageOnce(cfg, s, {}, AlignDown(x, cfg.ps));
      CountIn(s.cache.free, AlignDown(x, cfg.ps));
    } else {
      OwnOnce(cfg, s, {}, u, x);
    }
  }
}
