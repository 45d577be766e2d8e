/** The simple structure the radix tree stands for: a map from page-aligned token prefixes to the slots that hold
them. Everything above the tree is specified against this map. */
module PrefixStore {
  import opened Paging
  import opened Sums

  /** A stored prefix and the slots of all its tokens. */
  type Store = map<seq<int>, seq<int>>

  /** Stored prefixes are whole pages, carry one slot a token, and every shorter aligned prefix is stored with the
  same slots. */
  ghost predicate StoreOk(s: Store, ps: Pos)
  {
    && (forall p {:trigger p in s} | p in s :: 0 < |p| == |s[p]| && Aligned(|p|, ps))
    && forall p, k {:trigger PrefixKept(s, p, k)} | p in s && 0 < k < |p| == |s[p]| && Aligned(k, ps) ::
         PrefixKept(s, p, k)
  }

  ghost predicate PrefixKept(s: Store, p: seq<int>, k: nat)
    requires p in s && k <= |p| && k <= |s[p]|
  {
    p[..k] in s && s[p[..k]] == s[p][..k]
  }

  /** The slots along a prefix; the empty prefix has none. */
  ghost function SlotsOf(s: Store, p: seq<int>): seq<int> {
    if p in s && p != [] then s[p] else []
  }

  /** The length of the longest stored page-aligned prefix of `ids`. */
  ghost function LongestMatch(s: Store, ids: seq<int>, ps: Pos): (r: nat)
    ensures r <= |ids| && Aligned(r, ps)
    ensures r > 0 ==> ids[..r] in s
    ensures forall k {:trigger ids[..k]} | r < k <= |ids| && Aligned(k, ps) :: ids[..k] !in s
  {
    NothingAlignedBetween(AlignDown(|ids|, ps), ps);
    LongestFrom(s, ids, AlignDown(|ids|, ps), ps)
  }

  ghost function LongestFrom(s: Store, ids: seq<int>, top: nat, ps: Pos): (r: nat)
    requires top <= |ids| && Aligned(top, ps)
    ensures r <= top && Aligned(r, ps)
    ensures r > 0 ==> ids[..r] in s
    ensures forall k {:trigger ids[..k]} | r < k <= top && Aligned(k, ps) :: ids[..k] !in s
  {
    if top == 0 || ids[..top] in s then top
    else
      AlignedAtLeastPage(top, ps);
      StepAligned(top, ps);
      NothingAlignedBetween(top - ps, ps);
      LongestFrom(s, ids, top - ps, ps)
  }

  /** The longest match is the only length with its defining property. */
  lemma {:induction false} LongestUnique(s: Store, ids: seq<int>, ps: Pos, r: nat)
    requires r <= |ids| && Aligned(r, ps)
    requires r > 0 ==> ids[..r] in s
    requires forall k {:trigger ids[..k]} | r < k <= |ids| && Aligned(k, ps) :: ids[..k] !in s
    ensures LongestMatch(s, ids, ps) == r
  {
    var l := LongestMatch(s, ids, ps);
    assert l < r ==> r > 0;
    assert r < l ==> l > 0;
  }

  // ---- runs: the aligned prefixes of `ids` longer than `lo` and at most `hi`

  ghost function RunKeys(ids: seq<int>, lo: nat, hi: nat, ps: Pos): (r: set<seq<int>>)
    ensures forall p {:trigger p in r} :: p in r <==> p <= ids && lo < |p| <= hi && Aligned(|p|, ps)
  {
    assert forall p | p <= ids :: p == ids[..|p|];
    set k | lo < k <= hi && k <= |ids| && Aligned(k, ps) :: ids[..k]
  }

  /** The last prefix of a run, taken off. */
  lemma {:induction false} RunStep(ids: seq<int>, lo: nat, hi: nat, ps: Pos)
    requires Aligned(lo, ps) && Aligned(hi, ps) && lo < hi <= |ids|
    ensures lo <= hi - ps && Aligned(hi - ps, ps)
    ensures RunKeys(ids, lo, hi, ps) == RunKeys(ids, lo, hi - ps, ps) + {ids[..hi]}
    ensures ids[..hi] !in RunKeys(ids, lo, hi - ps, ps)
  {
    AlignedFacts(lo, hi, ps);
    StepAligned(hi, ps);
    NothingAlignedBetween(hi - ps, ps);
    forall p | p <= ids && lo < |p| <= hi && Aligned(|p|, ps)
      ensures |p| <= hi - ps || p == ids[..hi]
    {
      assert Aligned(|p|, ps);
    }
  }

  lemma {:induction false} RunCount(ids: seq<int>, lo: nat, hi: nat, ps: Pos)
    requires Aligned(lo, ps) && Aligned(hi, ps) && lo <= hi <= |ids|
    ensures |RunKeys(ids, lo, hi, ps)| == DivCeil(hi - lo, ps)
    decreases hi
  {
    if hi > lo {
      hide RunKeys, DivCeil;
      RunStep(ids, lo, hi, ps);
      RunCount(ids, lo, hi - ps, ps);
      DivCeilStep(hi - ps - lo, ps);
      assert |RunKeys(ids, lo, hi, ps)| == |RunKeys(ids, lo, hi - ps, ps)| + 1;
    } else {
      assert RunKeys(ids, lo, hi, ps) == {};
    }
  }

  ghost function Run(ids: seq<int>, slots: seq<int>, lo: nat, hi: nat, ps: Pos): Store {
    map p | p in RunKeys(ids, lo, hi, ps) :: Upto(slots, |p|)
  }

  // ---- the pages of a store

  /** Whether the last page of a stored prefix, named by its first slot, is counted. */
  ghost function LastPage(p: seq<int>, slots: seq<int>, ps: Pos, x: Pick): nat {
    if |p| == |slots| >= ps then Hit(x, slots[|p| - ps]) else 0
  }

  ghost function PageHits(s: Store, ps: Pos, x: Pick): map<seq<int>, nat> {
    map p | p in s :: LastPage(p, s[p], ps, x)
  }

  /** How many stored prefixes have a last page that is counted: of one page, its owners; of all, the stored pages. */
  ghost function StorePages(s: Store, ps: Pos, x: Pick): nat {
    Total(PageHits(s, ps, x))
  }

  lemma {:induction false} PagesAdd(s: Store, p: seq<int>, slots: seq<int>, ps: Pos, x: Pick)
    requires p !in s
    ensures StorePages(s[p := slots], ps, x) == StorePages(s, ps, x) + LastPage(p, slots, ps, x)
  {
    TotalAdd(PageHits(s, ps, x), PageHits(s[p := slots], ps, x), p);
  }

  lemma {:induction false} MergeUpdate(s: Store, r: Store, p: seq<int>, v: seq<int>)
    ensures s + r[p := v] == (s + r)[p := v]
  {
  }

  lemma {:induction false} RunMapStep(ids: seq<int>, slots: seq<int>, lo: nat, hi: nat, ps: Pos)
    requires Aligned(lo, ps) && Aligned(hi, ps) && lo < hi <= |ids| && hi <= |slots|
    ensures lo <= hi - ps && Aligned(hi - ps, ps)
    ensures Run(ids, slots, lo, hi, ps) == Run(ids, slots, lo, hi - ps, ps)[ids[..hi] := slots[..hi]]
    ensures ids[..hi] !in Run(ids, slots, lo, hi - ps, ps) && ids[..hi] in RunKeys(ids, lo, hi, ps)
    ensures RunKeys(ids, lo, hi - ps, ps) <= RunKeys(ids, lo, hi, ps)
  {
    RunStep(ids, lo, hi, ps);
  }

  lemma {:induction false} RunGrow(s: Store, ids: seq<int>, slots: seq<int>, lo: nat, hi: nat, ps: Pos, x: Pick)
    requires Aligned(lo, ps) && Aligned(hi, ps) && lo < hi <= |ids| && hi <= |slots|
    requires s.Keys !! RunKeys(ids, lo, hi, ps)
    ensures lo <= hi - ps
    ensures StorePages(s + Run(ids, slots, lo, hi, ps), ps, x)
         == StorePages(s + Run(ids, slots, lo, hi - ps, ps), ps, x) + Hit(x, slots[hi - ps])
  {
    RunMapStep(ids, slots, lo, hi, ps);
    var r := Run(ids, slots, lo, hi - ps, ps);
    MergeUpdate(s, r, ids[..hi], slots[..hi]);
    PagesAdd(s + r, ids[..hi], slots[..hi], ps, x);
    assert slots[..hi][hi - ps] == slots[hi - ps];
  }

  lemma {:induction false} RunEmpty(s: Store, ids: seq<int>, slots: seq<int>, lo: nat, ps: Pos)
    requires lo <= |slots|
    ensures s + Run(ids, slots, lo, lo, ps) == s
    ensures Strided(slots[lo..lo], ps) == []
  {
  }

  lemma {:induction false} StridedLast(slots: seq<int>, lo: nat, hi: nat, ps: Pos, x: Pick)
    requires Aligned(lo, ps) && Aligned(hi, ps) && lo <= hi - ps && hi <= |slots|
    ensures Count(Strided(slots[lo..hi], ps), x)
         == Count(Strided(slots[lo..hi - ps], ps), x) + Hit(x, slots[hi - ps])
  {
    StepAligned(hi, ps);
    StridedSplit(slots, lo, hi - ps, hi, ps);
    CountConcat(Strided(slots[lo..hi - ps], ps), Strided(slots[hi - ps..hi], ps), x);
    assert Strided(slots[hi - ps..hi], ps) == [slots[hi - ps]];
    CountOne(slots[hi - ps], x);
  }

  /** A run of new prefixes brings exactly the pages of its slots. */
  lemma {:induction false} RunPages(s: Store, ids: seq<int>, slots: seq<int>, lo: nat, hi: nat, ps: Pos, x: Pick)
    requires Aligned(lo, ps) && Aligned(hi, ps) && lo <= hi <= |ids| && hi <= |slots|
    requires s.Keys !! RunKeys(ids, lo, hi, ps)
    ensures StorePages(s + Run(ids, slots, lo, hi, ps), ps, x)
         == StorePages(s, ps, x) + Count(Strided(slots[lo..hi], ps), x)
    decreases hi
  {
    hide StorePages, Strided, Run, RunKeys;
    if hi == lo {
      RunEmpty(s, ids, slots, lo, ps);
    } else {
      RunMapStep(ids, slots, lo, hi, ps);
      RunPages(s, ids, slots, lo, hi - ps, ps, x);
      RunGrow(s, ids, slots, lo, hi, ps, x);
      StridedLast(slots, lo, hi, ps, x);
    }
  }

  /** Each stored prefix stands for one stored page. */
  lemma {:induction false} StoreCounts(s: Store, ps: Pos)
    requires StoreOk(s, ps)
    ensures StorePages(s, ps, All) == |s.Keys|
  {
    forall p | p in s
      ensures PageHits(s, ps, All)[p] == 1
    {
      AlignedAtLeastPage(|p|, ps);
    }
    TotalOnes(PageHits(s, ps, All));
    assert PageHits(s, ps, All).Keys == s.Keys;
  }

  /** A run of new prefixes on top of a store. */
  ghost predicate RunOn(s: Store, ids: seq<int>, slots: seq<int>, lo: nat, hi: nat, ps: Pos) {
    && StoreOk(s, ps) && Aligned(lo, ps) && Aligned(hi, ps) && lo <= hi <= |ids| && hi <= |slots|
    && (lo > 0 ==> ids[..lo] in s && s[ids[..lo]] == slots[..lo])
    && s.Keys !! RunKeys(ids, lo, hi, ps)
  }

  /** An extended store at one of its prefixes. */
  lemma {:induction false} RunAt(s: Store, ids: seq<int>, slots: seq<int>, lo: nat, hi: nat, ps: Pos, p: seq<int>)
    requires RunOn(s, ids, slots, lo, hi, ps) && p in s + Run(ids, slots, lo, hi, ps)
    ensures var s' := s + Run(ids, slots, lo, hi, ps);
            if p in s then s'[p] == s[p]
            else p <= ids && lo < |p| <= hi && Aligned(|p|, ps) && s'[p] == slots[..|p|]
  {
    hide StoreOk, Aligned;
  }

  lemma {:induction false} RunKey(s: Store, ids: seq<int>, slots: seq<int>, lo: nat, hi: nat, ps: Pos, k: nat)
    requires RunOn(s, ids, slots, lo, hi, ps) && lo <= k <= hi && 0 < k && Aligned(k, ps)
    ensures var s' := s + Run(ids, slots, lo, hi, ps); ids[..k] in s' && s'[ids[..k]] == slots[..k]
  {
    hide StoreOk, Aligned;
    assert k > lo ==> ids[..k] in RunKeys(ids, lo, hi, ps);
  }

  /** Adding a run above a stored prefix keeps the store in order. */
  lemma {:induction false} RunStoreOk(s: Store, ids: seq<int>, slots: seq<int>, lo: nat, hi: nat, ps: Pos)
    requires RunOn(s, ids, slots, lo, hi, ps)
    ensures StoreOk(s + Run(ids, slots, lo, hi, ps), ps)
  {
    hide Run, Aligned, PrefixKept;
    var s' := s + Run(ids, slots, lo, hi, ps);
    forall p | p in s'
      ensures 0 < |p| == |s'[p]| && Aligned(|p|, ps)
    {
      RunAt(s, ids, slots, lo, hi, ps, p);
    }
    forall p, k | p in s' && 0 < k < |p| && Aligned(k, ps)
      ensures |s'[p]| == |p| && PrefixKept(s', p, k)
    {
      RunPrefix(s, ids, slots, lo, hi, ps, p, k);
    }
  }

  lemma {:induction false} RunPrefix(s: Store, ids: seq<int>, slots: seq<int>, lo: nat, hi: nat, ps: Pos, p: seq<int>,
                                     k: nat)
    requires RunOn(s, ids, slots, lo, hi, ps)
    requires p in s + Run(ids, slots, lo, hi, ps) && 0 < k < |p| && Aligned(k, ps)
    ensures var s' := s + Run(ids, slots, lo, hi, ps); |s'[p]| == |p| && PrefixKept(s', p, k)
  {
    hide Run, RunKeys, Aligned;
    var s' := s + Run(ids, slots, lo, hi, ps);
    RunAt(s, ids, slots, lo, hi, ps, p);
    if p in s {
      assert PrefixKept(s, p, k);
      RunAt(s, ids, slots, lo, hi, ps, p[..k]);
    } else {
      assert p[..k] == ids[..k] && slots[..|p|][..k] == slots[..k];
      if k >= lo {
        RunKey(s, ids, slots, lo, hi, ps, k);
      } else {
        assert PrefixKept(s, ids[..lo], k);
        assert ids[..lo][..k] == ids[..k] && slots[..lo][..k] == slots[..k];
        RunAt(s, ids, slots, lo, hi, ps, ids[..k]);
      }
    }
  }

  /** The store after inserting the aligned prefixes of `ids`: what is stored keeps its slots, the missing run gets
  those of `indices`. */
  ghost function Inserted(s: Store, ids: seq<int>, indices: seq<int>, ps: Pos): Store
  {
    var m := LongestMatch(s, ids, ps);
    s + Run(ids, SlotsOf(s, ids[..m]) + From(indices, m), m, |ids|, ps)
  }

  /** The run an insertion adds, read off a stored path and the new slots; none if all is stored. */
  lemma {:induction false} InsertRun(s: Store, ids: seq<int>, indices: seq<int>, m: nat, slots: seq<int>, ps: Pos)
    requires |ids| == |indices| && LongestMatch(s, ids, ps) == m
    requires slots == SlotsOf(s, ids[..m]) && |slots| == m
    ensures Inserted(s, ids, indices, ps) == s + Run(ids, slots + indices[m..], m, |ids|, ps)
    ensures m == |ids| ==> Inserted(s, ids, indices, ps) == s
  {
  }

  // ---- protection

  /** The stored prefixes that lie on the path of an outstanding lock. */
  ghost function Protected(s: Store, held: map<int, seq<int>>): set<seq<int>> {
    set p | p in s && exists u :: u in held && p <= held[u]
  }

  ghost function Unprotected(s: Store, held: map<int, seq<int>>): set<seq<int>> {
    s.Keys - Protected(s, held)
  }

  // ---- eviction

  /** `s'` is `s` after an eviction that returned the slots `evicted`: it keeps some of the prefixes with their slots,
  gives up only unprotected ones, and what it gives up is exactly what was returned. */
  ghost predicate EvictOk(s: Store, s': Store, held: map<int, seq<int>>, evicted: seq<int>, ps: Pos)
  {
    && s'.Keys <= s.Keys && (forall p | p in s' :: s'[p] == s[p])
    && s.Keys - s'.Keys !! Protected(s, held)
    && Aligned(|evicted|, ps)
    && forall x {:trigger PagesMoved(s, s', evicted, ps, x)} :: PagesMoved(s, s', evicted, ps, x)
  }

  ghost predicate PagesMoved(s: Store, s': Store, evicted: seq<int>, ps: Pos, x: Pick) {
    StorePages(s, ps, x) == StorePages(s', ps, x) + Count(Strided(evicted, ps), x)
  }

  lemma {:induction false} EvictNothing(s: Store, held: map<int, seq<int>>, ps: Pos)
    ensures EvictOk(s, s, held, [], ps)
  {
  }

  lemma {:induction false} EvictMore(s: Store, s1: Store, s2: Store, held: map<int, seq<int>>, e1: seq<int>,
                                     e2: seq<int>, ps: Pos)
    requires EvictOk(s, s1, held, e1, ps) && EvictOk(s1, s2, held, e2, ps)
    ensures EvictOk(s, s2, held, e1 + e2, ps)
  {
    hide StorePages, Strided, Count;
    AlignedFacts(|e1|, |e2|, ps);
    StridedConcat(e1, e2, ps);
    forall x
      ensures PagesMoved(s, s2, e1 + e2, ps, x)
    {
      assert PagesMoved(s, s1, e1, ps, x) && PagesMoved(s1, s2, e2, ps, x);
      CountConcat(Strided(e1, ps), Strided(e2, ps), x);
    }
    forall p | p in s.Keys - s2.Keys
      ensures p !in Protected(s, held)
    {
      if p in s1 {
        assert p !in Protected(s1, held);
      }
    }
  }

  lemma {:induction false} RunMoves(s: Store, path: seq<int>, slots: seq<int>, lo: nat, ps: Pos)
    requires Aligned(lo, ps) && Aligned(|path|, ps) && lo <= |path| == |slots|
    requires s.Keys !! RunKeys(path, lo, |path|, ps)
    ensures forall x {:trigger PagesMoved(s + Run(path, slots, lo, |path|, ps), s, slots[lo..], ps, x)} ::
              PagesMoved(s + Run(path, slots, lo, |path|, ps), s, slots[lo..], ps, x)
  {
    hide Aligned, Run, RunKeys, Strided, StorePages;
    assert slots[lo..|path|] == slots[lo..];
    forall x
      ensures PagesMoved(s + Run(path, slots, lo, |path|, ps), s, slots[lo..], ps, x)
    {
      RunPages(s, path, slots, lo, |path|, ps, x);
    }
  }

  lemma {:induction false} TailLength(slots: seq<int>, lo: nat, hi: nat, ps: Pos)
    requires Aligned(lo, ps) && Aligned(hi, ps) && lo <= hi == |slots|
    ensures Aligned(|slots[lo..]|, ps)
  {
    AlignedDiff(hi, lo, ps);
  }

  lemma {:induction false} RunShape(s: Store, path: seq<int>, slots: seq<int>, lo: nat, held: map<int, seq<int>>,
                                    ps: Pos)
    requires s.Keys !! RunKeys(path, lo, |path|, ps)
    requires forall p | p in RunKeys(path, lo, |path|, ps) ::
             p !in Protected(s + Run(path, slots, lo, |path|, ps), held)
    ensures var s' := s + Run(path, slots, lo, |path|, ps);
            && s.Keys <= s'.Keys && (forall p | p in s :: s[p] == s'[p]) && s'.Keys - s.Keys !! Protected(s', held)
  {
    hide Protected, RunKeys, Upto;
  }

  /** Giving up an unprotected run is an eviction of the run's slots. */
  lemma {:induction false} EvictRun(s: Store, path: seq<int>, slots: seq<int>, lo: nat, held: map<int, seq<int>>,
                                    ps: Pos)
    requires Aligned(lo, ps) && Aligned(|path|, ps) && lo <= |path| == |slots|
    requires s.Keys !! RunKeys(path, lo, |path|, ps)
    requires forall p | p in RunKeys(path, lo, |path|, ps) ::
             p !in Protected(s + Run(path, slots, lo, |path|, ps), held)
    ensures EvictOk(s + Run(path, slots, lo, |path|, ps), s, held, slots[lo..], ps)
  {
    hide PagesMoved, Protected, RunKeys, Run, Aligned, Upto, DivCeil, Strided;
    RunShape(s, path, slots, lo, held, ps);
    TailLength(slots, lo, |path|, ps);
    RunMoves(s, path, slots, lo, ps);
  }

  // ---- an eviction always exists

  /** A longest prefix among those that may be given up. */
  lemma {:induction false} Longest(ps: set<seq<int>>) returns (p: seq<int>)
    requires ps != {}
    ensures p in ps && forall q | q in ps :: |q| <= |p|
    decreases |ps|
  {
    p := Member(ps);
    var rest := ps - {p};
    if rest != {} {
      var q := Longest(rest);
      if |q| > |p| {
        p := q;
      }
    }
  }

  /** Without an unprotected prefix that nothing longer extends, the store is still in order. */
  lemma {:induction false} DropLongest(s: Store, held: map<int, seq<int>>, p: seq<int>, ps: Pos)
    requires StoreOk(s, ps) && p in Unprotected(s, held) && forall q | q in Unprotected(s, held) :: |q| <= |p|
    ensures StoreOk(s - {p}, ps)
  {
    hide Aligned;
    var s1 := s - {p};
    forall q, k | q in s1 && 0 < k < |q| && Aligned(k, ps)
      ensures |s1[q]| == |q| && PrefixKept(s1, q, k)
    {
      assert PrefixKept(s, q, k);
      if q[..k] == p {
        ExtensionUnprotected(s, held, p, q);
      }
    }
  }

  lemma {:induction false} ExtensionUnprotected(s: Store, held: map<int, seq<int>>, p: seq<int>, q: seq<int>)
    requires p in s && q in s && p <= q && p !in Protected(s, held)
    ensures q !in Protected(s, held)
  {
    if q in Protected(s, held) {
      var u :| u in held && q <= held[u];
      PrefixTrans(p, q, held[u]);
    }
  }

  lemma {:induction false} DropEvicts(s: Store, held: map<int, seq<int>>, p: seq<int>, ps: Pos)
    requires StoreOk(s, ps) && p in Unprotected(s, held)
    ensures |p| == |s[p]| >= ps && |s[p][|p| - ps..]| == ps
    ensures EvictOk(s, s - {p}, held, s[p][|p| - ps..], ps)
    ensures Unprotected(s - {p}, held) == Unprotected(s, held) - {p}
  {
    hide PagesMoved, Strided;
    var lo, s1 := |p| - ps, s - {p};
    AlignedAtLeastPage(|p|, ps);
    StepAligned(|p|, ps);
    OnlyItself(p, ps);
    var r := Run(p, s[p], lo, |p|, ps);
    assert Upto(s[p], |p|) == s[p];
    assert s1 + r == s;
    EvictRun(s1, p, s[p], lo, held, ps);
  }

  lemma {:induction false} OnlyItself(p: seq<int>, ps: Pos)
    requires |p| >= ps && Aligned(|p|, ps)
    ensures RunKeys(p, |p| - ps, |p|, ps) == {p}
  {
    StepAligned(|p|, ps);
    NothingAlignedBetween(|p| - ps, ps);
    hide Aligned;
    var r := RunKeys(p, |p| - ps, |p|, ps);
    forall q | q in r
      ensures q == p
    {
      EqualLengthPrefix(q, p);
    }
  }

  /** All unprotected prefixes can be given up at once. */
  lemma {:induction false} EvictAll(s: Store, held: map<int, seq<int>>, ps: Pos) returns (s': Store, slots: seq<int>)
    requires StoreOk(s, ps)
    ensures EvictOk(s, s', held, slots, ps) && StoreOk(s', ps)
    ensures |Strided(slots, ps)| == |Unprotected(s, held)|
    decreases |Unprotected(s, held)|
  {
    hide StoreOk, EvictOk, Strided, Unprotected;
    if Unprotected(s, held) == {} {
      s', slots := s, [];
      EvictNothing(s, held, ps);
      NoStrides(ps);
    } else {
      var p := Longest(Unprotected(s, held));
      InStore(s, held, p);
      DropLongest(s, held, p, ps);
      DropEvicts(s, held, p, ps);
      var rest;
      s', rest := EvictAll(s - {p}, held, ps);
      slots := s[p][|p| - ps..] + rest;
      EvictMore(s, s - {p}, s', held, s[p][|p| - ps..], rest, ps);
      OneStride(s[p][|p| - ps..], rest, ps);
    }
  }

  lemma {:induction false} InStore(s: Store, held: map<int, seq<int>>, p: seq<int>)
    requires p in Unprotected(s, held)
    ensures p in s
  {
  }

  lemma {:induction false} NoStrides(ps: Pos)
    ensures Strided([], ps) == []
  {
  }

  lemma {:induction false} OneStride(a: seq<int>, b: seq<int>, ps: Pos)
    requires |a| == ps
    ensures |Strided(a + b, ps)| == 1 + |Strided(b, ps)|
  {
    StepAligned(0, ps);
    StridedConcat(a, b, ps);
  }
}
