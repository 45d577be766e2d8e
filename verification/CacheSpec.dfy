/** The paged cache as a value - prefix map, locks and free list - and the operations of the cache manager on it.
Page conservation and the available size are proved here, on the value. */
module CacheSpec {
  import opened Paging
  import opened Sums
  import opened PrefixStore

  /** `held[u]` is the path that the lock of request `u` protects; `free` lists the free pages by first slot. */
  datatype Cache = Cache(store: Store, held: map<int, seq<int>>, free: seq<int>)

  /** What an eviction did: the prefix map it left and the slots it returned. */
  datatype Eviction = Eviction(store: Store, slots: seq<int>)

  ghost predicate CacheOk(c: Cache, ps: Pos)
  {
    StoreOk(c.store, ps) && forall u | u in c.held :: c.held[u] == [] || c.held[u] in c.store
  }

  /** The path that request `u` has locked. */
  ghost function Locked(c: Cache, u: int): seq<int> {
    if u in c.held then c.held[u] else []
  }

  /** How often a page is free or stored; of all pages together, how many are. */
  ghost function Balance(c: Cache, ps: Pos, k: Pick): nat {
    Count(c.free, k) + StorePages(c.store, ps, k)
  }

  /** The pages that could be handed out: free, or stored and unprotected. */
  ghost function Avail(c: Cache): nat {
    |c.free| + |Unprotected(c.store, c.held)|
  }

  // ---- operations

  ghost function LockOp(c: Cache, u: int, path: seq<int>): Cache {
    c.(held := c.held[u := path])
  }

  ghost function UnlockOp(c: Cache, u: int): Cache {
    c.(held := c.held - {u})
  }

  ghost function FreeOp(c: Cache, slots: seq<int>, ps: Pos): Cache {
    c.(free := c.free + Strided(slots, ps))
  }

  /** An eviction that may happen when `need` pages are asked for: none while the free list suffices. */
  ghost predicate LegalEviction(c: Cache, need: nat, ev: Eviction, ps: Pos)
  {
    if need <= |c.free| then ev == Eviction(c.store, [])
    else
      && EvictOk(c.store, ev.store, c.held, ev.slots, ps) && StoreOk(ev.store, ps)
      && |Strided(ev.slots, ps)| >= need - |c.free|
  }

  ghost function Refilled(c: Cache, ev: Eviction, ps: Pos): seq<int> {
    c.free + Strided(ev.slots, ps)
  }

  /** The pages an allocation hands out. */
  ghost function Allocated(c: Cache, need: nat, ev: Eviction, ps: Pos): seq<int> {
    var f := Refilled(c, ev, ps);
    if need <= |f| then f[..need] else f
  }

  ghost function AllocOp(c: Cache, need: nat, ev: Eviction, ps: Pos): Cache {
    var f := Refilled(c, ev, ps);
    Cache(ev.store, c.held, if need <= |f| then f[need..] else [])
  }

  /** Hands a request's computed tokens `ids`, held in the slots `row`, over to the prefix map. */
  ghost function CacheReqOp(c: Cache, u: int, ids: seq<int>, row: seq<int>, finished: bool, ps: Pos): Cache {
    var il := AlignDown(|ids|, ps);
    var a := Upto(ids, il);
    var m := LongestMatch(c.store, a, ps);
    var c1 := UnlockOp(c.(store := Inserted(c.store, a, Upto(row, il), ps)), u);
    var c2 := FreeOp(c1, Slice(row, |Locked(c, u)|, m), ps);
    if finished then FreeOp(c2, From(row, il), ps) else LockOp(c2, u, a)
  }

  // ---- insertion

  /** What a request must bring to hand its tokens over: its lock's path leads into its own tokens. */
  ghost predicate Follows(c: Cache, u: int, ids: seq<int>, ps: Pos)
  {
    u in c.held && Locked(c, u) <= ids && Aligned(|Locked(c, u)|, ps)
  }

  /** Nothing longer than the longest match is stored yet. */
  lemma {:induction false} RunIsNew(s: Store, ids: seq<int>, ps: Pos)
    ensures s.Keys !! RunKeys(ids, LongestMatch(s, ids, ps), |ids|, ps)
  {
    var m := LongestMatch(s, ids, ps);
    forall p | p in RunKeys(ids, m, |ids|, ps)
      ensures p !in s
    {
      assert p == ids[..|p|];
    }
  }

  /** The slots an insertion stores: those already stored, then the new ones. */
  ghost function PathSlots(s: Store, ids: seq<int>, slots: seq<int>, ps: Pos): seq<int> {
    var m := LongestMatch(s, ids, ps);
    SlotsOf(s, ids[..m]) + From(slots, m)
  }

  lemma {:induction false} InsertIsRun(s: Store, ids: seq<int>, slots: seq<int>, ps: Pos)
    requires StoreOk(s, ps) && |ids| == |slots|
    ensures |PathSlots(s, ids, slots, ps)| == |ids|
    ensures Inserted(s, ids, slots, ps)
         == s + Run(ids, PathSlots(s, ids, slots, ps), LongestMatch(s, ids, ps), |ids|, ps)
  {
    var m := LongestMatch(s, ids, ps);
    assert m > 0 ==> |s[ids[..m]]| == m;
    InsertRun(s, ids, slots, m, SlotsOf(s, ids[..m]), ps);
  }

  /** An insertion keeps every stored entry and adds the missing run. */
  lemma {:induction false} InsertKeeps(s: Store, ids: seq<int>, slots: seq<int>, ps: Pos)
    requires StoreOk(s, ps) && |ids| == |slots|
    ensures Inserted(s, ids, slots, ps).Keys == s.Keys + RunKeys(ids, LongestMatch(s, ids, ps), |ids|, ps)
    ensures forall p | p in s :: Inserted(s, ids, slots, ps)[p] == s[p]
  {
    InsertIsRun(s, ids, slots, ps);
    RunIsNew(s, ids, ps);
  }

  /** An insertion takes over exactly the pages of the missing run. */
  lemma {:induction false} InsertPages(s: Store, ids: seq<int>, slots: seq<int>, ps: Pos, k: Pick)
    requires StoreOk(s, ps) && |ids| == |slots| && Aligned(|ids|, ps)
    ensures StorePages(Inserted(s, ids, slots, ps), ps, k)
         == StorePages(s, ps, k) + Count(Strided(From(slots, LongestMatch(s, ids, ps)), ps), k)
  {
    hide *;
    InsertIsRun(s, ids, slots, ps);
    RunIsNew(s, ids, ps);
    PathSlotsTail(s, ids, slots, ps);
    RunPages(s, ids, PathSlots(s, ids, slots, ps), LongestMatch(s, ids, ps), |ids|, ps, k);
  }

  lemma {:induction false} PathSlotsTail(s: Store, ids: seq<int>, slots: seq<int>, ps: Pos)
    requires |ids| == |slots| == |PathSlots(s, ids, slots, ps)|
    ensures PathSlots(s, ids, slots, ps)[LongestMatch(s, ids, ps)..|ids|] == From(slots, LongestMatch(s, ids, ps))
  {
    hide LongestMatch, StoreOk;
  }

  lemma {:induction false} InsertRunOn(s: Store, ids: seq<int>, slots: seq<int>, ps: Pos)
    requires StoreOk(s, ps) && |ids| == |slots| && Aligned(|ids|, ps)
    ensures |PathSlots(s, ids, slots, ps)| == |ids|
    ensures RunOn(s, ids, PathSlots(s, ids, slots, ps), LongestMatch(s, ids, ps), |ids|, ps)
  {
    InsertIsRun(s, ids, slots, ps);
    RunIsNew(s, ids, ps);
    var m := LongestMatch(s, ids, ps);
    hide LongestMatch, RunKeys, Aligned;
    assert m > 0 ==> PathSlots(s, ids, slots, ps)[..m] == s[ids[..m]];
  }

  lemma {:induction false} InsertStoreOk(s: Store, ids: seq<int>, slots: seq<int>, ps: Pos)
    requires StoreOk(s, ps) && |ids| == |slots| && Aligned(|ids|, ps)
    ensures StoreOk(Inserted(s, ids, slots, ps), ps)
    ensures ids == [] || ids in Inserted(s, ids, slots, ps)
  {
    hide StoreOk, RunOn, PathSlots, Aligned, Inserted, Run;
    var m := LongestMatch(s, ids, ps);
    InsertIsRun(s, ids, slots, ps);
    InsertRunOn(s, ids, slots, ps);
    RunStoreOk(s, ids, PathSlots(s, ids, slots, ps), m, |ids|, ps);
    InsertedWhole(s, ids, slots, ps);
  }

  lemma {:induction false} InsertedWhole(s: Store, ids: seq<int>, slots: seq<int>, ps: Pos)
    requires StoreOk(s, ps) && |ids| == |slots| && Aligned(|ids|, ps)
    ensures ids == [] || ids in Inserted(s, ids, slots, ps)
  {
    hide StoreOk, Aligned;
    var m := LongestMatch(s, ids, ps);
    assert ids[..|ids|] == ids;
    assert m < |ids| ==> ids in RunKeys(ids, m, |ids|, ps);
  }

  /** The whole pages of a token sequence. */
  ghost function Pages(ids: seq<int>, ps: Pos): seq<int> {
    Upto(ids, AlignDown(|ids|, ps))
  }

  /** A locked path that leads into `ids` is never longer than the longest stored prefix. */
  lemma {:induction false} MatchCoversLock(c: Cache, u: int, ids: seq<int>, ps: Pos)
    requires CacheOk(c, ps) && Follows(c, u, ids, ps)
    ensures |Locked(c, u)| <= LongestMatch(c.store, Pages(ids, ps), ps) <= AlignDown(|ids|, ps) == |Pages(ids, ps)|
  {
    var a, h := Pages(ids, ps), Locked(c, u);
    assert h == ids[..|h|];
    AlignedFacts(|a|, |h|, ps);
    assert a[..|h|] == h && (h != [] ==> h in c.store);
  }

  // ---- page conservation

  /** Handing tokens over moves the request's own pages - those of `row` from its lock's path on - into the cache,
  except, for a request that goes on, the pages behind the last whole one. */
  lemma {:induction false} CacheReqBalance(c: Cache, u: int, ids: seq<int>, row: seq<int>, finished: bool, ps: Pos,
                                           k: Pick)
    requires CacheOk(c, ps) && Follows(c, u, ids, ps) && |ids| == |row|
    ensures Balance(CacheReqOp(c, u, ids, row, finished, ps), ps, k)
            + (if finished then 0 else Count(Strided(From(row, AlignDown(|ids|, ps)), ps), k))
         == Balance(c, ps, k) + Count(Strided(From(row, |Locked(c, u)|), ps), k)
  {
    hide Aligned, AlignDown, LongestMatch, Inserted, Strided, Count, StorePages, StoreOk, Slice, From;
    var il := AlignDown(|ids|, ps);
    MatchCoversLock(c, u, ids, ps);
    var m := LongestMatch(c.store, Pages(ids, ps), ps);
    InsertPages(c.store, Pages(ids, ps), Upto(row, il), ps, k);
    RowParts(row, |Locked(c, u)|, m, il, ps, k);
    FreedPages(c, u, ids, row, finished, ps, k);
  }

  /** Which pages a hand-over returns to the free list. */
  lemma {:induction false} FreedPages(c: Cache, u: int, ids: seq<int>, row: seq<int>, finished: bool, ps: Pos, k: Pick)
    ensures Count(CacheReqOp(c, u, ids, row, finished, ps).free, k)
         == Count(c.free, k) + Count(Strided(Slice(row, |Locked(c, u)|, LongestMatch(c.store, Pages(ids, ps), ps)), ps),
           k)
            + (if finished then Count(Strided(From(row, AlignDown(|ids|, ps)), ps), k) else 0)
  {
    hide Slice, Strided, From, LongestMatch, AlignDown, Inserted, Count;
    var a := Strided(Slice(row, |Locked(c, u)|, LongestMatch(c.store, Pages(ids, ps), ps)), ps);
    CountConcat(c.free, a, k);
    CountConcat(c.free + a, Strided(From(row, AlignDown(|ids|, ps)), ps), k);
  }

  lemma {:induction false} RowParts(row: seq<int>, hl: nat, m: nat, il: nat, ps: Pos, k: Pick)
    requires hl <= m <= il <= |row| && Aligned(hl, ps) && Aligned(m, ps) && Aligned(il, ps)
    ensures Count(Strided(From(row, hl), ps), k)
         == Count(Strided(Slice(row, hl, m), ps), k) + Count(Strided(From(Upto(row, il), m), ps), k)
            + Count(Strided(From(row, il), ps), k)
  {
    hide Aligned, Strided, Count;
    RowPart(row, hl, m, |row|, ps, k);
    RowPart(row, m, il, |row|, ps, k);
    assert row[hl..] == row[hl..|row|] && row[il..] == row[il..|row|];
    assert row[..m][hl..] == row[hl..m] && row[..il][m..] == row[m..il];
  }

  lemma {:induction false} RowPart(row: seq<int>, lo: nat, mid: nat, hi: nat, ps: Pos, k: Pick)
    requires lo <= mid <= hi <= |row| && Aligned(lo, ps) && Aligned(mid, ps)
    ensures Count(Strided(row[lo..hi], ps), k)
         == Count(Strided(row[lo..mid], ps), k) + Count(Strided(row[mid..hi], ps), k)
  {
    hide *;
    StridedSplit(row, lo, mid, hi, ps);
    CountConcat(Strided(row[lo..mid], ps), Strided(row[mid..hi], ps), k);
  }

  /** What a hand-over does to locks and stored prefixes. */
  lemma {:induction false} CacheReqKeeps(c: Cache, u: int, ids: seq<int>, row: seq<int>, finished: bool, ps: Pos)
    requires CacheOk(c, ps) && |ids| == |row|
    ensures CacheOk(CacheReqOp(c, u, ids, row, finished, ps), ps)
    ensures var c' := CacheReqOp(c, u, ids, row, finished, ps);
            && c.store.Keys <= c'.store.Keys && (forall p | p in c.store :: c'.store[p] == c.store[p])
            && c'.held == (if finished then c.held - {u} else c.held[u := Pages(ids, ps)])
  {
    hide StoreOk, Inserted, LongestMatch, RunKeys, AlignDown, Strided, Slice, From;
    InsertKeeps(c.store, Pages(ids, ps), Upto(row, AlignDown(|ids|, ps)), ps);
    InsertStoreOk(c.store, Pages(ids, ps), Upto(row, AlignDown(|ids|, ps)), ps);
    assert (c.held - {u})[u := Pages(ids, ps)] == c.held[u := Pages(ids, ps)];
  }

  /** An allocation hands out as many pages as asked for, all taken from the cache's. */
  lemma {:induction false} AllocBalance(c: Cache, need: nat, ev: Eviction, ps: Pos, k: Pick)
    requires LegalEviction(c, need, ev, ps)
    ensures |Allocated(c, need, ev, ps)| == need
    ensures Balance(AllocOp(c, need, ev, ps), ps, k) + Count(Allocated(c, need, ev, ps), k) == Balance(c, ps, k)
  {
    hide Strided, StorePages, Count, StoreOk, Aligned;
    var f := Refilled(c, ev, ps);
    assert f == f[..need] + f[need..];
    CountConcat(f[..need], f[need..], k);
    CountConcat(c.free, Strided(ev.slots, ps), k);
    EvictedPages(c, need, ev, ps, k);
  }

  lemma {:induction false} EvictedPages(c: Cache, need: nat, ev: Eviction, ps: Pos, k: Pick)
    requires LegalEviction(c, need, ev, ps)
    ensures StorePages(c.store, ps, k) == StorePages(ev.store, ps, k) + Count(Strided(ev.slots, ps), k)
  {
    hide Strided, StorePages, StoreOk, Aligned;
    assert need > |c.free| ==> PagesMoved(c.store, ev.store, ev.slots, ps, k);
    assert Strided([], ps) == [];
  }

  /** Locked paths survive an allocation with their slots. */
  lemma {:induction false} AllocKeeps(c: Cache, need: nat, ev: Eviction, ps: Pos)
    requires CacheOk(c, ps) && LegalEviction(c, need, ev, ps)
    ensures CacheOk(AllocOp(c, need, ev, ps), ps)
    ensures forall u | u in c.held && Locked(c, u) != [] ::
              Locked(c, u) in ev.store && ev.store[Locked(c, u)] == c.store[Locked(c, u)]
  {
    forall u | u in c.held && Locked(c, u) != []
      ensures Locked(c, u) in ev.store && ev.store[Locked(c, u)] == c.store[Locked(c, u)]
    {
      assert Locked(c, u) in Protected(c.store, c.held);
    }
  }

  /** Whatever does not exceed the available pages can be allocated. */
  lemma {:induction false} CanAllocate(c: Cache, need: nat, ps: Pos) returns (ev: Eviction)
    requires CacheOk(c, ps) && need <= Avail(c)
    ensures LegalEviction(c, need, ev, ps)
  {
    hide Strided, Unprotected, EvictOk, StoreOk;
    if need <= |c.free| {
      ev := Eviction(c.store, []);
    } else {
      var store, slots := EvictAll(c.store, c.held, ps);
      ev := Eviction(store, slots);
    }
  }

  // ---- the available size

  lemma {:induction false} StoreSplit(s: Store, held: map<int, seq<int>>)
    ensures |s.Keys| == |Protected(s, held)| + |Unprotected(s, held)|
  {
    assert s.Keys == Protected(s, held) + Unprotected(s, held);
  }

  /** The available pages and the protected ones together are all pages of the cache. */
  lemma {:induction false} AvailBalance(c: Cache, ps: Pos)
    requires StoreOk(c.store, ps)
    ensures Avail(c) + |Protected(c.store, c.held)| == Balance(c, ps, All)
  {
    hide Protected, Unprotected, StorePages, Count, StoreOk;
    StoreCounts(c.store, ps);
    CountAll(c.free);
    StoreSplit(c.store, c.held);
  }

  lemma {:induction false} AllocProtects(c: Cache, need: nat, ev: Eviction, ps: Pos)
    requires LegalEviction(c, need, ev, ps)
    ensures Protected(ev.store, c.held) == Protected(c.store, c.held)
  {
    hide StorePages, Strided, Count, Aligned, StoreOk;
    forall p | p in Protected(c.store, c.held)
      ensures p in ev.store
    {
      assert p in c.store;
    }
  }

  /** An allocation of `need` pages lowers the available size by exactly `need`. */
  lemma {:induction false} AllocAvail(c: Cache, need: nat, ev: Eviction, ps: Pos)
    requires CacheOk(c, ps) && LegalEviction(c, need, ev, ps)
    ensures Avail(AllocOp(c, need, ev, ps)) == Avail(c) - need
  {
    hide StoreOk, Balance, Avail, Protected, EvictOk, Allocated, Refilled, Count, Strided;
    var c' := AllocOp(c, need, ev, ps);
    AllocBalance(c, need, ev, ps, All);
    AvailBalance(c, ps);
    AvailBalance(c', ps);
    AllocProtects(c, need, ev, ps);
    CountAll(Allocated(c, need, ev, ps));
  }

  /** Handing tokens over never lowers the available size. */
  lemma {:induction false} CacheReqAvail(c: Cache, u: int, ids: seq<int>, row: seq<int>, finished: bool, ps: Pos)
    requires CacheOk(c, ps) && Follows(c, u, ids, ps) && |ids| == |row|
    ensures Avail(CacheReqOp(c, u, ids, row, finished, ps)) >= Avail(c)
  {
    hide StoreOk, Balance, Avail, Protected, CacheReqOp, Count, Strided, From, AlignDown, RunKeys;
    var c' := CacheReqOp(c, u, ids, row, finished, ps);
    var il, hl := AlignDown(|ids|, ps), |Locked(c, u)|;
    CacheReqBalance(c, u, ids, row, finished, ps, All);
    CacheReqKeeps(c, u, ids, row, finished, ps);
    MatchCoversLock(c, u, ids, ps);
    AvailBalance(c, ps);
    AvailBalance(c', ps);
    ProtectedGrowth(c, u, ids, row, finished, ps);
    OwnPages(ids, row, hl, il, ps);
    CountAll(Strided(From(row, hl), ps));
    CountAll(Strided(From(row, il), ps));
  }

  /** The pages of a row between two aligned positions are as many as the prefixes ending there. */
  lemma {:induction false} OwnPages(ids: seq<int>, row: seq<int>, hl: nat, il: nat, ps: Pos)
    requires hl <= il <= |ids| == |row| && Aligned(hl, ps) && Aligned(il, ps)
    ensures |Strided(From(row, hl), ps)| == |Strided(From(row, il), ps)| + |RunKeys(ids, hl, il, ps)|
  {
    hide Strided, RunKeys, DivCeil, Aligned;
    assert row[hl..] == row[hl..|row|] && row[il..] == row[il..|row|];
    StridedSplit(row, hl, il, |row|, ps);
    StridedLength(row[hl..il], ps);
    RunCount(ids, hl, il, ps);
  }

  /** A hand-over protects nothing new, except, for a request that goes on, the run its lock moves along. */
  lemma {:induction false} ProtectedGrowth(c: Cache, u: int, ids: seq<int>, row: seq<int>, finished: bool, ps: Pos)
    requires CacheOk(c, ps) && Follows(c, u, ids, ps) && |ids| == |row|
    ensures var c' := CacheReqOp(c, u, ids, row, finished, ps);
            |Protected(c'.store, c'.held)| <= |Protected(c.store, c.held)|
              + (if finished then 0 else |RunKeys(ids, |Locked(c, u)|, AlignDown(|ids|, ps), ps)|)
  {
    var c' := CacheReqOp(c, u, ids, row, finished, ps);
    var il, hl := AlignDown(|ids|, ps), |Locked(c, u)|;
    var run := if finished then {} else RunKeys(ids, hl, il, ps);
    CacheReqKeeps(c, u, ids, row, finished, ps);
    forall p | p in Protected(c'.store, c'.held)
      ensures p in Protected(c.store, c.held) + run
    {
      NewlyProtected(c, c', u, ids, finished, ps, p);
    }
    SubsetSize(Protected(c'.store, c'.held), Protected(c.store, c.held) + run);
    UnionSize(Protected(c.store, c.held), run);
  }

  lemma {:induction false} NewlyProtected(c: Cache, c': Cache, u: int, ids: seq<int>, finished: bool, ps: Pos,
                                          p: seq<int>)
    requires CacheOk(c, ps) && CacheOk(c', ps) && Follows(c, u, ids, ps) && p in Protected(c'.store, c'.held)
    requires c'.held == if finished then c.held - {u} else c.held[u := Pages(ids, ps)]
    ensures p in Protected(c.store, c.held)
         || (!finished && p in RunKeys(ids, |Locked(c, u)|, AlignDown(|ids|, ps), ps))
  {
    var v :| v in c'.held && p <= c'.held[v];
    assert Aligned(|p|, ps) && 0 < |p|;
    if v != u {
      PrefixStored(c, ps, v, p);
    } else if |p| <= |Locked(c, u)| {
      PrefixesComparable(p, Locked(c, u), ids);
      PrefixStored(c, ps, u, p);
    }
  }

  /** Aligned prefixes of a locked path are stored and protected. */
  lemma {:induction false} PrefixStored(c: Cache, ps: Pos, v: int, p: seq<int>)
    requires CacheOk(c, ps) && v in c.held && p <= c.held[v] && 0 < |p| && Aligned(|p|, ps)
    ensures p in Protected(c.store, c.held)
  {
    assert p == c.held[v][..|p|];
    if |p| == |c.held[v]| {
      assert p == c.held[v];
    } else {
      assert PrefixKept(c.store, c.held[v], |p|);
    }
  }

  lemma {:induction false} UnionSize<T>(a: set<T>, b: set<T>)
    ensures |a + b| <= |a| + |b|
  {
    assert a + b == a + (b - a);
    SubsetSize(b - a, b);
  }

  /** With no lock at all, everything stored is available. */
  lemma {:induction false} NothingHeld(c: Cache, ps: Pos)
    requires StoreOk(c.store, ps) && c.held == map[]
    ensures Avail(c) == Balance(c, ps, All)
  {
    hide Balance, Avail, StoreOk;
    assert Protected(c.store, c.held) == {};
    AvailBalance(c, ps);
  }

  /** A lock protects at most the pages of its path. */
  lemma {:induction false} LockAvail(c: Cache, u: int, path: seq<int>, ps: Pos)
    requires StoreOk(c.store, ps) && u !in c.held && Aligned(|path|, ps)
    ensures Avail(LockOp(c, u, path)) <= Avail(c) <= Avail(LockOp(c, u, path)) + |RunKeys(path, 0, |path|, ps)|
  {
    var c' := LockOp(c, u, path);
    var p, p', run := Protected(c.store, c.held), Protected(c'.store, c'.held), RunKeys(path, 0, |path|, ps);
    forall q | q in p
      ensures q in p'
    {
      var v :| v in c.held && q <= c.held[v];
      assert v in c'.held && c'.held[v] == c.held[v];
    }
    forall q | q in p'
      ensures q in p + run
    {
      var v :| v in c'.held && q <= c'.held[v];
      assert Aligned(|q|, ps) && 0 < |q|;
    }
    AvailBalance(c, ps);
    AvailBalance(c', ps);
    SubsetSize(p, p');
    SubsetSize(p', p + run);
    UnionSize(p, run);
  }

}
