/** The cache manager: the free list, the page table and the prefix cache changed in place, specified against the value
of CacheSpec. */
module CacheManagement {
  import opened Paging
  import opened Sums
  import opened PrefixStore
  import opened CacheSpec
  import opened Requests
  import opened RadixTree
  import opened RadixOps
  import opened RadixStore
  import opened RadixUse
  import opened RadixCache
  import opened Tables

  // ---- allocation as a function of the requests

  /** Pages that the requests of a batch need together. */
  function NeedOf(rs: seq<Req>, ps: Pos): nat {
    if rs == [] then 0 else PagesNeeded(rs[0], ps) + NeedOf(rs[1..], ps)
  }

  /** The part of a row that an allocation writes for one request, in whole pages. */
  function PageStretch(r: Req, ps: Pos): Stretch {
    Stretch(r.row, DivCeil(r.cachedLen, ps) * ps, DivCeil(r.deviceLen, ps) * ps)
  }

  /** The stretches an allocation writes: those of the requests that need pages. */
  function AllocationInfo(rs: seq<Req>, ps: Pos): seq<Stretch> {
    if rs == [] then []
    else (if PagesNeeded(rs[0], ps) > 0 then [PageStretch(rs[0], ps)] else []) + AllocationInfo(rs[1..], ps)
  }

  /** The table after the pages were handed to the requests in order. */
  function AssignTo(t: Table, rs: seq<Req>, pages: seq<int>, ps: Pos): Table
    decreases |rs|
  {
    if rs == [] then t
    else
      var n := PagesNeeded(rs[0], ps);
      AssignTo(WriteRow(t, rs[0].row, AlignUp(rs[0].cachedLen, ps), Expand(Upto(pages, n), ps)), rs[1..],
        From(pages, n), ps)
  }

  lemma {:induction false} NeedSnoc(rs: seq<Req>, k: nat, ps: Pos)
    requires k < |rs|
    ensures NeedOf(rs[..k + 1], ps) == NeedOf(rs[..k], ps) + PagesNeeded(rs[k], ps)
    ensures AllocationInfo(rs[..k + 1], ps)
         == AllocationInfo(rs[..k], ps) + (if PagesNeeded(rs[k], ps) > 0 then [PageStretch(rs[k], ps)] else [])
    decreases k
  {
    hide PagesNeeded, PageStretch;
    if k == 0 {
      assert rs[..1] == [rs[0]] && rs[..1][1..] == [] && rs[..0] == [];
    } else {
      NeedSnoc(rs[1..], k - 1, ps);
      assert rs[..k + 1][1..] == rs[1..][..k] && rs[..k][1..] == rs[1..][..k - 1];
    }
  }

  /** A request whose pages fit its row. */
  predicate FitsRow(r: Req, rows: nat, width: nat, ps: Pos) {
    0 <= r.row < rows && r.cachedLen <= r.deviceLen && AlignUp(r.deviceLen, ps) <= width
  }

  predicate FitRows(rs: seq<Req>, rows: nat, width: nat, ps: Pos) {
    forall i {:trigger rs[i]} | 0 <= i < |rs| :: FitsRow(rs[i], rows, width, ps)
  }

  /** The stretch of one request: as many slots as its new pages have. */
  lemma {:induction false} StretchSize(r: Req, ps: Pos)
    requires r.cachedLen <= r.deviceLen
    ensures var x := PageStretch(r, ps);
            && x.row == r.row && x.from == AlignUp(r.cachedLen, ps) && x.to == AlignUp(r.deviceLen, ps)
              && x.from <= x.to
            && x.to - x.from == PagesNeeded(r, ps) * ps
  {
    hide AlignUp, DivCeil;
    DivCeilIsDivision(r.cachedLen, ps);
    DivCeilIsDivision(r.deviceLen, ps);
    AlignUpMono(r.cachedLen, r.deviceLen, ps);
    var c, d := DivCeil(r.cachedLen, ps), DivCeil(r.deviceLen, ps);
    MultiplesApart(d, c, ps);
    if d > c {
      assert d * ps - c * ps == (d - c) * ps;
    } else {
      assert d == c && PagesNeeded(r, ps) == 0;
      assert 0 * ps == 0;
    }
  }

  lemma {:induction false} InfoInside(t: Table, rs: seq<Req>, rows: nat, width: nat, ps: Pos)
    requires Shape(t, rows, width) && FitRows(rs, rows, width, ps)
    ensures Inside(t, AllocationInfo(rs, ps))
    decreases |rs|
  {
    hide PagesNeeded, PageStretch, AlignUp;
    if rs != [] {
      assert forall i | 0 <= i < |rs[1..]| :: rs[1..][i] == rs[i + 1];
      InfoInside(t, rs[1..], rows, width, ps);
      StretchSize(rs[0], ps);
      var l, rest := AllocationInfo(rs, ps), AllocationInfo(rs[1..], ps);
      if PagesNeeded(rs[0], ps) > 0 {
        assert l == [PageStretch(rs[0], ps)] + rest;
        assert forall i | 1 <= i < |l| :: l[i] == rest[i - 1];
      } else {
        assert l == rest;
      }
    }
  }

  lemma {:induction false} CutExpand(pages: seq<int>, n: nat, ps: Pos)
    requires n <= |pages|
    ensures Upto(Expand(pages, ps), n * ps) == Expand(pages[..n], ps)
    ensures From(Expand(pages, ps), n * ps) == Expand(pages[n..], ps)
  {
    hide Expand;
    assert pages == pages[..n] + pages[n..];
    ExpandConcat(pages[..n], pages[n..], ps);
    ExpandSize(pages[..n], ps);
  }

  /** Writing the slots of the allocated pages through the info list assigns the pages to the requests. */
  lemma {:induction false} WrittenIsAssigned(t: Table, rs: seq<Req>, pages: seq<int>, rows: nat, width: nat, ps: Pos)
    requires FitRows(rs, rows, width, ps) && |pages| == NeedOf(rs, ps)
    ensures Written(t, AllocationInfo(rs, ps), Expand(pages, ps)) == AssignTo(t, rs, pages, ps)
    ensures |FlatRows(AllocationInfo(rs, ps))| == |Expand(pages, ps)|
    decreases |rs|
  {
    hide PagesNeeded, PageStretch, AlignUp, Expand, WriteRow, FlatRows;
    if rs == [] {
      ExpandSize(pages, ps);
      FlatNone();
      assert Expand(pages, ps) == [];
    } else {
      var r, n := rs[0], PagesNeeded(rs[0], ps);
      assert forall i | 0 <= i < |rs[1..]| :: rs[1..][i] == rs[i + 1];
      StretchSize(r, ps);
      CutExpand(pages, n, ps);
      var t1 := WriteRow(t, r.row, AlignUp(r.cachedLen, ps), Expand(pages[..n], ps));
      WrittenIsAssigned(t1, rs[1..], pages[n..], rows, width, ps);
      ExpandSize(pages, ps);
      ExpandSize(pages[n..], ps);
      InfoStep(t, rs, pages, ps);
    }
  }

  lemma {:induction false} InfoStep(t: Table, rs: seq<Req>, pages: seq<int>, ps: Pos)
    requires rs != [] && PagesNeeded(rs[0], ps) <= |pages| && rs[0].cachedLen <= rs[0].deviceLen
    ensures var n := PagesNeeded(rs[0], ps);
            var t1 := WriteRow(t, rs[0].row, AlignUp(rs[0].cachedLen, ps), Expand(pages[..n], ps));
            && Written(t, AllocationInfo(rs, ps), Expand(pages, ps))
               == Written(t1, AllocationInfo(rs[1..], ps), Expand(pages[n..], ps))
            && |FlatRows(AllocationInfo(rs, ps))| == n * ps + |FlatRows(AllocationInfo(rs[1..], ps))|
  {
    hide PagesNeeded, PageStretch, AlignUp, Expand, WriteRow;
    var n := PagesNeeded(rs[0], ps);
    StretchSize(rs[0], ps);
    CutExpand(pages, n, ps);
    var l, rest := AllocationInfo(rs, ps), AllocationInfo(rs[1..], ps);
    if n > 0 {
      assert l == [PageStretch(rs[0], ps)] + rest && l[1..] == rest;
    } else {
      assert l == rest && 0 * ps == 0 && pages[..0] == [] && pages[0..] == pages;
      NoExpand(ps);
      WriteNone(t, rs[0].row, AlignUp(rs[0].cachedLen, ps));
    }
  }

  lemma {:induction false} NoExpand(ps: Pos)
    ensures Expand([], ps) == []
  {
  }

  // ---- the manager

  /** What one allocation changed, so that it can be undone: the slots handed out, and each rewritten stretch with what
  it held before. */
  datatype AllocationToken = AllocationToken(slots: seq<int>, overwrites: seq<Overwrite>)

  datatype Overwrite = Overwrite(part: Stretch, held: seq<int>)

  /** All lists in order, one behind the other. */
  function Chained(l: seq<seq<int>>): seq<int> {
    if l == [] then [] else Chained(l[..|l| - 1]) + l[|l| - 1]
  }

  lemma {:induction false} ChainedSnoc(l: seq<seq<int>>, x: seq<int>)
    ensures Chained(l + [x]) == Chained(l) + x
  {
    assert (l + [x])[..|l|] == l;
  }

  ghost predicate PageStarts(slots: seq<int>, ps: Pos) {
    forall x {:trigger x in slots} | x in slots :: x % ps == 0
  }

  lemma {:induction false} EachStarts(slots: seq<int>)
    ensures PageStarts(slots, 1)
  {
  }

  method AllStarts(slots: seq<int>, ps: Pos) returns (ok: bool)
    ensures ok <==> PageStarts(slots, ps)
  {
    for k := 0 to |slots|
      invariant PageStarts(slots[..k], ps)
    {
      if slots[k] % ps != 0 {
        assert slots[k] in slots;
        return false;
      }
      assert slots[..k + 1] == slots[..k] + [slots[k]];
    }
    assert slots[..|slots|] == slots;
    return true;
  }

  class CacheManager {
    const pageSize: Pos
    const numPages: nat
    const pageTable: array2<int>
    const prefixCache: RadixPrefixCache
    var freeSlots: seq<int>
    var lazy: bool
    var lazyFreeList: seq<seq<int>>
    var clock: int
    ghost var lastUse: Uses

    /** The parts are in order; no node of the tree is newer than `clock`, and below the root none is older than a node
    under it. The clock ticks once for every operation that reads the time, and `lastUse` records for each stored prefix
    the last one that matched or inserted through it. */
    ghost predicate Valid()
      reads this, prefixCache, prefixCache.nodes
    {
      && prefixCache.Valid() && prefixCache.pageSize == pageSize && (!lazy ==> lazyFreeList == [])
      && ClockOk(Snap(prefixCache.nodes), prefixCache.root, clock) && lastUse == prefixCache.LastUses()
    }

    /** The cache as a value. Pages freed lazily count as free: they join the free list, in order, when the region ends.
    */
    ghost function View(): Cache
      reads this, prefixCache
    {
      Cache(prefixCache.Store(), prefixCache.Held(), freeSlots + Chained(lazyFreeList))
    }

    constructor (numPages: nat, pageSize: Pos, pageTable: array2<int>)
      ensures Valid() && fresh(prefixCache) && fresh(prefixCache.nodes) && !lazy
      ensures this.numPages == numPages && this.pageSize == pageSize && this.pageTable == pageTable
      ensures View() == Cache(map[], map[], Range(0, numPages, pageSize)) && prefixCache.held == map[]
      ensures lastUse == map[]
    {
      this.numPages, this.pageSize, this.pageTable := numPages, pageSize, pageTable;
      freeSlots := Range(0, numPages, pageSize);
      lazy, lazyFreeList := false, [];
      clock, lastUse := 0, map[];
      prefixCache := new RadixPrefixCache(pageSize, 0);
    }

    /** The cache seen is in order, and its available pages are what the running sizes say. */
    lemma {:induction false} ViewOk()
      requires Valid()
      ensures CacheOk(View(), pageSize)
      ensures prefixCache.evictableSize == |Unprotected(prefixCache.Store(), prefixCache.Held())| * pageSize
      ensures prefixCache.protectedSize == |Protected(prefixCache.Store(), prefixCache.Held())| * pageSize
    {
      hide WF, RefExact, Protected, StoreOk, StoreOf, Size;
      var t := Snap(prefixCache.nodes);
      assert t.Keys == prefixCache.nodes;
      SizesCountPages(t, prefixCache.root, pageSize, prefixCache.held);
      HeldStored(t, prefixCache.root, pageSize, prefixCache.held);
    }

    /** The locks of the value are those of the tree. */
    lemma {:induction false} ViewHeld()
      ensures View().held.Keys == prefixCache.held.Keys
      ensures forall u | u in prefixCache.held :: View().held[u] == prefixCache.held[u].path
    {
    }

    // ---- reading

    method AvailableSize() returns (n: int)
      requires Valid() && !lazy
      ensures n == Avail(View()) * pageSize
    {
      hide StoreOf, Inv, Unprotected, Protected, UsesOf, ClockOk;
      ViewOk();
      n := prefixCache.evictableSize + |freeSlots| * pageSize;
      assert freeSlots + Chained([]) == freeSlots;
      Distribute(|Unprotected(prefixCache.Store(), prefixCache.Held())|, |freeSlots|, pageSize);
    }

    lemma {:induction false} NothingLazy()
      requires Valid() && !lazy
      ensures View().free == freeSlots
    {
      hide StoreOf, Inv;
      assert freeSlots + Chained([]) == freeSlots;
    }

    lemma {:induction false} UsesStored()
      requires Valid()
      ensures lastUse.Keys == View().store.Keys
    {
      hide Inv, StoreOf, UsesOf, ClockOk;
    }

    /** No use is recorded later than now, so that whatever the next operation uses becomes the latest. */
    lemma {:induction false} UsesPast()
      requires Valid()
      ensures forall p | p in lastUse :: lastUse[p] <= clock
    {
      hide StoreOf, UsesOf, ClockOk, WF, RefExact, Size;
      UsesByNow(Snap(prefixCache.nodes), prefixCache.root, pageSize, clock);
    }

    /** Free and cached pages together are all pages. */
    method CountsMatch() returns (ok: bool)
      requires Valid() && !lazy
      ensures ok <==> |View().free| + |View().store.Keys| == numPages
    {
      hide StoreOf, Inv, Unprotected, Protected, UsesOf, ClockOk;
      ViewOk();
      var cachePages := (prefixCache.evictableSize + prefixCache.protectedSize) / pageSize;
      ok := |freeSlots| + cachePages == numPages;
      assert freeSlots + Chained([]) == freeSlots;
      var s, h := prefixCache.Store(), prefixCache.Held();
      StoreSplit(s, h);
      Distribute(|Unprotected(s, h)|, |Protected(s, h)|, pageSize);
      ModUnique(|s.Keys| * pageSize, pageSize, |s.Keys|, 0);
    }

    /** The idle check: free and cached pages together are all pages, and each free slot starts a page. */
    method CheckIntegrity() returns (ok: bool)
      requires Valid() && !lazy
      ensures ok <==> |View().free| + |View().store.Keys| == numPages && PageStarts(View().free, pageSize)
    {
      hide Valid, StoreOf, Inv, UsesOf;
      ok := CountsMatch();
      NothingLazy();
      if ok && pageSize > 1 {
        ok := AllStarts(freeSlots, pageSize);
      } else if pageSize == 1 {
        EachStarts(freeSlots);
      }
    }

    // ---- matching and locking

    /** The next reading of the time. */
    method Tick()
      requires Valid()
      modifies this`clock
      ensures Valid() && clock == old(clock) + 1
    {
      hide Inv, ClockOk, UsesOf;
      ClockSub(Snap(prefixCache.nodes), Snap(prefixCache.nodes), prefixCache.root, clock, clock + 1);
      clock := clock + 1;
    }

    /** The longest cached prefix of a request's tokens but for the last one, which is always computed anew. */
    method MatchReq(ids: seq<int>) returns (h: Handle)
      requires Valid() && ids != []
      modifies this`clock, this`lastUse, prefixCache`nodes, prefixCache.nodes
      ensures Valid() && View() == old(View()) && prefixCache.held == old(prefixCache.held)
      ensures old(prefixCache.nodes) <= prefixCache.nodes && fresh(prefixCache.nodes - old(prefixCache.nodes))
      ensures h.cachedLen == LongestMatch(View().store, ids[..|ids| - 1], pageSize) < |ids|
      ensures prefixCache.HandleOk(h) && h.node.path == ids[..h.cachedLen]
      ensures clock == old(clock) + 1
      ensures lastUse == Touched(old(lastUse), View().store.Keys, 0, ids[..h.cachedLen], clock)
    {
      hide Inv, StoreOf, LongestMatch, ClockOk, UsesOf, Touched;
      Tick();
      h := prefixCache.MatchPrefix(ids[..|ids| - 1], clock);
      lastUse := Touched(lastUse, prefixCache.Store().Keys, 0, h.node.path, clock);
      assert ids[..|ids| - 1][..h.cachedLen] == ids[..h.cachedLen];
    }

    /** The slots along a handle, which are those stored for its path. */
    method MatchedIndices(h: Handle) returns (r: seq<int>)
      requires Valid() && prefixCache.HandleOk(h)
      ensures r == SlotsOf(View().store, h.node.path) && |r| == h.cachedLen
    {
      hide Inv, SlotsOf, StoreOf;
      r := prefixCache.GetMatchedIndices(h);
      MatchedSlots(Snap(prefixCache.nodes), prefixCache.nodes, prefixCache.root, pageSize, prefixCache.held,
                   prefixCache.evictableSize, prefixCache.protectedSize, h.node);
    }

    method Lock(h: Handle, ghost u: int)
      requires Valid() && prefixCache.HandleOk(h) && u !in prefixCache.held
      modifies prefixCache`evictableSize, prefixCache`protectedSize, prefixCache`held, prefixCache.nodes`refCount
      ensures Valid() && View() == LockOp(old(View()), u, h.node.path)
      ensures prefixCache.held == old(prefixCache.held)[u := h.node] && prefixCache.nodes == old(prefixCache.nodes)
    {
      hide Inv, StoreOf, ClockOk, UsesOf;
      ghost var t := Snap(prefixCache.nodes);
      prefixCache.Lock(h, u);
      ClockSub(t, Snap(prefixCache.nodes), prefixCache.root, clock, clock);
      assert HeldPaths(prefixCache.held) == old(HeldPaths(prefixCache.held))[u := h.node.path];
    }

    method Unlock(h: Handle, ghost u: int)
      requires Valid() && u in prefixCache.held && prefixCache.held[u] == h.node
      modifies prefixCache`evictableSize, prefixCache`protectedSize, prefixCache`held, prefixCache.nodes`refCount
      ensures Valid() && View() == UnlockOp(old(View()), u)
      ensures prefixCache.held == old(prefixCache.held) - {u} && prefixCache.nodes == old(prefixCache.nodes)
    {
      hide Inv, StoreOf, ClockOk, UsesOf;
      ghost var t := Snap(prefixCache.nodes);
      prefixCache.Unlock(h, u);
      ClockSub(t, Snap(prefixCache.nodes), prefixCache.root, clock, clock);
      assert HeldPaths(prefixCache.held) == old(HeldPaths(prefixCache.held)) - {u};
    }

    // ---- freeing

    /** Frees the pages of `indices`: at once, or when the lazy region ends. */
    method Free(indices: seq<int>)
      requires Valid()
      modifies this`freeSlots, this`lazyFreeList
      ensures Valid() && View() == FreeOp(old(View()), indices, pageSize)
    {
      hide Inv, StoreOf, UsesOf;
      if lazy {
        ChainedSnoc(lazyFreeList, Strided(indices, pageSize));
        assert freeSlots + (Chained(lazyFreeList) + Strided(indices, pageSize))
            == freeSlots + Chained(lazyFreeList) + Strided(indices, pageSize);
        lazyFreeList := lazyFreeList + [Strided(indices, pageSize)];
      } else {
        assert freeSlots + Chained([]) == freeSlots;
        if |indices| > 0 {
          freeSlots := freeSlots + Strided(indices, pageSize);
        }
        assert freeSlots + Chained([]) == freeSlots;
      }
    }

    /** Enters the region in which pages are freed lazily. */
    method EnterLazyRegion()
      requires Valid() && !lazy
      modifies this`lazy, this`lazyFreeList
      ensures Valid() && lazy && View() == old(View())
    {
      hide Inv, StoreOf, UsesOf;
      lazy, lazyFreeList := true, [];
    }

    /** Leaves it: everything freed meanwhile joins the free list in one go. */
    method LeaveLazyRegion()
      requires Valid() && lazy
      modifies this`lazy, this`lazyFreeList, this`freeSlots
      ensures Valid() && !lazy && View() == old(View())
    {
      hide Inv, StoreOf, UsesOf;
      lazy := false;
      freeSlots := freeSlots + Chained(lazyFreeList);
      lazyFreeList := [];
      assert freeSlots + Chained([]) == freeSlots;
    }

    // ---- handing computed tokens over

    /** Inserts computed tokens; the cached prefix keeps its slots. */
    method Insert(ids: seq<int>, indices: seq<int>) returns (cachedLen: nat, h: Handle)
      requires Valid() && |ids| == |indices|
      modifies this`clock, this`lastUse, prefixCache, prefixCache.nodes
      ensures Valid() && prefixCache.held == old(prefixCache.held)
      ensures old(prefixCache.nodes) <= prefixCache.nodes && fresh(prefixCache.nodes - old(prefixCache.nodes))
      ensures var a := Pages(ids, pageSize);
              && cachedLen == LongestMatch(old(View()).store, a, pageSize)
              && prefixCache.HandleOk(h) && h.cachedLen == AlignDown(|ids|, pageSize) && h.node.path == a
              && View() == old(View()).(store := Inserted(old(View()).store, a,
                                                          Upto(indices, AlignDown(|ids|, pageSize)), pageSize))
              && lastUse == Touched(old(lastUse), View().store.Keys, 0, a, clock)
      ensures clock == old(clock) + 1
    {
      hide Inv, StoreOf, LongestMatch, Inserted, ClockOk, UsesOf, Touched;
      Tick();
      cachedLen, h := prefixCache.InsertPrefix(ids, indices, clock);
      lastUse := Touched(lastUse, prefixCache.Store().Keys, 0, h.node.path, clock);
    }

    /** Ends a hand-over: the old lock is given up, duplicates are freed, and the tail is freed or the lock moved on. */
    method Settle(u: int, handle: Handle, h: Handle, indices: seq<int>, cachedLen: nat, finished: bool)
      requires Valid() && u in prefixCache.held && prefixCache.held[u] == handle.node
      requires prefixCache.HandleOk(h)
      modifies this`freeSlots, this`lazyFreeList, prefixCache`evictableSize, prefixCache`protectedSize,
        prefixCache`held, prefixCache.nodes`refCount
      ensures Valid() && prefixCache.nodes == old(prefixCache.nodes)
      ensures var c2 := FreeOp(UnlockOp(old(View()), u), Slice(indices, handle.cachedLen, cachedLen), pageSize);
              View() == if finished then FreeOp(c2, From(indices, h.cachedLen), pageSize)
                else LockOp(c2, u, h.node.path)
      ensures prefixCache.held == if finished then old(prefixCache.held) - {u} else old(prefixCache.held)[u := h.node]
    {
      hide Inv, StoreOf, FreeOp, LockOp, UnlockOp, UsesOf;
      Unlock(handle, u);
      Free(Slice(indices, handle.cachedLen, cachedLen));
      if finished {
        Free(From(indices, h.cachedLen));
      } else {
        assert old(prefixCache.held)[u := h.node] == (old(prefixCache.held) - {u})[u := h.node];
        Lock(h, u);
      }
    }

    /** Puts a request's computed tokens into the prefix cache. Pages that others cached meanwhile are freed, and so is
    the tail of a finished request; one that goes on moves its lock to the new prefix. */
    method CacheReq(r: Req, handle: Handle, finished: bool) returns (h: Handle)
      requires Valid() && r.uid in prefixCache.held && prefixCache.held[r.uid] == handle.node
      requires prefixCache.HandleOk(handle)
      requires 0 <= r.row < pageTable.Length0 && r.cachedLen <= |r.ids| && r.cachedLen <= pageTable.Length1
      modifies this`freeSlots, this`lazyFreeList, this`clock, this`lastUse, prefixCache, prefixCache.nodes
      ensures Valid()
      ensures old(prefixCache.nodes) <= prefixCache.nodes && fresh(prefixCache.nodes - old(prefixCache.nodes))
      ensures View() == CacheReqOp(old(View()), r.uid, r.ids[..r.cachedLen],
                                   RowAt(TableOf(pageTable), r.row)[..r.cachedLen], finished, pageSize)
      ensures prefixCache.HandleOk(h)
      ensures prefixCache.held
           == if finished then old(prefixCache.held) - {r.uid} else old(prefixCache.held)[r.uid := h.node]
      ensures clock == old(clock) + 1
      ensures lastUse == Touched(old(lastUse), View().store.Keys, 0, Pages(r.ids[..r.cachedLen], pageSize), clock)
    {
      hide Inv, StoreOf, LongestMatch, Inserted, Strided, FreeOp, LockOp, UnlockOp, HeldPaths, UsesOf;
      ghost var c := View();
      var pageIndices := ReadSlice(pageTable, r.row, 0, r.cachedLen);
      WholeBeginning(RowAt(TableOf(pageTable), r.row), r.cachedLen);
      HeldPath(prefixCache.held, r.uid);
      var cachedLen;
      cachedLen, h := Insert(r.ids[..r.cachedLen], pageIndices);
      Settle(r.uid, handle, h, pageIndices, cachedLen, finished);
      assert View() == CacheReqOp(c, r.uid, r.ids[..r.cachedLen], pageIndices, finished, pageSize);
    }

    // ---- allocating

    /** Evicts what the free list lacks, the prefixes used longest ago first. */
    method Refill(short: nat) returns (ghost ev: Eviction)
      requires Valid() && !lazy && short <= |Unprotected(View().store, View().held)|
      modifies this`freeSlots, this`lastUse, prefixCache`nodes, prefixCache`evictableSize, prefixCache.nodes`children
      ensures Valid() && !lazy && prefixCache.held == old(prefixCache.held)
              && prefixCache.nodes <= old(prefixCache.nodes)
      ensures EvictOk(old(View()).store, ev.store, old(View()).held, ev.slots, pageSize) && StoreOk(ev.store, pageSize)
      ensures short <= |Strided(ev.slots, pageSize)| && freeSlots == old(freeSlots) + Strided(ev.slots, pageSize)
      ensures short > 0 ==> exists n ::
                n in old(prefixCache.nodes) && n !in prefixCache.nodes
                  && LastNeeded(ev.slots, n.value, short * pageSize)
      ensures View().store == ev.store && View().held == old(View()).held
      ensures lastUse == Rest(old(lastUse), ev.store.Keys)
      ensures LeastRecent(old(lastUse), old(View()).store, ev.store, old(View()).held)
    {
      hide Inv, StoreOf, EvictOk, Strided, Unprotected, StoreOk, Ordered, ClockOk, UsesOf, Rest, LeastRecent, HeldPaths;
      ghost var t := Snap(prefixCache.nodes);
      ClockOrdered(t, prefixCache.root, clock);
      ViewOk();
      ShortfallEvictable(short, |Unprotected(prefixCache.Store(), prefixCache.Held())|, pageSize);
      var evicted := prefixCache.Evict(short * pageSize);
      ClockSub(t, Snap(prefixCache.nodes), prefixCache.root, clock, clock);
      EvictedEnough(evicted, short, pageSize, old(prefixCache.Store()), prefixCache.Store(), prefixCache.Held());
      ev := Eviction(prefixCache.Store(), evicted);
      freeSlots := freeSlots + Strided(evicted, pageSize);
      lastUse := Rest(lastUse, prefixCache.Store().Keys);
      ViewOk();
    }

    /** Takes pages from the front of the free list, evicting first when it is too short. Neither the size check of the
    eviction nor the final check can fail when the pages are available. Nothing is evicted that was used later than an
    unprotected prefix that stays. */
    method Allocate(needed: nat) returns (pages: seq<int>, ghost ev: Eviction)
      requires Valid() && !lazy && needed <= Avail(View())
      modifies this`freeSlots, this`lastUse, prefixCache`nodes, prefixCache`evictableSize, prefixCache.nodes`children
      ensures Valid() && !lazy && prefixCache.held == old(prefixCache.held)
              && prefixCache.nodes <= old(prefixCache.nodes)
      ensures LegalEviction(old(View()), needed, ev, pageSize)
      ensures View() == AllocOp(old(View()), needed, ev, pageSize)
      ensures pages == Allocated(old(View()), needed, ev, pageSize) && |pages| == needed
      ensures needed > |old(freeSlots)| ==> exists n ::
                && n in old(prefixCache.nodes) && n !in prefixCache.nodes
                && LastNeeded(ev.slots, n.value, (needed - |old(freeSlots)|) * pageSize)
      ensures lastUse == Rest(old(lastUse), View().store.Keys)
      ensures LeastRecent(old(lastUse), old(View()).store, View().store, View().held)
    {
      hide Inv, StoreOf, EvictOk, Strided, Unprotected, StoreOk, UsesOf, Rest, LeastRecent, HeldPaths, ClockOk;
      NothingLazy();
      NoStrides(pageSize);
      ev := Eviction(View().store, []);
      if needed > |freeSlots| {
        ev := Refill(needed - |freeSlots|);
      } else {
        UsesStored();
        NoEviction(lastUse, View().store, View().held);
        assert freeSlots + [] == freeSlots;
      }
      pages := freeSlots[..needed];
      freeSlots := freeSlots[needed..];
      NothingLazy();
    }

    /** The slots of a list of pages. */
    method PageToToken(pages: seq<int>) returns (slots: seq<int>)
      ensures slots == Expand(pages, pageSize)
    {
      if pageSize == 1 {
        ExpandOnes(pages);
        slots := pages;
      } else {
        slots := [];
        for k := 0 to |pages|
          invariant slots == Expand(pages[..k], pageSize)
        {
          ExpandSnoc(pages, k, pageSize);
          slots := slots + seq(pageSize, i => pages[k] + i);
        }
        assert pages[..|pages|] == pages;
      }
    }

    /** Writes the slots into the rows, through the flat lists of the info. */
    method WritePageTable(slots: seq<int>, info: seq<Stretch>)
      requires Inside(TableOf(pageTable), info) && |slots| == |FlatRows(info)|
      modifies pageTable
      ensures TableOf(pageTable) == Written(old(TableOf(pageTable)), info, slots)
    {
      hide FlatRows, FlatPositions, Written, Scattered;
      ghost var t := TableOf(pageTable);
      FlatLengths(info);
      InsideUpward(t, info);
      var rows := MakeRows(info);
      var positions := MakePositions(info);
      FlatInside(t, info, pageTable.Length0, pageTable.Length1);
      Scatter(pageTable, rows[..], positions[..], slots);
      ScatterFlat(t, info, slots, pageTable.Length0, pageTable.Length1);
    }

    /** Counts the pages a batch needs and lists the stretches it will write. */
    method PlanAllocation(rs: seq<Req>) returns (needed: nat, info: seq<Stretch>)
      ensures needed == NeedOf(rs, pageSize) && info == AllocationInfo(rs, pageSize)
    {
      hide PagesNeeded, PageStretch, NeedOf, AllocationInfo;
      needed, info := 0, [];
      assert rs[..0] == [];
      NothingPlanned(pageSize);
      for k := 0 to |rs|
        invariant needed == NeedOf(rs[..k], pageSize) && info == AllocationInfo(rs[..k], pageSize)
      {
        NeedSnoc(rs, k, pageSize);
        var pages := PagesNeeded(rs[k], pageSize);
        if pages > 0 {
          needed := needed + pages;
          info := info + [PageStretch(rs[k], pageSize)];
        }
      }
      assert rs[..|rs|] == rs;
    }

    /** What the stretches hold now, to be put back by a rollback. */
    method SaveStretches(info: seq<Stretch>) returns (overwrites: seq<Overwrite>)
      requires Inside(TableOf(pageTable), info)
      ensures overwrites == OverwritesOf(TableOf(pageTable), info)
    {
      overwrites := [];
      for k := 0 to |info|
        invariant overwrites == OverwritesOf(TableOf(pageTable), info[..k])
      {
        var x := info[k];
        var was := ReadSlice(pageTable, x.row, x.from, x.to);
        assert info[..k + 1] == info[..k] + [x];
        overwrites := overwrites + [Overwrite(x, was)];
      }
      assert info[..|info|] == info;
    }

    /** Allocates the pages of a batch and writes them into the requests' rows; the token remembers what was changed. */
    method AllocatePaged(rs: seq<Req>) returns (token: AllocationToken, ghost ev: Eviction)
      requires Valid() && !lazy && NeedOf(rs, pageSize) <= Avail(View())
      requires FitRows(rs, pageTable.Length0, pageTable.Length1, pageSize)
      modifies this`freeSlots, this`lastUse, prefixCache`nodes, prefixCache`evictableSize, prefixCache.nodes`children,
        pageTable
      ensures Valid() && !lazy && prefixCache.held == old(prefixCache.held)
              && prefixCache.nodes <= old(prefixCache.nodes)
      ensures NeedOf(rs, pageSize) == 0 ==>
                View() == old(View()) && TableOf(pageTable) == old(TableOf(pageTable))
                  && token == AllocationToken([], [])
      ensures NeedOf(rs, pageSize) > 0 ==>
                && LegalEviction(old(View()), NeedOf(rs, pageSize), ev, pageSize)
                && View() == AllocOp(old(View()), NeedOf(rs, pageSize), ev, pageSize)
                && var pages := Allocated(old(View()), NeedOf(rs, pageSize), ev, pageSize);
                   && TableOf(pageTable) == AssignTo(old(TableOf(pageTable)), rs, pages, pageSize)
                   && token == AllocationToken(Expand(pages, pageSize),
                                               OverwritesOf(old(TableOf(pageTable)), AllocationInfo(rs, pageSize)))
      ensures lastUse == Rest(old(lastUse), View().store.Keys)
      ensures LeastRecent(old(lastUse), old(View()).store, View().store, View().held)
    {
      hide Inv, StoreOf, NeedOf, AllocationInfo, LegalEviction, AllocOp, Allocated, Expand, Written, AssignTo,
        FlatRows, OverwritesOf, Unprotected, UsesOf, Rest, LeastRecent;
      ghost var t := TableOf(pageTable);
      var needed, info := PlanAllocation(rs);
      ev := Eviction(prefixCache.Store(), []);
      if needed == 0 {
        NoEviction(lastUse, prefixCache.Store(), prefixCache.Held());
        token := AllocationToken([], []);
      } else {
        var pages;
        pages, ev := Allocate(needed);
        var slots := PageToToken(pages);
        InfoInside(t, rs, pageTable.Length0, pageTable.Length1, pageSize);
        var overwrites := SaveStretches(info);
        WrittenIsAssigned(t, rs, pages, pageTable.Length0, pageTable.Length1, pageSize);
        WritePageTable(slots, info);
        token := AllocationToken(slots, overwrites);
      }
    }

    /** Undoes an allocation: every stretch gets back what it held, and every page handed out is free again. */
    method RollbackAllocation(token: AllocationToken)
      requires Valid()
      requires forall i {:trigger token.overwrites[i]} | 0 <= i < |token.overwrites| ::
                 PutsBack(token.overwrites[i], pageTable.Length0, pageTable.Length1)
      modifies this`freeSlots, this`lazyFreeList, pageTable
      ensures Valid() && View() == FreeOp(old(View()), token.slots, pageSize)
      ensures TableOf(pageTable) == Restored(old(TableOf(pageTable)), token.overwrites)
    {
      hide Inv, StoreOf, Strided, UsesOf;
      ghost var t := TableOf(pageTable);
      for k := 0 to |token.overwrites|
        invariant TableOf(pageTable) == Restored(t, token.overwrites[..k])
        modifies pageTable
      {
        var o := token.overwrites[k];
        RestoredSnoc(t, token.overwrites, k);
        WriteSlice(pageTable, o.part.row, o.part.from, o.held);
      }
      assert token.overwrites[..|token.overwrites|] == token.overwrites;
      FreeNothing(View(), pageSize);
      if |token.slots| > 0 {
        Free(token.slots);
      }
    }
  }

  lemma {:induction false} ClockOrdered(t: Tree, root: RadixTreeNode, now: int)
    requires ClockOk(t, root, now)
    ensures Ordered(t, root)
  {
    hide Ordered;
  }

  // ---- undoing an allocation

  /** The stretches with what a table holds there. */
  function OverwritesOf(t: Table, info: seq<Stretch>): seq<Overwrite> {
    seq(|info|, i requires 0 <= i < |info| =>
      Overwrite(info[i], Slice(RowAt(t, info[i].row), info[i].from, info[i].to)))
  }

  predicate PutsBack(o: Overwrite, rows: nat, width: nat) {
    0 <= o.part.row < rows && o.part.from + |o.held| <= width
  }

  /** The table after every overwrite was put back, in order. */
  function Restored(t: Table, os: seq<Overwrite>): Table
    decreases |os|
  {
    if os == [] then t else Restored(WriteRow(t, os[0].part.row, os[0].part.from, os[0].held), os[1..])
  }

  lemma {:induction false} RestoredSnoc(t: Table, os: seq<Overwrite>, k: nat)
    requires k < |os|
    ensures Restored(t, os[..k + 1]) == WriteRow(Restored(t, os[..k]), os[k].part.row, os[k].part.from, os[k].held)
    decreases k
  {
    hide WriteRow;
    if k == 0 {
      assert os[..1] == [os[0]] && os[..1][1..] == [] && os[..0] == [];
      RestoredNone(WriteRow(t, os[0].part.row, os[0].part.from, os[0].held));
      RestoredNone(t);
    } else {
      RestoredSnoc(WriteRow(t, os[0].part.row, os[0].part.from, os[0].held), os[1..], k - 1);
      assert os[..k + 1][1..] == os[1..][..k] && os[..k][1..] == os[1..][..k - 1];
    }
  }

  lemma {:induction false} RestoredNone(t: Table)
    ensures Restored(t, []) == t
  {
  }

  lemma {:induction false} FreeNothing(c: Cache, ps: Pos)
    ensures FreeOp(c, [], ps) == c
  {
    assert c.free + [] == c.free;
  }

  lemma {:induction false} ExpandOnes(pages: seq<int>)
    ensures Expand(pages, 1) == pages
    decreases |pages|
  {
    if pages != [] {
      ExpandOnes(pages[1..]);
    }
  }

  lemma {:induction false} ExpandSnoc(pages: seq<int>, k: nat, ps: Pos)
    requires k < |pages|
    ensures Expand(pages[..k + 1], ps) == Expand(pages[..k], ps) + seq(ps, i => pages[k] + i)
  {
    assert pages[..k + 1] == pages[..k] + [pages[k]];
    ExpandConcat(pages[..k], [pages[k]], ps);
    assert [pages[k]][1..] == [];
  }

  lemma {:induction false} NothingPlanned(ps: Pos)
    ensures NeedOf([], ps) == 0 && AllocationInfo([], ps) == []
  {
  }

  lemma {:induction false} InsideUpward(t: Table, info: seq<Stretch>)
    requires Inside(t, info)
    ensures Upward(info)
  {
  }

  lemma {:induction false} FlatInside(t: Table, info: seq<Stretch>, rows: nat, width: nat)
    requires Shape(t, rows, width) && Inside(t, info)
    ensures |FlatRows(info)| == |FlatPositions(info)|
    ensures forall i | 0 <= i < |FlatRows(info)| :: 0 <= FlatRows(info)[i] < rows && 0 <= FlatPositions(info)[i] < width
    decreases |info|
  {
    FlatLengths(info);
    if info != [] {
      var rest := info[1..];
      assert forall i | 0 <= i < |rest| :: rest[i] == info[i + 1];
      FlatInside(t, rest, rows, width);
      var n := info[0].to - info[0].from;
      forall i | 0 <= i < |FlatRows(info)|
        ensures 0 <= FlatRows(info)[i] < rows && 0 <= FlatPositions(info)[i] < width
      {
        if i < n {
          RangeAt(info[0].from, n, i);
        } else {
          assert FlatRows(info)[i] == FlatRows(rest)[i - n] && FlatPositions(info)[i] == FlatPositions(rest)[i - n];
        }
      }
    }
  }

  // ---- allocating and rolling back

  /** Two tables agree everywhere but in the stretches of `l`. */
  ghost predicate AgreeOutside(t: Table, t': Table, l: seq<Stretch>) {
    && |t| == |t'|
    && (forall i {:trigger t[i]} {:trigger t'[i]} | 0 <= i < |t| :: |t[i]| == |t'[i]|)
    && forall i, j {:trigger t'[i][j]} | 0 <= i < |t| && 0 <= j < |t[i]| && t'[i][j] != t[i][j] :: Covered(l, i, j)
  }

  ghost predicate Covered(l: seq<Stretch>, i: int, j: int) {
    exists k {:trigger l[k]} :: 0 <= k < |l| && l[k].row == i && l[k].from <= j < l[k].to
  }

  lemma {:induction false} CoveredCons(l: seq<Stretch>, i: int, j: int)
    requires l != []
    ensures Covered(l, i, j) <==> (l[0].row == i && l[0].from <= j < l[0].to) || Covered(l[1..], i, j)
  {
    if Covered(l, i, j) {
      var k :| 0 <= k < |l| && l[k].row == i && l[k].from <= j < l[k].to;
      assert k > 0 ==> l[1..][k - 1] == l[k];
    }
    if Covered(l[1..], i, j) {
      var k :| 0 <= k < |l[1..]| && l[1..][k].row == i && l[1..][k].from <= j < l[1..][k].to;
      assert l[k + 1] == l[1..][k];
    }
  }

  /** The entries of a table after a slice was written. */
  lemma {:induction false} WriteRowAt(t: Table, row: int, at: nat, vals: seq<int>, i: int, j: int)
    requires 0 <= row < |t| && at + |vals| <= |t[row]| && 0 <= i < |t| && 0 <= j < |t[i]|
    ensures var t' := WriteRow(t, row, at, vals);
            && |t'| == |t| && |t'[i]| == |t[i]|
            && t'[i][j] == if i == row && at <= j < at + |vals| then vals[j - at] else t[i][j]
  {
  }

  /** Writing stretches changes nothing outside them, whatever is written. */
  lemma {:induction false} WrittenAgrees(t: Table, t1: Table, done: seq<Stretch>, l: seq<Stretch>, vals: seq<int>)
    requires AgreeOutside(t, t1, done) && Inside(t, l) && |vals| == |FlatRows(l)|
    ensures AgreeOutside(t, Written(t1, l, vals), done + l)
    decreases |l|
  {
    hide FlatRows;
    if l == [] {
      assert done + l == done;
    } else {
      var n := l[0].to - l[0].from;
      assert l[0].from <= l[0].to;
      FlatCons(l);
      var t2 := WriteRow(t1, l[0].row, l[0].from, vals[..n]);
      assert forall i | 0 <= i < |l[1..]| :: l[1..][i] == l[i + 1];
      OneMore(t, t1, done, l[0], vals[..n]);
      assert done + [l[0]] + l[1..] == done + l;
      WrittenAgrees(t, t2, done + [l[0]], l[1..], vals[n..]);
    }
  }

  lemma {:induction false} OneMore(t: Table, t1: Table, done: seq<Stretch>, x: Stretch, vals: seq<int>)
    requires AgreeOutside(t, t1, done) && 0 <= x.row < |t| && x.from <= x.to <= |t[x.row]| && |vals| == x.to - x.from
    ensures AgreeOutside(t, WriteRow(t1, x.row, x.from, vals), done + [x])
  {
    var t2 := WriteRow(t1, x.row, x.from, vals);
    assert |t1[x.row]| == |t[x.row]|;
    forall i | 0 <= i < |t|
      ensures |t2[i]| == |t[i]|
    {
      assert |t1[i]| == |t[i]|;
    }
    forall i, j | 0 <= i < |t| && 0 <= j < |t[i]| && t2[i][j] != t[i][j]
      ensures Covered(done + [x], i, j)
    {
      assert |t1[i]| == |t[i]|;
      WriteRowAt(t1, x.row, x.from, vals, i, j);
      if i == x.row && x.from <= j < x.to {
        assert (done + [x])[|done|] == x;
      } else {
        assert t1[i][j] != t[i][j];
        var k :| 0 <= k < |done| && done[k].row == i && done[k].from <= j < done[k].to;
        assert (done + [x])[k] == done[k];
      }
    }
  }

  /** Putting back what the original table held restores it, stretch by stretch. */
  lemma {:induction false} RestoreAgrees(t: Table, t1: Table, l: seq<Stretch>)
    requires AgreeOutside(t, t1, l) && Inside(t, l)
    ensures Restored(t1, OverwritesOf(t, l)) == t
    decreases |l|
  {
    if l == [] {
      assert OverwritesOf(t, l) == [];
      NothingDiffers(t, t1);
    } else {
      var x, os := l[0], OverwritesOf(t, l);
      var was := Slice(RowAt(t, x.row), x.from, x.to);
      assert os[0] == Overwrite(x, was) && os[1..] == OverwritesOf(t, l[1..]);
      assert forall i | 0 <= i < |l[1..]| :: l[1..][i] == l[i + 1];
      PutBack(t, t1, l);
      RestoreAgrees(t, WriteRow(t1, x.row, x.from, was), l[1..]);
    }
  }

  lemma {:induction false} NothingDiffers(t: Table, t1: Table)
    requires AgreeOutside(t, t1, [])
    ensures t1 == t
  {
    forall i | 0 <= i < |t|
      ensures t1[i] == t[i]
    {
      assert |t1[i]| == |t[i]|;
      forall j | 0 <= j < |t[i]|
        ensures t1[i][j] == t[i][j]
      {
        assert !Covered([], i, j);
      }
    }
  }

  lemma {:induction false} PutBack(t: Table, t1: Table, l: seq<Stretch>)
    requires l != [] && AgreeOutside(t, t1, l) && Inside(t, l)
    ensures var x := l[0];
            AgreeOutside(t, WriteRow(t1, x.row, x.from, Slice(RowAt(t, x.row), x.from, x.to)), l[1..])
  {
    var x := l[0];
    var was := Slice(RowAt(t, x.row), x.from, x.to);
    var t2 := WriteRow(t1, x.row, x.from, was);
    assert |t1[x.row]| == |t[x.row]| && |was| == x.to - x.from;
    assert forall j | x.from <= j < x.to :: was[j - x.from] == t[x.row][j];
    forall i | 0 <= i < |t|
      ensures |t2[i]| == |t[i]|
    {
      assert |t1[i]| == |t[i]|;
    }
    forall i, j | 0 <= i < |t| && 0 <= j < |t[i]| && t2[i][j] != t[i][j]
      ensures Covered(l[1..], i, j)
    {
      assert |t1[i]| == |t[i]|;
      WriteRowAt(t1, x.row, x.from, was, i, j);
      CoveredCons(l, i, j);
      assert !(i == x.row && x.from <= j < x.to);
      assert t1[i][j] != t[i][j];
    }
  }

  /** An allocation and its rollback leave the page table exactly as it was, whatever the pages. */
  lemma {:induction false} RollbackRestores(t: Table, rs: seq<Req>, pages: seq<int>, rows: nat, width: nat, ps: Pos)
    requires Shape(t, rows, width) && FitRows(rs, rows, width, ps) && |pages| == NeedOf(rs, ps)
    ensures Restored(AssignTo(t, rs, pages, ps), OverwritesOf(t, AllocationInfo(rs, ps))) == t
  {
    hide AllocationInfo, Written, AssignTo, NeedOf, OverwritesOf, Restored, FlatRows, Expand;
    InfoInside(t, rs, rows, width, ps);
    WrittenIsAssigned(t, rs, pages, rows, width, ps);
    var l := AllocationInfo(rs, ps);
    WrittenAgrees(t, t, [], l, Expand(pages, ps));
    assert [] + l == l;
    RestoreAgrees(t, AssignTo(t, rs, pages, ps), l);
  }

  /** An allocation and its rollback restore the available size, keep every page accounted for and every locked path
  stored with its slots, and leave the free list as it was but for the pages evicted meanwhile. */
  lemma {:induction false} RollbackBalances(c: Cache, need: nat, ev: Eviction, ps: Pos)
    requires CacheOk(c, ps) && LegalEviction(c, need, ev, ps)
    ensures var c' := FreeOp(AllocOp(c, need, ev, ps), Expand(Allocated(c, need, ev, ps), ps), ps);
            && Avail(c') == Avail(c) && c'.held == c.held && CacheOk(c', ps)
            && (forall k {:trigger Balance(c', ps, k)} :: Balance(c', ps, k) == Balance(c, ps, k))
            && (forall k {:trigger Count(c'.free, k)} ::
                  Count(c'.free, k) == Count(c.free, k) + Count(Strided(ev.slots, ps), k))
            && (forall u | u in c.held && Locked(c, u) != [] ::
                  Locked(c, u) in c'.store && c'.store[Locked(c, u)] == c.store[Locked(c, u)])
  {
    hide LegalEviction, Strided, Expand, Count, StorePages, StoreOk, Unprotected;
    var pages := Allocated(c, need, ev, ps);
    var c1 := AllocOp(c, need, ev, ps);
    var c' := FreeOp(c1, Expand(pages, ps), ps);
    ExpandFacts(pages, ps);
    AllocAvail(c, need, ev, ps);
    AllocKeeps(c, need, ev, ps);
    forall k
      ensures Balance(c', ps, k) == Balance(c, ps, k)
      ensures Count(c'.free, k) == Count(c.free, k) + Count(Strided(ev.slots, ps), k)
    {
      RollbackCounts(c, need, ev, ps, k);
    }
    AllocBalance(c, need, ev, ps, All);
  }

  lemma {:induction false} RollbackCounts(c: Cache, need: nat, ev: Eviction, ps: Pos, k: Pick)
    requires LegalEviction(c, need, ev, ps)
    ensures var c' := FreeOp(AllocOp(c, need, ev, ps), Expand(Allocated(c, need, ev, ps), ps), ps);
            && Balance(c', ps, k) == Balance(c, ps, k)
            && Count(c'.free, k) == Count(c.free, k) + Count(Strided(ev.slots, ps), k)
  {
    hide Strided, Expand, Count, StorePages, StoreOk, EvictOk;
    var f, pages := Refilled(c, ev, ps), Allocated(c, need, ev, ps);
    ExpandFacts(pages, ps);
    AllocBalance(c, need, ev, ps, k);
    CountConcat(AllocOp(c, need, ev, ps).free, pages, k);
    CountConcat(f[..need], f[need..], k);
    assert f[..need] + f[need..] == f;
    CountConcat(c.free, Strided(ev.slots, ps), k);
  }

  lemma {:induction false} MatchedSlots(t: Tree, nodes: set<RadixTreeNode>, root: RadixTreeNode, ps: Pos,
                                        held: map<int, RadixTreeNode>, ev: int, pr: int, n: RadixTreeNode)
    requires t.Keys == nodes && Inv(t, root, ps, held, ev, pr) && n in nodes
    ensures n.slots == SlotsOf(StoreOf(nodes, ps), n.path)
  {
    hide WF, SlotsOf, StoreOf;
    NodeSlots(t, root, ps, n);
  }

  lemma {:induction false} HeldPath(held: map<int, RadixTreeNode>, u: int)
    requires u in held
    ensures u in HeldPaths(held) && HeldPaths(held)[u] == held[u].path
  {
  }

  lemma {:induction false} WholeBeginning(row: seq<int>, n: nat)
    requires n <= |row|
    ensures Slice(row, 0, n) == row[..n]
  {
  }

  lemma {:induction false} ShortfallEvictable(short: nat, pages: nat, ps: Pos)
    requires short <= pages
    ensures short * ps <= pages * ps
  {
    MultiplesApart(short, pages, ps);
  }

  /** An eviction of so many slots yields so many pages. */
  lemma {:induction false} EvictedEnough(evicted: seq<int>, pages: nat, ps: Pos, s: Store, s': Store, held: map<int,
                                         seq<int>>)
    requires EvictOk(s, s', held, evicted, ps) && |evicted| >= pages * ps
    ensures |Strided(evicted, ps)| >= pages
  {
    hide Strided, DivCeil, Aligned, Protected;
    StridedLength(evicted, ps);
    DivCeilExact(|evicted|, ps);
    MultiplesApart(DivCeil(|evicted|, ps), pages, ps);
  }

  /** Locked paths are stored. */
  lemma {:induction false} HeldStored(t: Tree, root: RadixTreeNode, ps: Pos, held: map<int, RadixTreeNode>)
    requires WF(t, root, ps) && RefExact(t, root, held)
    ensures StoreOk(StoreOf(t.Keys, ps), ps)
    ensures forall u | u in held :: held[u].path == [] || held[u].path in StoreOf(t.Keys, ps)
  {
    hide WF, StoreOf, StoreOk;
    TreeStoreOk(t, root, ps);
    forall u | u in held
      ensures held[u].path == [] || held[u].path in StoreOf(t.Keys, ps)
    {
      assert held[u] in held.Values;
      NodeSlots(t, root, ps, held[u]);
    }
  }
}
