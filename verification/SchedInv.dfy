/** The resource invariant of the scheduler - every page and every row has exactly one owner - and its preservation by
each elementary step. */
module SchedInv {
  import opened Paging
  import opened Sums
  import opened PrefixStore
  import opened CacheSpec
  import opened Requests
  import opened SchedSpec

  /** The engine's settings: rows reach to the end of the last page of the longest sequence. The engine rounds the width
  of a row up to 32 whatever the page size, which is enough for all lengths only if the page size divides 32. */
  ghost predicate CfgOk(cfg: Config) {
    0 < cfg.maxSeqLen && AlignUp(cfg.maxSeqLen, cfg.ps) <= cfg.width
  }

  /** The width the engine gives to a row. */
  function RowWidth(maxSeqLen: nat): nat {
    AlignUp(maxSeqLen, 32)
  }

  lemma {:induction false} CoarserAligned(k: nat, b: Pos, ps: Pos)
    requires Aligned(k, b) && Aligned(b, ps)
    ensures Aligned(k, ps)
    decreases k
  {
    if k > 0 {
      CoarserAligned(k - b, b, ps);
      AlignedSum(k - b, b, ps);
    }
  }

  /** Rows of that width hold the pages of every longest sequence exactly when the page size divides 32. */
  lemma {:induction false} WidthHoldsPages(ps: Pos)
    ensures (forall n: nat :: AlignUp(n, ps) <= RowWidth(n)) <==> 32 % ps == 0
  {
    hide AlignUp, Aligned;
    AlignedIsMod(32, ps);
    if 32 % ps == 0 {
      forall n: nat
        ensures AlignUp(n, ps) <= RowWidth(n)
      {
        CoarserAligned(RowWidth(n), 32, ps);
        AlignedApart(AlignUp(n, ps), RowWidth(n), ps);
      }
    } else {
      OneBlock();
      assert AlignUp(32, ps) > RowWidth(32);
    }
  }

  lemma {:induction false} OneBlock()
    ensures RowWidth(32) == 32
  {
    assert AlignUp(0, 32) == 0;
  }

  /** Rounding up adds the remainder of the negated number. */
  lemma {:induction false} PaddingIsMod(n: int, b: Pos)
    requires n >= 0
    ensures AlignUp(n, b) - n == -n % b
  {
    hide AlignUp, Aligned;
    var up := AlignUp(n, b);
    AlignedIsMod(up, b);
    DivisionFacts(up, b);
    ModUnique(-n, b, -(up / b), up - n);
  }

  /** For one setting of the engine: its rows hold the pages of its longest sequence exactly when the padding to whole
  pages is no longer than the padding to 32. */
  lemma {:induction false} SettingHoldsPages(cfg: Config)
    requires cfg.width == RowWidth(cfg.maxSeqLen)
    ensures CfgOk(cfg) <==> 0 < cfg.maxSeqLen && -(cfg.maxSeqLen as int) % cfg.ps <= -(cfg.maxSeqLen as int) % 32
  {
    PaddingIsMod(cfg.maxSeqLen, cfg.ps);
    PaddingIsMod(cfg.maxSeqLen, 32);
  }

  /** Pages of 64 slots and sequences of up to 70 tokens: the second page of a row would end at column 128 of 96. */
  lemma {:induction false} PagesOverrun()
    ensures AlignUp(65, 64) == 128 && RowWidth(70) == 96
  {
    assert AlignUp(1, 64) == 64 + AlignUp(0, 64) && AlignUp(0, 64) == 0;
    assert AlignUp(6, 32) == 32 + AlignUp(0, 32) && AlignUp(38, 32) == 32 + AlignUp(6, 32);
  }

  // ---- what a request owns

  /** How far the pages of `u` reach: to its computed tokens, or to the end of the batch it is prepared for. */
  ghost function End(s: Sched, prep: set<int>, u: int): nat {
    if u in prep then Get(s.reqs, u).deviceLen else Get(s.reqs, u).cachedLen
  }

  ghost function RowOf(s: Sched, u: int): seq<int> {
    RowAt(s.table, Get(s.reqs, u).row)
  }

  /** The part of the request's row that it owns: from the end of its locked path to the end of its last page. */
  ghost function Segment(cfg: Config, s: Sched, prep: set<int>, u: int): seq<int> {
    Slice(RowOf(s, u), |Locked(s.cache, u)|, AlignUp(End(s, prep, u), cfg.ps))
  }

  /** The row and the slots one request owns. */
  datatype Own = Own(row: int, slots: seq<int>)

  ghost function OwnOf(cfg: Config, s: Sched, prep: set<int>, u: int): Own {
    Own(Get(s.reqs, u).row, Segment(cfg, s, prep, u))
  }

  ghost function Owners(cfg: Config, s: Sched, prep: set<int>): map<int, Own> {
    map u | u in s.cache.held :: OwnOf(cfg, s, prep, u)
  }

  ghost function PageShares(o: map<int, Own>, ps: Pos, k: Pick): map<int, nat> {
    map u | u in o :: Count(Strided(o[u].slots, ps), k)
  }

  ghost function RowShares(o: map<int, Own>, k: Pick): map<int, nat> {
    map u | u in o :: Hit(k, o[u].row)
  }

  /** Free, stored, handed out but not yet written to a row, or owned by a request: each page exactly once. */
  ghost predicate PagesOwned(cfg: Config, c: Cache, hand: seq<int>, o: map<int, Own>, k: Pick) {
    Balance(c, cfg.ps, k) + Count(hand, k) + Total(PageShares(o, cfg.ps, k))
      == Count(Range(0, cfg.numPages, cfg.ps), k)
  }

  ghost predicate RowsOwned(cfg: Config, rows: seq<int>, o: map<int, Own>, k: Pick) {
    Count(rows, k) + Total(RowShares(o, k)) == Count(Range(0, cfg.numRows, 1), k)
  }

  ghost predicate Owned(cfg: Config, c: Cache, rows: seq<int>, hand: seq<int>, o: map<int, Own>) {
    && (forall k {:trigger PagesOwned(cfg, c, hand, o, k)} :: PagesOwned(cfg, c, hand, o, k))
    && (forall k {:trigger RowsOwned(cfg, rows, o, k)} :: RowsOwned(cfg, rows, o, k))
  }

  /** A request that holds resources: its lock's path leads into its tokens and ends before its computed ones. */
  ghost predicate ReqInv(cfg: Config, s: Sched, prep: set<int>, u: int)
  {
    && u in s.cache.held && u in s.reqs
    && (var r, h := Get(s.reqs, u), Locked(s.cache, u);
        && r.uid == u && 0 <= r.row < cfg.numRows && h <= r.ids && Aligned(|h|, cfg.ps)
        && |h| <= r.cachedLen < r.deviceLen && End(s, prep, u) <= cfg.maxSeqLen
        && Whole(Segment(cfg, s, prep, u), cfg.ps))
  }

  ghost predicate ReqsInv(cfg: Config, s: Sched, prep: set<int>) {
    forall u {:trigger ReqInv(cfg, s, prep, u)} | u in s.cache.held :: ReqInv(cfg, s, prep, u)
  }

  ghost predicate Shapes(cfg: Config, s: Sched) {
    && CfgOk(cfg) && CacheOk(s.cache, cfg.ps)
    && Shape(s.table, cfg.numRows + 1, cfg.width) && Shape(s.pool, cfg.numRows + 1, cfg.width)
  }

  /** The resource invariant. `prep` are the requests whose pages are written for the batch at hand, `hand` the pages
  allocated for it but not written yet. */
  ghost predicate RInv(cfg: Config, s: Sched, prep: set<int>, hand: seq<int>)
  {
    && Shapes(cfg, s) && ReqsInv(cfg, s, prep)
    && Owned(cfg, s.cache, s.rows, hand, Owners(cfg, s, prep))
  }

  // ---- every page and row occurs once

  lemma {:induction false} RangeOnce(from: nat, n: nat, step: Pos, x: int)
    ensures Count(Range(from, n, step), One(x)) <= 1
    ensures Count(Range(from, n, step), One(x)) == 1 ==> from <= x && (step == 1 ==> x < from + n)
    ensures Aligned(from, step) && Count(Range(from, n, step), One(x)) == 1 ==> x >= 0 && Aligned(x, step)
    decreases n
  {
    if n > 0 {
      if Aligned(from, step) {
        StepAligned(from, step);
      }
      RangeOnce(from + step, n - 1, step, x);
    }
  }

  /** No two requests share a row. */
  lemma {:induction false} RowsApart(cfg: Config, s: Sched, prep: set<int>, hand: seq<int>, u: int, v: int)
    requires RInv(cfg, s, prep, hand) && u in s.cache.held && v in s.cache.held && u != v
    ensures Get(s.reqs, u).row != Get(s.reqs, v).row
  {
    hide Shapes, ReqsInv, PagesOwned, Range, Count, Segment;
    var x, o := Get(s.reqs, u).row, Owners(cfg, s, prep);
    assert RowsOwned(cfg, s.rows, o, One(x));
    RangeOnce(0, cfg.numRows, 1, x);
    TotalTwo(RowShares(o, One(x)), u, v);
  }

  lemma {:induction false} FreeRowApart(cfg: Config, s: Sched, prep: set<int>, hand: seq<int>, row: int, u: int)
    requires RInv(cfg, s, prep, hand) && u in s.cache.held && row in s.rows
    ensures Get(s.reqs, u).row != row
  {
    hide Shapes, ReqsInv, PagesOwned, Range, Count, Segment;
    var o := Owners(cfg, s, prep);
    assert RowsOwned(cfg, s.rows, o, One(row));
    RangeOnce(0, cfg.numRows, 1, row);
    CountIn(s.rows, row);
    TotalPick(RowShares(o, One(row)), u);
  }

  lemma {:induction false} FreeRowRange(cfg: Config, s: Sched, prep: set<int>, hand: seq<int>, row: int)
    requires RInv(cfg, s, prep, hand) && row in s.rows
    ensures 0 <= row < cfg.numRows
  {
    hide Shapes, ReqsInv, PagesOwned, Range, Count, Owners;
    assert RowsOwned(cfg, s.rows, Owners(cfg, s, prep), One(row));
    RangeOnce(0, cfg.numRows, 1, row);
    CountIn(s.rows, row);
  }

  // ---- changing what one request owns

  /** One owner gives up its row and its pages. */
  lemma {:induction false} OwnedDrop(cfg: Config, c: Cache, c': Cache, rows: seq<int>, hand: seq<int>, o: map<int,
                                     Own>, u: int)
    requires Owned(cfg, c, rows, hand, o) && u in o
    requires forall k {:trigger Balance(c', cfg.ps, k)} ::
               Balance(c', cfg.ps, k) == Balance(c, cfg.ps, k) + Count(Strided(o[u].slots, cfg.ps), k)
    ensures Owned(cfg, c', rows + [o[u].row], hand, o - {u})
  {
    hide Balance, Count, Strided, Total, Range;
    forall k
      ensures PagesOwned(cfg, c', hand, o - {u}, k) && RowsOwned(cfg, rows + [o[u].row], o - {u}, k)
    {
      assert PagesOwned(cfg, c, hand, o, k) && RowsOwned(cfg, rows, o, k);
      TotalDrop(PageShares(o, cfg.ps, k), PageShares(o - {u}, cfg.ps, k), u);
      TotalDrop(RowShares(o, k), RowShares(o - {u}, k), u);
      assert Balance(c', cfg.ps, k) == Balance(c, cfg.ps, k) + Count(Strided(o[u].slots, cfg.ps), k);
      CountConcat(rows, [o[u].row], k);
      CountOne(o[u].row, k);
    }
  }

  /** What one owner gains, the cache and the pages in hand lose. */
  lemma {:induction false} OwnedChange(cfg: Config, c: Cache, c': Cache, rows: seq<int>, hand: seq<int>,
                                       hand': seq<int>,
                    o: map<int, Own>, u: int, slots: seq<int>)
    requires Owned(cfg, c, rows, hand, o) && u in o
    requires forall k {:trigger Balance(c', cfg.ps, k)} ::
               Balance(c', cfg.ps, k) + Count(hand', k) + Count(Strided(slots, cfg.ps), k)
               == Balance(c, cfg.ps, k) + Count(hand, k) + Count(Strided(o[u].slots, cfg.ps), k)
    ensures Owned(cfg, c', rows, hand', o[u := Own(o[u].row, slots)])
  {
    hide Balance, Count, Strided, Total, Range;
    var o' := o[u := Own(o[u].row, slots)];
    forall k
      ensures PagesOwned(cfg, c', hand', o', k) && RowsOwned(cfg, rows, o', k)
    {
      assert PagesOwned(cfg, c, hand, o, k) && RowsOwned(cfg, rows, o, k);
      TotalFrame(PageShares(o, cfg.ps, k), PageShares(o', cfg.ps, k), u);
      TotalSame(RowShares(o, k), RowShares(o', k));
      assert Balance(c', cfg.ps, k) + Count(hand', k) + Count(Strided(slots, cfg.ps), k)
          == Balance(c, cfg.ps, k) + Count(hand, k) + Count(Strided(o[u].slots, cfg.ps), k);
    }
  }

  /** A new owner takes the last free row and no page yet. */
  lemma {:induction false} OwnedAdd(cfg: Config, c: Cache, c': Cache, rows: seq<int>, hand: seq<int>, o: map<int,
                                    Own>, u: int, row: int)
    requires Owned(cfg, c, rows + [row], hand, o) && u !in o
    requires c'.free == c.free && c'.store == c.store
    ensures Owned(cfg, c', rows, hand, o[u := Own(row, [])])
  {
    hide Count, Total, Range, StorePages;
    var o' := o[u := Own(row, [])];
    assert Strided([], cfg.ps) == [];
    forall k
      ensures PagesOwned(cfg, c', hand, o', k) && RowsOwned(cfg, rows, o', k)
    {
      assert PagesOwned(cfg, c, hand, o, k) && RowsOwned(cfg, rows + [row], o, k);
      TotalAdd(PageShares(o, cfg.ps, k), PageShares(o', cfg.ps, k), u);
      TotalAdd(RowShares(o, k), RowShares(o', k), u);
      CountNone(k);
      CountConcat(rows, [row], k);
      CountOne(row, k);
    }
  }

  lemma {:induction false} CountNone(k: Pick)
    ensures Count([], k) == 0
  {
  }

  /** Pages move from the cache to the hand. */
  lemma {:induction false} OwnedAlloc(cfg: Config, c: Cache, rows: seq<int>, o: map<int, Own>, need: nat, ev: Eviction)
    requires Owned(cfg, c, rows, [], o) && LegalEviction(c, need, ev, cfg.ps)
    ensures Owned(cfg, AllocOp(c, need, ev, cfg.ps), rows, Allocated(c, need, ev, cfg.ps), o)
  {
    hide Balance, Count, Strided, Total, Range, PageShares, Allocated, AllocOp, LegalEviction, RowsOwned;
    forall k
      ensures PagesOwned(cfg, AllocOp(c, need, ev, cfg.ps), Allocated(c, need, ev, cfg.ps), o, k)
    {
      assert PagesOwned(cfg, c, [], o, k);
      AllocBalance(c, need, ev, cfg.ps, k);
      CountNone(k);
    }
  }

  // ---- segments

  /** The page starts of a stretch of slots do not depend on how far into its last page it reaches. */
  lemma {:induction false} StridedCeil(s: seq<int>, lo: nat, n: nat, ps: Pos)
    requires Aligned(lo, ps) && lo <= n && AlignUp(n, ps) <= |s|
    ensures Strided(s[lo..n], ps) == Strided(s[lo..AlignUp(n, ps)], ps)
    decreases n - lo
  {
    var up := AlignUp(n, ps);
    if n == lo {
      AlignBracket(n, ps);
    } else {
      AlignedDiff(up, lo, ps);
      StepAligned(lo, ps);
      if n - lo > ps {
        StridedCeil(s, lo + ps, n, ps);
        assert s[lo..n][ps..] == s[lo + ps..n];
        assert s[lo..up][ps..] == s[lo + ps..up];
      } else {
        CeilOfPage(lo, n, ps);
        assert s[lo..n][0] == s[lo..up][0];
      }
    }
  }

  lemma {:induction false} CeilOfPage(lo: nat, n: nat, ps: Pos)
    requires Aligned(lo, ps) && lo < n <= lo + ps
    ensures AlignUp(n, ps) == lo + ps
  {
    StepAligned(lo, ps);
    AlignedApart(AlignUp(n, ps), lo, ps);
    AlignedApart(AlignUp(n, ps), lo + ps, ps);
  }

  /** What the invariant says of one request. */
  lemma {:induction false} ReqFacts(cfg: Config, s: Sched, prep: set<int>, hand: seq<int>, u: int)
    requires RInv(cfg, s, prep, hand) && u in s.cache.held
    ensures ReqInv(cfg, s, prep, u)
    ensures |Locked(s.cache, u)| <= End(s, prep, u) <= AlignUp(End(s, prep, u), cfg.ps) <= cfg.width == |RowOf(s, u)|
  {
    hide Owned, Owners, Aligned, AlignUp, Whole, CacheOk;
    assert ReqInv(cfg, s, prep, u);
    AlignUpMono(End(s, prep, u), cfg.maxSeqLen, cfg.ps);
  }

  // ---- releasing a request and caching its prefix

  /** What a hand-over needs of a request: its computed tokens are known on the host, and it is not being prepared. */
  ghost predicate Settled(s: Sched, prep: set<int>, u: int)
  {
    u in s.cache.held && u !in prep && Get(s.reqs, u).cachedLen <= |Get(s.reqs, u).ids|
  }

  /** The tokens a hand-over passes on, and the slots they are computed in. */
  ghost function Computed(r: Req): seq<int> {
    Upto(r.ids, r.cachedLen)
  }

  /** The cache manager's call that a hand-over amounts to. */
  lemma {:induction false} HandOverCall(cfg: Config, s: Sched, prep: set<int>, hand: seq<int>, u: int, finished: bool)
    requires RInv(cfg, s, prep, hand) && Settled(s, prep, u)
    ensures var r, row := Get(s.reqs, u), Upto(RowOf(s, u), Get(s.reqs, u).cachedLen);
            && r.uid == u && |Computed(r)| == r.cachedLen == |row| && CacheOk(s.cache, cfg.ps)
            && Follows(s.cache, u, Computed(r), cfg.ps)
            && HandOver(s.cache, r, s.table, finished, cfg.ps)
               == CacheReqOp(s.cache, u, Computed(r), row, finished, cfg.ps)
  {
    hide Owned, Owners, CacheOk, CacheReqOp, Aligned, Whole, Segment;
    ReqFacts(cfg, s, prep, hand, u);
    var r, h := Get(s.reqs, u), Locked(s.cache, u);
    assert h == r.ids[..|h|];
  }

  /** The computed tokens in whole pages. */
  ghost function WholePart(cfg: Config, r: Req): nat {
    AlignDown(r.cachedLen, cfg.ps)
  }

  lemma {:induction false} HandOverState(cfg: Config, s: Sched, prep: set<int>, hand: seq<int>, u: int, finished: bool)
    requires RInv(cfg, s, prep, hand) && Settled(s, prep, u)
    ensures var r, c := Get(s.reqs, u), s.cache;
            var c' := HandOver(c, r, s.table, finished, cfg.ps);
            && CacheOk(c', cfg.ps) && Avail(c') >= Avail(c)
            && c'.held == (if finished then c.held - {u} else c.held[u := Upto(r.ids, WholePart(cfg, r))])
  {
    hide RInv, CacheOk, Avail, CacheReqOp, HandOver, Follows, AlignDown;
    var r := Get(s.reqs, u);
    var row := Upto(RowOf(s, u), r.cachedLen);
    HandOverCall(cfg, s, prep, hand, u, finished);
    CacheReqKeeps(s.cache, u, Computed(r), row, finished, cfg.ps);
    CacheReqAvail(s.cache, u, Computed(r), row, finished, cfg.ps);
    assert Pages(Computed(r), cfg.ps) == Upto(r.ids, WholePart(cfg, r));
  }

  /** The slots of a request that lie behind its whole part: what it keeps when only its prefix is cached. */
  ghost function TailSlots(cfg: Config, s: Sched, u: int): seq<int> {
    Slice(RowOf(s, u), WholePart(cfg, Get(s.reqs, u)), AlignUp(Get(s.reqs, u).cachedLen, cfg.ps))
  }

  lemma {:induction false} HandOverPages(cfg: Config, s: Sched, prep: set<int>, hand: seq<int>, u: int,
                                         finished: bool, k: Pick)
    requires RInv(cfg, s, prep, hand) && Settled(s, prep, u)
    ensures Balance(HandOver(s.cache, Get(s.reqs, u), s.table, finished, cfg.ps), cfg.ps, k)
            + (if finished then 0 else Count(Strided(TailSlots(cfg, s, u), cfg.ps), k))
         == Balance(s.cache, cfg.ps, k) + Count(Strided(Segment(cfg, s, prep, u), cfg.ps), k)
  {
    hide RInv, CacheOk, Balance, CacheReqOp, HandOver, Follows, AlignDown, AlignUp, Strided, Count;
    var r, row := Get(s.reqs, u), RowOf(s, u);
    HandOverCall(cfg, s, prep, hand, u, finished);
    ReqFacts(cfg, s, prep, hand, u);
    CacheReqBalance(s.cache, u, Computed(r), Upto(row, r.cachedLen), finished, cfg.ps, k);
    CutRow(row, |Locked(s.cache, u)|, r.cachedLen, cfg.ps);
    CutRow(row, WholePart(cfg, r), r.cachedLen, cfg.ps);
  }

  lemma {:induction false} CutRow(row: seq<int>, lo: nat, n: nat, ps: Pos)
    requires Aligned(lo, ps) && lo <= n && AlignUp(n, ps) <= |row|
    ensures Strided(From(Upto(row, n), lo), ps) == Strided(Slice(row, lo, AlignUp(n, ps)), ps)
  {
    hide Strided, Aligned, AlignUp;
    StridedCeil(row, lo, n, ps);
    assert row[..n][lo..] == row[lo..n];
    assert row[..AlignUp(n, ps)][lo..] == row[lo..AlignUp(n, ps)];
  }

  /** A step that leaves a request, its lock and its row alone. */
  ghost predicate Same(s: Sched, s': Sched, prep: set<int>, prep': set<int>, v: int) {
    && v in s'.cache.held && v in s'.reqs && Get(s'.reqs, v) == Get(s.reqs, v)
    && Locked(s'.cache, v) == Locked(s.cache, v) && RowOf(s', v) == RowOf(s, v) && (v in prep <==> v in prep')
  }

  lemma {:induction false} Untouched(cfg: Config, s: Sched, s': Sched, prep: set<int>, prep': set<int>, v: int)
    requires ReqInv(cfg, s, prep, v) && Same(s, s', prep, prep', v)
    ensures ReqInv(cfg, s', prep', v) && OwnOf(cfg, s', prep', v) == OwnOf(cfg, s, prep, v)
  {
    hide Whole, Aligned, AlignUp;
  }

  /** Releasing a request gives its row and all its pages back. */
  lemma {:induction false} ReleaseKeeps(cfg: Config, s: Sched, prep: set<int>, hand: seq<int>, u: int)
    requires RInv(cfg, s, prep, hand) && Settled(s, prep, u)
    ensures var s' := Release(cfg, s, u);
            RInv(cfg, s', prep, hand) && s'.cache.held == s.cache.held - {u} && Avail(s'.cache) >= Avail(s.cache)
  {
    hide CacheOk, Owned, HandOver, Avail, ReqInv, Same, OwnOf, Shape, Balance, Count, Strided;
    var s' := Release(cfg, s, u);
    HandOverState(cfg, s, prep, hand, u, true);
    forall v | v in s.cache.held && v != u
      ensures ReqInv(cfg, s', prep, v) && OwnOf(cfg, s', prep, v) == OwnOf(cfg, s, prep, v)
    {
      ReqFacts(cfg, s, prep, hand, v);
      SameAfterRelease(cfg, s, s', prep, u, v);
      Untouched(cfg, s, s', prep, prep, v);
    }
    var o := Owners(cfg, s, prep);
    forall k
      ensures Balance(s'.cache, cfg.ps, k) == Balance(s.cache, cfg.ps, k) + Count(Strided(o[u].slots, cfg.ps), k)
    {
      HandOverPages(cfg, s, prep, hand, u, true, k);
      OwnIs(cfg, s, prep, u);
    }
    OwnIs(cfg, s, prep, u);
    OwnedDrop(cfg, s.cache, s'.cache, s.rows, hand, o, u);
    assert Owners(cfg, s', prep) == o - {u};
  }

  lemma {:induction false} OwnIs(cfg: Config, s: Sched, prep: set<int>, u: int)
    ensures OwnOf(cfg, s, prep, u).slots == Segment(cfg, s, prep, u) && OwnOf(cfg, s, prep, u).row == Get(s.reqs, u).row
  {
    hide Segment;
  }

  lemma {:induction false} SameAfterRelease(cfg: Config, s: Sched, s': Sched, prep: set<int>, u: int, v: int)
    requires v in s.cache.held && v != u && v in s.reqs && s'.cache.held == s.cache.held - {u}
    requires s'.reqs == s.reqs && s'.table == s.table
    ensures Same(s, s', prep, prep, v)
  {
  }

  lemma {:induction false} KeptSegment(cfg: Config, s: Sched, prep: set<int>, hand: seq<int>, u: int)
    requires RInv(cfg, s, prep, hand) && Settled(s, prep, u)
    ensures var s' := KeepCached(cfg, s, u);
            ReqInv(cfg, s', prep, u) && OwnOf(cfg, s', prep, u) == Own(Get(s.reqs, u).row, TailSlots(cfg, s, u))
  {
    hide RInv, HandOver, CacheOk, Avail, Aligned, AlignUp, AlignDown, Whole;
    HandOverState(cfg, s, prep, hand, u, false);
    HandOverCall(cfg, s, prep, hand, u, false);
    ReqFacts(cfg, s, prep, hand, u);
    var r, row, hl := Get(s.reqs, u), RowOf(s, u), |Locked(s.cache, u)|;
    var il, up := WholePart(cfg, r), AlignUp(r.cachedLen, cfg.ps);
    AlignBracket(r.cachedLen, cfg.ps);
    LockBelowWhole(hl, r.cachedLen, cfg.ps);
    WholeTail(row, hl, il, up, cfg.ps);
  }

  lemma {:induction false} LockBelowWhole(hl: nat, n: nat, ps: Pos)
    requires Aligned(hl, ps) && hl <= n
    ensures hl <= AlignDown(n, ps)
  {
    hide *;
    AlignedApart(hl, AlignDown(n, ps), ps);
  }

  lemma {:induction false} WholeTail(row: seq<int>, lo: nat, mid: nat, hi: nat, ps: Pos)
    requires lo <= mid <= hi <= |row| && Aligned(lo, ps) && Aligned(mid, ps) && Aligned(hi, ps)
    requires Whole(Slice(row, lo, hi), ps)
    ensures Whole(Slice(row, mid, hi), ps)
  {
    hide Whole, Aligned;
    AlignedDiff(mid, lo, ps);
    AlignedDiff(hi, lo, ps);
    WholeCut(Slice(row, lo, hi), mid - lo, ps);
    assert row[..hi][lo..][mid - lo..] == row[..hi][mid..];
  }

  /** Caching a request's prefix moves its whole computed pages into the prefix map and its lock along. */
  lemma {:induction false} KeepCachedKeeps(cfg: Config, s: Sched, prep: set<int>, hand: seq<int>, u: int)
    requires RInv(cfg, s, prep, hand) && Settled(s, prep, u)
    ensures var s' := KeepCached(cfg, s, u);
            && RInv(cfg, s', prep, hand) && Avail(s'.cache) >= Avail(s.cache)
            && s'.cache.held == s.cache.held[u := Upto(Get(s.reqs, u).ids, WholePart(cfg, Get(s.reqs, u)))]
  {
    hide CacheOk, Owned, HandOver, Avail, ReqInv, Same, OwnOf, Shape, Balance, Count, Strided, TailSlots;
    var s' := KeepCached(cfg, s, u);
    HandOverState(cfg, s, prep, hand, u, false);
    KeptSegment(cfg, s, prep, hand, u);
    forall v | v in s.cache.held && v != u
      ensures ReqInv(cfg, s', prep, v) && OwnOf(cfg, s', prep, v) == OwnOf(cfg, s, prep, v)
    {
      ReqFacts(cfg, s, prep, hand, v);
      SameAfterKeep(cfg, s, s', prep, u, v);
      Untouched(cfg, s, s', prep, prep, v);
    }
    var o := Owners(cfg, s, prep);
    OwnIs(cfg, s, prep, u);
    forall k
      ensures Balance(s'.cache, cfg.ps, k) + Count(hand, k) + Count(Strided(TailSlots(cfg, s, u), cfg.ps), k)
           == Balance(s.cache, cfg.ps, k) + Count(hand, k) + Count(Strided(o[u].slots, cfg.ps), k)
    {
      HandOverPages(cfg, s, prep, hand, u, false, k);
    }
    OwnedChange(cfg, s.cache, s'.cache, s.rows, hand, hand, o, u, TailSlots(cfg, s, u));
    assert Owners(cfg, s', prep) == o[u := Own(o[u].row, TailSlots(cfg, s, u))];
  }

  lemma {:induction false} SameAfterKeep(cfg: Config, s: Sched, s': Sched, prep: set<int>, u: int, v: int)
    requires v in s.cache.held && v != u && v in s.reqs
    requires s'.cache.held.Keys == s.cache.held.Keys + {u} && Locked(s'.cache, v) == Locked(s.cache, v)
    requires s'.reqs == s.reqs && s'.table == s.table
    ensures Same(s, s', prep, prep, v)
  {
  }
}
