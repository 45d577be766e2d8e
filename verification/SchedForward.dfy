/** From a planned batch to the next idle state: its pages are written to the rows, the forward pass advances every
request by one step, and post-processing appends the sampled tokens, releases what is finished and caches prefixes. */
module SchedForward {
  import opened Paging
  import opened Sums
  import opened PrefixStore
  import opened CacheSpec
  import opened Requests
  import opened SchedSpec
  import opened SchedInv
  import opened SchedAdmit
  import opened SchedRound
  import opened SchedBatch

  // ---- sizes of page stretches

  /** The pages a request needs fill its row exactly from the end of its last page to that of its next batch. */
  lemma {:induction false} NeedFills(r: Req, ps: Pos, pages: seq<int>)
    requires r.cachedLen <= r.deviceLen && |pages| == PagesNeeded(r, ps)
    ensures AlignUp(r.cachedLen, ps) + |Expand(pages, ps)| == AlignUp(r.deviceLen, ps)
  {
    hide Expand, AlignUp, DivCeil;
    ExpandSize(pages, ps);
    DivCeilIsDivision(r.cachedLen, ps);
    DivCeilIsDivision(r.deviceLen, ps);
    AlignUpMono(r.cachedLen, r.deviceLen, ps);
    FactorDifference(DivCeil(r.deviceLen, ps), DivCeil(r.cachedLen, ps), |pages|, ps);
  }

  lemma {:induction false} FactorDifference(d: nat, c: nat, n: nat, ps: Pos)
    requires n == (if d > c then d - c else 0) && c * ps <= d * ps
    ensures c * ps + n * ps == d * ps
  {
    if d > c {
      assert (c + n) * ps == c * ps + n * ps;
    } else {
      MultiplesApart(d, c, ps);
      assert 0 * ps == 0;
    }
  }

  // ---- writing the pages of one request

  /** A request about to be computed: it holds resources and its pages are not written yet. */
  ghost predicate Ready(cfg: Config, s: Sched, prep: set<int>, u: int) {
    && u in s.cache.held && u !in prep
    && Get(s.reqs, u).cachedLen < Get(s.reqs, u).deviceLen <= cfg.maxSeqLen
  }

  ghost function Assigned(cfg: Config, s: Sched, u: int, pages: seq<int>): Sched {
    s.(table := WriteRow(s.table, Get(s.reqs, u).row, AlignUp(Get(s.reqs, u).cachedLen, cfg.ps), Expand(pages, cfg.ps)))
  }

  lemma {:induction false} AssignedRow(cfg: Config, s: Sched, prep: set<int>, hand: seq<int>, u: int, pages: seq<int>)
    requires RInv(cfg, s, prep, hand) && Ready(cfg, s, prep, u) && |pages| == PagesNeeded(Get(s.reqs, u), cfg.ps)
    ensures var s' := Assigned(cfg, s, u, pages);
            && Shape(s'.table, cfg.numRows + 1, cfg.width)
            && Segment(cfg, s', prep + {u}, u) == Segment(cfg, s, prep, u) + Expand(pages, cfg.ps)
            && (forall v | v in s.cache.held && v != u :: RowOf(s', v) == RowOf(s, v))
  {
    hide Owned, Owners, Aligned, AlignUp, Whole, CacheOk, Expand, WriteRow, DivCeil, PagesNeeded;
    var r, ps := Get(s.reqs, u), cfg.ps;
    ReqFacts(cfg, s, prep, hand, u);
    NeedFills(r, ps, pages);
    AlignUpMono(r.deviceLen, cfg.maxSeqLen, ps);
    var s' := Assigned(cfg, s, u, pages);
    WriteRowFacts(s.table, r.row, AlignUp(r.cachedLen, ps), Expand(pages, ps), cfg.numRows + 1, cfg.width);
    SliceGrows(RowOf(s, u), RowOf(s', u), |Locked(s.cache, u)|, AlignUp(r.cachedLen, ps), Expand(pages, ps));
    forall v | v in s.cache.held && v != u
      ensures RowOf(s', v) == RowOf(s, v)
    {
      RowsApart(cfg, s, prep, hand, u, v);
      ReqFacts(cfg, s, prep, hand, v);
    }
  }

  lemma {:induction false} SliceGrows(row: seq<int>, row': seq<int>, lo: nat, mid: nat, more: seq<int>)
    requires lo <= mid && mid + |more| <= |row| == |row'|
    requires row'[..mid] == row[..mid] && row'[mid..mid + |more|] == more
    ensures Slice(row', lo, mid + |more|) == Slice(row, lo, mid) + more
  {
    assert row'[..mid + |more|] == row'[..mid] + row'[mid..mid + |more|];
  }

  lemma {:induction false} AssignedReq(cfg: Config, s: Sched, prep: set<int>, hand: seq<int>, u: int, pages: seq<int>)
    requires RInv(cfg, s, prep, hand) && Ready(cfg, s, prep, u) && |pages| == PagesNeeded(Get(s.reqs, u), cfg.ps)
    ensures var s' := Assigned(cfg, s, u, pages);
            && ReqInv(cfg, s', prep + {u}, u)
            && OwnOf(cfg, s', prep + {u}, u) == Own(Get(s.reqs, u).row,
              Segment(cfg, s, prep, u) + Expand(pages, cfg.ps))
            && Strided(Segment(cfg, s, prep, u) + Expand(pages, cfg.ps), cfg.ps)
               == Strided(Segment(cfg, s, prep, u), cfg.ps) + pages
  {
    hide RInv, Segment, Expand, WriteRow, AlignUp, PagesNeeded, Aligned, Strided, Whole;
    AssignedRow(cfg, s, prep, hand, u, pages);
    ReqFacts(cfg, s, prep, hand, u);
    SegmentAligned(cfg, s, prep, hand, u);
    WholeConcat(Segment(cfg, s, prep, u), pages, cfg.ps);
  }

  lemma {:induction false} SegmentAligned(cfg: Config, s: Sched, prep: set<int>, hand: seq<int>, u: int)
    requires RInv(cfg, s, prep, hand) && u in s.cache.held
    ensures Aligned(|Segment(cfg, s, prep, u)|, cfg.ps)
  {
    hide RInv, Aligned, AlignUp, Whole;
    ReqFacts(cfg, s, prep, hand, u);
    AlignedDiff(AlignUp(End(s, prep, u), cfg.ps), |Locked(s.cache, u)|, cfg.ps);
  }

  lemma {:induction false} AssignOne(cfg: Config, s: Sched, prep: set<int>, hand: seq<int>, u: int, n: nat)
    requires RInv(cfg, s, prep, hand) && Ready(cfg, s, prep, u) && n == PagesNeeded(Get(s.reqs, u), cfg.ps) <= |hand|
    ensures RInv(cfg, Assigned(cfg, s, u, hand[..n]), prep + {u}, hand[n..])
  {
    hide Owned, Segment, Expand, WriteRow, AlignUp, PagesNeeded, Strided, ReqInv, OwnOf, Same, CacheOk, Balance, Count;
    var pages, s' := hand[..n], Assigned(cfg, s, u, hand[..n]);
    AssignedRow(cfg, s, prep, hand, u, pages);
    AssignedReq(cfg, s, prep, hand, u, pages);
    forall v | v in s.cache.held && v != u
      ensures ReqInv(cfg, s', prep + {u}, v) && OwnOf(cfg, s', prep + {u}, v) == OwnOf(cfg, s, prep, v)
    {
      ReqFacts(cfg, s, prep, hand, v);
      AssignSame(cfg, s, s', prep, u, v);
      Untouched(cfg, s, s', prep, prep + {u}, v);
    }
    var o, seg := Owners(cfg, s, prep), Segment(cfg, s, prep, u) + Expand(pages, cfg.ps);
    OwnIs(cfg, s, prep, u);
    forall k
      ensures Balance(s.cache, cfg.ps, k) + Count(hand[n..], k) + Count(Strided(seg, cfg.ps), k)
           == Balance(s.cache, cfg.ps, k) + Count(hand, k) + Count(Strided(o[u].slots, cfg.ps), k)
    {
      CountConcat(Strided(Segment(cfg, s, prep, u), cfg.ps), pages, k);
      CountConcat(pages, hand[n..], k);
      assert pages + hand[n..] == hand;
    }
    OwnedChange(cfg, s.cache, s.cache, s.rows, hand, hand[n..], o, u, seg);
    assert Owners(cfg, s', prep + {u}) == o[u := Own(o[u].row, seg)];
  }

  lemma {:induction false} AssignSame(cfg: Config, s: Sched, s': Sched, prep: set<int>, u: int, v: int)
    requires ReqInv(cfg, s, prep, v) && v != u && RowOf(s', v) == RowOf(s, v)
    requires s'.reqs == s.reqs && s'.cache == s.cache
    ensures Same(s, s', prep, prep + {u}, v)
  {
    hide Whole, Segment, Aligned;
  }

  // ---- writing the pages of the batch

  ghost predicate AllReady(cfg: Config, s: Sched, prep: set<int>, es: seq<Entry>) {
    && (forall i, j {:trigger es[i], es[j]} | 0 <= i < j < |es| :: es[i].uid != es[j].uid)
    && forall i {:trigger es[i]} | 0 <= i < |es| :: Ready(cfg, s, prep, es[i].uid)
  }

  lemma {:induction false} AllReadyRest(cfg: Config, s: Sched, s': Sched, prep: set<int>, es: seq<Entry>)
    requires AllReady(cfg, s, prep, es) && es != [] && s'.reqs == s.reqs && s'.cache == s.cache
    ensures Ready(cfg, s, prep, es[0].uid) && AllReady(cfg, s', prep + {es[0].uid}, es[1..])
  {
    assert forall i | 0 <= i < |es[1..]| :: es[1..][i] == es[i + 1];
  }

  lemma {:induction false} AssignKeeps(cfg: Config, s: Sched, prep: set<int>, es: seq<Entry>, pages: seq<int>)
    requires RInv(cfg, s, prep, pages) && AllReady(cfg, s, prep, es) && |pages| == PagesFor(cfg, s.reqs, es)
    ensures RInv(cfg, s.(table := AssignPages(cfg, s.reqs, s.table, es, pages)), prep + Uids(es), [])
    decreases |es|
  {
    hide RInv, PagesNeeded, WriteRow, Expand, AlignUp, Ready, Uids;
    if es == [] {
      NoUids();
      assert prep + {} == prep;
      assert s.(table := s.table) == s;
    } else {
      var u := es[0].uid;
      var n := PagesNeeded(Get(s.reqs, u), cfg.ps);
      var s' := Assigned(cfg, s, u, pages[..n]);
      AllReadyRest(cfg, s, s', prep, es);
      AssignOne(cfg, s, prep, pages, u, n);
      AssignKeeps(cfg, s', prep + {u}, es[1..], pages[n..]);
      UidsSplit(es);
      assert prep + {u} + Uids(es[1..]) == prep + Uids(es);
    }
  }

  lemma {:induction false} NoUids()
    ensures Uids([]) == {}
  {
  }

  /** When no page is needed, every request of the batch stays within its last page. */
  lemma {:induction false} NoPages(cfg: Config, reqs: map<int, Req>, es: seq<Entry>, i: nat)
    requires PagesFor(cfg, reqs, es) == 0 && i < |es|
    ensures PagesNeeded(Get(reqs, es[i].uid), cfg.ps) == 0
    decreases |es|
  {
    if i > 0 {
      NoPages(cfg, reqs, es[1..], i - 1);
    }
  }

  lemma {:induction false} PrepNothing(cfg: Config, s: Sched, es: seq<Entry>)
    requires RInv(cfg, s, {}, []) && AllReady(cfg, s, {}, es) && PagesFor(cfg, s.reqs, es) == 0
    ensures RInv(cfg, s, Uids(es), [])
  {
    hide RInv, PagesFor, PagesNeeded, ReqInv, OwnOf, Ready, Shape;
    forall v | v in s.cache.held
      ensures ReqInv(cfg, s, Uids(es), v) && OwnOf(cfg, s, Uids(es), v) == OwnOf(cfg, s, {}, v)
    {
      ReqFacts(cfg, s, {}, [], v);
      if v in Uids(es) {
        var e :| e in es && e.uid == v;
        var i :| 0 <= i < |es| && es[i] == e;
        NoPages(cfg, s.reqs, es, i);
        PrepSame(cfg, s, Uids(es), v);
      } else {
        SamePrep(cfg, s, Uids(es), v);
        Untouched(cfg, s, s, {}, Uids(es), v);
      }
    }
    PoolShape(cfg, s);
    RInvFrame(cfg, s, s, {}, Uids(es), []);
  }

  lemma {:induction false} SamePrep(cfg: Config, s: Sched, prep: set<int>, v: int)
    requires ReqInv(cfg, s, {}, v) && v !in prep
    ensures Same(s, s, {}, prep, v)
  {
  }

  lemma {:induction false} PrepSame(cfg: Config, s: Sched, prep: set<int>, v: int)
    requires ReqInv(cfg, s, {}, v) && Ready(cfg, s, {}, v) && v in prep
    requires PagesNeeded(Get(s.reqs, v), cfg.ps) == 0
    ensures ReqInv(cfg, s, prep, v) && OwnOf(cfg, s, prep, v) == OwnOf(cfg, s, {}, v)
  {
    hide Whole, Aligned, AlignUp, DivCeil, PagesNeeded, Expand;
    NeedFills(Get(s.reqs, v), cfg.ps, []);
    assert Expand([], cfg.ps) == [] by { NoSlots(cfg.ps); }
  }

  lemma {:induction false} NoSlots(ps: Pos)
    ensures Expand([], ps) == []
  {
  }

  /** What a prepared batch asks of the cache: if it needs pages, an eviction that the cache can perform. */
  ghost predicate CanPrepare(cfg: Config, s: Sched, b: Batch, ev: Eviction) {
    var need := PagesFor(cfg, s.reqs, b.entries);
    need > 0 ==> LegalEviction(s.cache, need, ev, cfg.ps)
  }

  lemma {:induction false} PlannedReady(cfg: Config, s: Sched, b: Batch, others: set<int> := {})
    requires Planned(cfg, s, b, others)
    ensures AllReady(cfg, s, {}, b.entries)
  {
    hide QueueOk, RunningOk, HeadReady, ChunksQueued, DoneOk, ChunkUids;
    forall i | 0 <= i < |b.entries|
      ensures Ready(cfg, s, {}, b.entries[i].uid)
    {
      assert b.entries[i] in b.entries;
      assert EntryOk(cfg, s, b.entries[i]);
    }
  }

  /** Preparing the batch gives each of its requests the pages it will write, and takes nothing from anyone else. */
  lemma {:induction false} PrepareKeeps(cfg: Config, s: Sched, b: Batch, ev: Eviction, others: set<int> := {})
    requires RInv(cfg, s, {}, []) && Planned(cfg, s, b, others) && CanPrepare(cfg, s, b, ev)
    ensures var s' := Prepare(cfg, s, b, ev);
            && RInv(cfg, s', Uids(b.entries), []) && s'.cache.held == s.cache.held
            && s' == s.(cache := s'.cache, table := s'.table)
  {
    hide RInv, Planned, PagesFor, AllReady, LegalEviction, Refilled, Strided, AssignPages, Uids;
    PlannedReady(cfg, s, b, others);
    var need := PagesFor(cfg, s.reqs, b.entries);
    if need == 0 {
      PrepNothing(cfg, s, b.entries);
    } else {
      var pages := Allocated(s.cache, need, ev, cfg.ps);
      var s1 := s.(cache := AllocOp(s.cache, need, ev, cfg.ps));
      AllocStep(cfg, s, need, ev);
      AllReadyCache(cfg, s, s1, b.entries);
      AllocBalance(s.cache, need, ev, cfg.ps, All);
      AssignKeeps(cfg, s1, {}, b.entries, pages);
      assert {} + Uids(b.entries) == Uids(b.entries);
    }
  }

  lemma {:induction false} AllReadyCache(cfg: Config, s: Sched, s': Sched, es: seq<Entry>)
    requires AllReady(cfg, s, {}, es) && s'.reqs == s.reqs && s'.cache.held == s.cache.held
    ensures AllReady(cfg, s', {}, es)
  {
  }

  lemma {:induction false} AllocStep(cfg: Config, s: Sched, need: nat, ev: Eviction)
    requires RInv(cfg, s, {}, []) && LegalEviction(s.cache, need, ev, cfg.ps)
    ensures RInv(cfg, s.(cache := AllocOp(s.cache, need, ev, cfg.ps)), {}, Allocated(s.cache, need, ev, cfg.ps))
  {
    hide Owned, LegalEviction, Allocated, Refilled, Shape, ReqInv, OwnOf, Same, StoreOk;
    var s' := s.(cache := AllocOp(s.cache, need, ev, cfg.ps));
    AllocKeeps(s.cache, need, ev, cfg.ps);
    forall v | v in s.cache.held
      ensures ReqInv(cfg, s', {}, v) && OwnOf(cfg, s', {}, v) == OwnOf(cfg, s, {}, v)
    {
      ReqFacts(cfg, s, {}, [], v);
      SameLocks(cfg, s, s', v);
      Untouched(cfg, s, s', {}, {}, v);
    }
    OwnedAlloc(cfg, s.cache, s.rows, Owners(cfg, s, {}), need, ev);
    assert Owners(cfg, s', {}) == Owners(cfg, s, {});
  }

  lemma {:induction false} SameLocks(cfg: Config, s: Sched, s': Sched, v: int)
    requires ReqInv(cfg, s, {}, v) && s'.cache.held == s.cache.held && s'.reqs == s.reqs && s'.table == s.table
    ensures Same(s, s', {}, {}, v)
  {
  }
}
