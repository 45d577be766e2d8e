/** Where a batch writes its keys and values: the flattened slots of its requests are pairwise distinct, each in the
part of a row its own request owns, and none on a free or stored page. */
module SchedIsolation {
  import opened Paging
  import opened Sums
  import opened PrefixStore
  import opened CacheSpec
  import opened Requests
  import opened SchedSpec
  import opened SchedInv
  import opened SchedAdmit
  import opened SchedRound
  import opened SchedBatch
  import opened SchedForward
  import opened SchedPost
  import opened SchedRun

  // ---- the flattened batch

  /** The slots a request writes in this step: those of its row from the computed tokens to the end of the batch. */
  ghost function WriteSlots(s: Sched, u: int): seq<int> {
    Slice(RowOf(s, u), Get(s.reqs, u).cachedLen, Get(s.reqs, u).deviceLen)
  }

  /** The slots of the whole batch, request after request. */
  ghost function OutLoc(s: Sched, es: seq<Entry>): seq<int> {
    if es == [] then [] else WriteSlots(s, es[0].uid) + OutLoc(s, es[1..])
  }

  // ---- slots and their pages

  /** Slots that lie in aligned pages occur as often as their page. */
  lemma {:induction false} CountExpand(pages: seq<int>, ps: Pos, x: nat)
    requires forall p: int | p in pages :: p >= 0 && Aligned(p, ps)
    ensures Count(Expand(pages, ps), One(x)) == Count(pages, One(AlignDown(x, ps)))
    decreases |pages|
  {
    hide Aligned, AlignDown;
    if pages != [] {
      var first, rest := seq(ps, i => pages[0] + i), pages[1..];
      assert pages[0] in pages && forall p | p in rest :: p in pages;
      CountExpand(rest, ps, x);
      CountConcat(first, Expand(rest, ps), One(x));
      CountBlock(pages[0], ps, x);
    }
  }

  lemma {:induction false} CountBlock(page: nat, ps: Pos, x: nat)
    requires Aligned(page, ps)
    ensures Count(seq(ps, i => page + i), One(x)) == Hit(One(AlignDown(x, ps)), page)
  {
    hide Aligned, AlignDown, Count;
    CountInterval(page, ps, x);
    AlignedApart(page, AlignDown(x, ps), ps);
    AlignedApart(AlignDown(x, ps), page, ps);
  }

  lemma {:induction false} CountInterval(from: int, n: nat, x: int)
    ensures Count(seq(n, i => from + i), One(x)) == if from <= x < from + n then 1 else 0
    decreases n
  {
    var s := seq(n, i => from + i);
    if n > 0 {
      CountInterval(from + 1, n - 1, x);
      assert s[1..] == seq(n - 1, i => from + 1 + i);
    }
  }

  /** A stretch counts no more than what contains it. */
  lemma {:induction false} CountPart(row: seq<int>, lo: nat, from: nat, to: nat, hi: nat, k: Pick)
    requires lo <= from <= to <= hi <= |row|
    ensures Count(Slice(row, from, to), k) <= Count(Slice(row, lo, hi), k)
  {
    var a, b, c := row[lo..from], row[from..to], row[to..hi];
    assert Slice(row, from, to) == b && Slice(row, lo, hi) == a + (b + c);
    CountConcat(a, b + c, k);
    CountConcat(b, c, k);
  }

  // ---- ownership of one page

  ghost function OwnersOf(cfg: Config, s: Sched, prep: set<int>, x: int): map<int, nat> {
    PageShares(Owners(cfg, s, prep), cfg.ps, One(x))
  }

  lemma {:induction false} PageOnce(cfg: Config, s: Sched, prep: set<int>, page: int)
    requires RInv(cfg, s, prep, [])
    ensures Count(s.cache.free, One(page)) + StorePages(s.cache.store, cfg.ps, One(page))
            + Total(OwnersOf(cfg, s, prep, page)) <= 1
    ensures Total(OwnersOf(cfg, s, prep, page)) > 0 ==> page >= 0 && Aligned(page, cfg.ps)
  {
    hide Shapes, ReqsInv, RowsOwned, Range, Count, StorePages, Owners, PageShares, Aligned;
    assert PagesOwned(cfg, s.cache, [], Owners(cfg, s, prep), One(page));
    RangeOnce(0, cfg.numPages, cfg.ps, page);
    AlignedIsMod(0, cfg.ps);
    ZeroAligned(cfg.ps);
  }

  lemma {:induction false} ZeroAligned(ps: Pos)
    ensures Aligned(0, ps)
  {
  }

  lemma {:induction false} OwnPagesAligned(cfg: Config, s: Sched, prep: set<int>, u: int, page: int)
    requires RInv(cfg, s, prep, []) && u in s.cache.held && page in Strided(Segment(cfg, s, prep, u), cfg.ps)
    ensures page >= 0 && Aligned(page, cfg.ps)
  {
    hide RInv, Segment, Strided, Count, Aligned;
    PageOnce(cfg, s, prep, page);
    CountIn(Strided(Segment(cfg, s, prep, u), cfg.ps), page);
    TotalPick(OwnersOf(cfg, s, prep, page), u);
    OwnIs(cfg, s, prep, u);
  }

  /** A slot occurs in a request's owned part as often as its page is the request's. */
  lemma {:induction false} SlotShare(cfg: Config, s: Sched, prep: set<int>, u: int, x: nat)
    requires RInv(cfg, s, prep, []) && u in s.cache.held
    ensures Count(Segment(cfg, s, prep, u), One(x)) == OwnersOf(cfg, s, prep, AlignDown(x, cfg.ps))[u]
  {
    hide RInv, Segment, Strided, Count, Aligned, Expand, AlignDown;
    ReqFacts(cfg, s, prep, [], u);
    var pages := Strided(Segment(cfg, s, prep, u), cfg.ps);
    forall p: int | p in pages
      ensures p >= 0 && Aligned(p, cfg.ps)
    {
      OwnPagesAligned(cfg, s, prep, u, p);
    }
    CountExpand(pages, cfg.ps, x);
    OwnIs(cfg, s, prep, u);
  }

  // ---- the batch

  /** A prepared request writes only into what it owns. */
  lemma {:induction false} WritesOwn(cfg: Config, s: Sched, prep: set<int>, u: int, k: Pick)
    requires RInv(cfg, s, prep, []) && u in s.cache.held && u in prep
    ensures Count(WriteSlots(s, u), k) <= Count(Segment(cfg, s, prep, u), k)
    ensures |WriteSlots(s, u)| == Get(s.reqs, u).ExtendLen()
    ensures forall x | x in WriteSlots(s, u) :: x in Segment(cfg, s, prep, u)
  {
    hide RInv, Aligned, AlignUp, Count, Whole;
    ReqFacts(cfg, s, prep, [], u);
    var r := Get(s.reqs, u);
    CountPart(RowOf(s, u), |Locked(s.cache, u)|, r.cachedLen, r.deviceLen, AlignUp(r.deviceLen, cfg.ps), k);
    forall x | x in WriteSlots(s, u)
      ensures x in Segment(cfg, s, prep, u)
    {
      PartIn(RowOf(s, u), |Locked(s.cache, u)|, r.cachedLen, r.deviceLen, AlignUp(r.deviceLen, cfg.ps), x);
    }
  }

  lemma {:induction false} PartIn(row: seq<int>, lo: nat, from: nat, to: nat, hi: nat, x: int)
    requires lo <= from <= to <= hi <= |row| && x in Slice(row, from, to)
    ensures x in Slice(row, lo, hi)
  {
    var i :| 0 <= i < to - from && row[..to][from..][i] == x;
    assert row[..hi][lo..][from - lo + i] == x;
  }

  /** The occurrences of a slot in the batch are bounded by the shares its requests have in the slot's page. */
  lemma {:induction false} BatchShare(cfg: Config, s: Sched, prep: set<int>, es: seq<Entry>, x: nat, shares: map<int,
                                      nat>)
    requires RInv(cfg, s, prep, []) && DistinctEntries(es) && Uids(es) <= prep * s.cache.held.Keys
    requires forall u | u in Uids(es) :: u in shares && shares[u] == OwnersOf(cfg, s, prep, AlignDown(x, cfg.ps))[u]
    ensures Count(OutLoc(s, es), One(x)) <= Total(shares)
    decreases |es|
  {
    hide RInv, Segment, Count, WriteSlots, AlignDown, OwnersOf, Uids;
    if es != [] {
      var u := es[0].uid;
      UidsSplit(es);
      DistinctRest(es);
      WritesOwn(cfg, s, prep, u, One(x));
      SlotShare(cfg, s, prep, u, x);
      BatchShare(cfg, s, prep, es[1..], x, shares - {u});
      TotalPick(shares, u);
      CountConcat(WriteSlots(s, u), OutLoc(s, es[1..]), One(x));
    } else {
      CountNone(One(x));
    }
  }

  lemma {:induction false} OwnersKeys(cfg: Config, s: Sched, prep: set<int>, x: int)
    ensures OwnersOf(cfg, s, prep, x).Keys == s.cache.held.Keys
  {
    hide Segment;
  }

  /** Every slot occurs at most once in the batch, and then neither its page is free nor is it stored. */
  lemma {:induction false} WritesApart(cfg: Config, s: Sched, prep: set<int>, es: seq<Entry>, x: nat)
    requires RInv(cfg, s, prep, []) && DistinctEntries(es) && Uids(es) <= prep * s.cache.held.Keys
    ensures Count(OutLoc(s, es), One(x)) + Count(s.cache.free, One(AlignDown(x, cfg.ps)))
            + StorePages(s.cache.store, cfg.ps, One(AlignDown(x, cfg.ps))) <= 1
  {
    hide RInv, Count, OutLoc, AlignDown, OwnersOf, StorePages;
    var page := AlignDown(x, cfg.ps);
    OwnersKeys(cfg, s, prep, page);
    BatchShare(cfg, s, prep, es, x, OwnersOf(cfg, s, prep, page));
    PageOnce(cfg, s, prep, page);
  }

  /** The state in which a tick's batch runs: scheduled and with its pages written. */
  ghost predicate Prepared(cfg: Config, s: Sched, i: Input, s2: Sched, b: Batch) {
    && Schedule(cfg, ProcessMsgs(cfg, s, i.msgs)).1 == Some(b)
    && s2 == Prepare(cfg, Schedule(cfg, ProcessMsgs(cfg, s, i.msgs)).0, b, i.ev)
  }

  lemma {:induction false} PreparedInv(cfg: Config, s: Sched, i: Input, s2: Sched, b: Batch)
    requires NInv(cfg, s) && Admissible(cfg, s, i) && Prepared(cfg, s, i, s2, b)
    ensures RInv(cfg, s2, Uids(b.entries), []) && Planned(cfg, s2, b) && DistinctEntries(b.entries)
    ensures Uids(b.entries) <= s2.cache.held.Keys
  {
    hide NInv, AllFresh, ProcessMsgs, Schedule, CanPrepare, Prepare, RInv, Planned, DistinctEntries;
    var s0 := ProcessMsgs(cfg, s, i.msgs);
    MsgsKeep(cfg, s, i.msgs);
    ScheduleKeeps(cfg, s0);
    var s1 := Schedule(cfg, s0).0;
    PrepareKeeps(cfg, s1, b, i.ev);
    PlannedPrepared(cfg, s1, s2, b);
    PlannedEntries(cfg, s2, b);
  }

  /** The slots a batch writes are pairwise distinct, each lies in the part of a row its own request owns, and none is
  on a free page or a page of the prefix tree. */
  ghost predicate Isolated(cfg: Config, s: Sched, es: seq<Entry>) {
    && (forall x: nat {:trigger One(x)} ::
          Count(OutLoc(s, es), One(x)) + Count(s.cache.free, One(AlignDown(x, cfg.ps)))
          + StorePages(s.cache.store, cfg.ps, One(AlignDown(x, cfg.ps))) <= 1)
    && forall j, x {:trigger x in WriteSlots(s, es[j].uid)} | 0 <= j < |es| && x in WriteSlots(s, es[j].uid) ::
         x >= 0 && x in Segment(cfg, s, Uids(es), es[j].uid)
  }

  lemma {:induction false} IsolatedOf(cfg: Config, s: Sched, es: seq<Entry>)
    requires RInv(cfg, s, Uids(es), []) && DistinctEntries(es) && Uids(es) <= s.cache.held.Keys
    ensures Isolated(cfg, s, es)
  {
    hide RInv, DistinctEntries, OutLoc, Count, StorePages, AlignDown, Uids, Segment, WriteSlots;
    forall x: nat
      ensures Count(OutLoc(s, es), One(x)) + Count(s.cache.free, One(AlignDown(x, cfg.ps)))
              + StorePages(s.cache.store, cfg.ps, One(AlignDown(x, cfg.ps))) <= 1
    {
      WritesApart(cfg, s, Uids(es), es, x);
    }
    forall j, x | 0 <= j < |es| && x in WriteSlots(s, es[j].uid)
      ensures x >= 0 && x in Segment(cfg, s, Uids(es), es[j].uid)
    {
      InUids(es, j);
      WritesOwn(cfg, s, Uids(es), es[j].uid, One(x));
      SlotsNatural(cfg, s, Uids(es), es[j].uid, x);
    }
  }

  /** KV write isolation: in every run, whenever a batch is about to run, it writes only slots of its own requests, each
  once. */
  lemma {:induction false} WriteIsolation(cfg: Config, ins: seq<Input>, i: Input, s2: Sched, b: Batch)
    requires IsRun(cfg, ins + [i]) && Prepared(cfg, StateAfter(cfg, ins), i, s2, b)
    ensures Isolated(cfg, s2, b.entries)
  {
    hide NInv, Admissible, Prepared, RInv, Planned, StateAfter, DistinctEntries, Uids, Isolated;
    var ins' := ins + [i];
    assert ins'[..|ins'| - 1] == ins && ins'[|ins'| - 1] == i;
    Reachable(cfg, ins);
    PreparedInv(cfg, StateAfter(cfg, ins), i, s2, b);
    IsolatedOf(cfg, s2, b.entries);
  }

  lemma {:induction false} SlotsNatural(cfg: Config, s: Sched, prep: set<int>, u: int, x: int)
    requires RInv(cfg, s, prep, []) && u in s.cache.held && x in Segment(cfg, s, prep, u)
    ensures x >= 0
  {
    hide RInv, Segment, Strided, Aligned;
    ReqFacts(cfg, s, prep, [], u);
    var page := ExpandIn(Strided(Segment(cfg, s, prep, u), cfg.ps), cfg.ps, x);
    OwnPagesAligned(cfg, s, prep, u, page);
  }

  lemma {:induction false} ExpandIn(pages: seq<int>, ps: Pos, x: int) returns (page: int)
    requires x in Expand(pages, ps)
    ensures page in pages && page <= x < page + ps
    decreases |pages|
  {
    var first := seq(ps, i => pages[0] + i);
    if x in first {
      page := pages[0];
    } else {
      assert x in Expand(pages[1..], ps);
      page := ExpandIn(pages[1..], ps, x);
    }
  }
}
