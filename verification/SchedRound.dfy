/** One admission round: every queued request taken gets its row, its lock and its share of the budget, and the
invariant holds for those taken and those left. */
module SchedRound {
  import opened Paging
  import opened PrefixStore
  import opened CacheSpec
  import opened Requests
  import opened SchedSpec
  import opened SchedInv
  import opened SchedAdmit

  /** The request object that admission made for the entry `p`. */
  ghost predicate AddedFrom(s: Sched, q: Req, p: Pending) {
    && q.uid == p.uid && q.uid in s.reqs && Get(s.reqs, q.uid) == q
    && q.ids <= p.ids && |q.ids| == q.deviceLen && q.cachedLen < q.deviceLen
    && (q.chunked <==> q.deviceLen < |p.ids|)
    && q.maxLen == q.deviceLen + p.params.maxTokens && q.params == p.params
  }

  lemma {:induction false} AddReqFacts(s: Sched, a: Adder, p: Pending, row: int, cached: nat)
    requires cached < |p.ids| && a.budget > 0
    ensures var (s', a', q) := AddReq(s, a, p, row, cached);
            && AddedFrom(s', q, p) && q.row == row && q.cachedLen == cached
            && s' == s.(reqs := s.reqs[p.uid := q], pool := s'.pool)
            && a' == Adder(a.budget - (q.deviceLen - q.cachedLen), a.reserved + |p.ids| - cached + p.params.maxTokens)
            && a'.budget >= 0 && (q.chunked ==> a'.budget == 0)
    ensures forall rows, width | Shape(s.pool, rows, width) :: Shape(AddReq(s, a, p, row, cached).0.pool, rows, width)
  {
    var (s', a', q) := AddReq(s, a, p, row, cached);
    forall rows, width | Shape(s.pool, rows, width)
      ensures Shape(s'.pool, rows, width)
    {
      WriteRowFacts(s.pool, row, cached, p.ids[cached..q.deviceLen], rows, width);
    }
  }

  // ---- the next chunk of a queued prompt

  /** Giving the queued chunk its next share of the budget changes nothing it owns. */
  lemma {:induction false} NextChunkRes(cfg: Config, s: Sched, s': Sched, u: int, q: Req)
    requires RInv(cfg, s, {}, []) && u in s.cache.held
    requires q.uid == u && q.row == Get(s.reqs, u).row && q.cachedLen == Get(s.reqs, u).cachedLen
    requires Get(s.reqs, u).ids <= q.ids && q.cachedLen < q.deviceLen
    requires s' == s.(reqs := s.reqs[u := q], pool := s'.pool) && Shape(s'.pool, cfg.numRows + 1, cfg.width)
    ensures RInv(cfg, s', {}, [])
  {
    hide RInv, Shape, ReqInv, OwnOf, Same;
    forall v | v in s.cache.held
      ensures ReqInv(cfg, s', {}, v) && OwnOf(cfg, s', {}, v) == OwnOf(cfg, s, {}, v)
    {
      ReqFacts(cfg, s, {}, [], v);
      if v != u {
        OtherReq(cfg, s, s', u, v);
        Untouched(cfg, s, s', {}, {}, v);
      } else {
        LongerReq(cfg, s, s', u);
      }
    }
    RInvFrame(cfg, s, s', {}, {}, []);
  }

  lemma {:induction false} OtherReq(cfg: Config, s: Sched, s': Sched, u: int, v: int)
    requires ReqInv(cfg, s, {}, v) && v != u && s'.cache == s.cache && s'.table == s.table
    requires s'.reqs == s.reqs[u := Get(s'.reqs, u)]
    ensures Same(s, s', {}, {}, v)
  {
    hide Whole, Segment, Aligned;
  }

  lemma {:induction false} LongerReq(cfg: Config, s: Sched, s': Sched, u: int)
    requires ReqInv(cfg, s, {}, u) && u in s'.reqs && s'.cache == s.cache && s'.table == s.table
    requires var r, q := Get(s.reqs, u), Get(s'.reqs, u);
             && q.uid == u && q.row == r.row && q.cachedLen == r.cachedLen && r.ids <= q.ids
               && q.cachedLen < q.deviceLen
    ensures ReqInv(cfg, s', {}, u) && OwnOf(cfg, s', {}, u) == OwnOf(cfg, s, {}, u)
  {
    hide Whole, Aligned, AlignUp;
  }

  // ---- a new request

  /** What admission does to row list, lock and tables for a new request whose first `n` tokens are stored. */
  ghost predicate NewAdmit(cfg: Config, s: Sched, s': Sched, p: Pending, n: nat, q: Req) {
    && n < |p.ids| && |p.ids| <= cfg.maxSeqLen && n == LongestMatch(s.cache.store, p.ids[..|p.ids| - 1], cfg.ps)
    && s.rows != [] && s'.rows == s.rows[..|s.rows| - 1]
    && s'.cache == LockOp(s.cache, p.uid, p.ids[..n])
    && s'.table == (if n == 0 then s.table
                    else WriteRow(s.table, s.rows[|s.rows| - 1], 0, SlotsOf(s.cache.store, p.ids[..n])))
    && Shape(s'.pool, cfg.numRows + 1, cfg.width)
    && s'.reqs == s.reqs[p.uid := q] && q.uid == p.uid && q.row == s.rows[|s.rows| - 1] && q.cachedLen == n
    && q.ids <= p.ids && q.cachedLen < q.deviceLen == |q.ids|
  }

  lemma {:induction false} NewSame(cfg: Config, s: Sched, s': Sched, p: Pending, n: nat, q: Req, v: int)
    requires RInv(cfg, s, {}, []) && NewAdmit(cfg, s, s', p, n, q) && p.uid !in s.cache.held && v in s.cache.held
    ensures Same(s, s', {}, {}, v)
  {
    hide Owned, Owners, Whole, Segment, Aligned, LongestMatch, CacheOk;
    var row := s.rows[|s.rows| - 1];
    FreeRowApart(cfg, s, {}, [], row, v);
    ReqFacts(cfg, s, {}, [], v);
    WriteRowFacts(s.table, row, 0, SlotsOf(s.cache.store, p.ids[..n]), cfg.numRows + 1, cfg.width);
  }

  lemma {:induction false} MatchedPath(s: Store, ids: seq<int>, n: nat, ps: Pos)
    requires ids != [] && n == LongestMatch(s, ids[..|ids| - 1], ps)
    ensures n < |ids| && Aligned(n, ps) && (ids[..n] == [] || ids[..n] in s)
  {
    hide Aligned;
    assert ids[..|ids| - 1][..n] == ids[..n];
  }

  lemma {:induction false} NewReqInv(cfg: Config, s: Sched, s': Sched, p: Pending, n: nat, q: Req)
    requires RInv(cfg, s, {}, []) && NewAdmit(cfg, s, s', p, n, q)
    ensures ReqInv(cfg, s', {}, p.uid) && OwnOf(cfg, s', {}, p.uid) == Own(s.rows[|s.rows| - 1], [])
  {
    hide RInv, LongestMatch, Aligned, AlignUp, Shape, WriteRow;
    FreeRowRange(cfg, s, {}, [], s.rows[|s.rows| - 1]);
    MatchedPath(s.cache.store, p.ids, n, cfg.ps);
    AlignBracket(n, cfg.ps);
    EmptySlice(RowOf(s', p.uid), n, cfg.ps);
  }

  lemma {:induction false} EmptySlice(row: seq<int>, n: nat, ps: Pos)
    ensures Slice(row, n, n) == [] && Whole([], ps)
  {
    assert Strided([], ps) == [];
  }

  lemma {:induction false} NewRes(cfg: Config, s: Sched, s': Sched, p: Pending, n: nat, q: Req)
    requires RInv(cfg, s, {}, []) && NewAdmit(cfg, s, s', p, n, q) && p.uid !in s.cache.held
    ensures RInv(cfg, s', {}, []) && s'.cache.held.Keys == s.cache.held.Keys + {p.uid}
  {
    hide Owned, ReqInv, OwnOf, Same, Aligned, StoreOk, LongestMatch, WriteRow;
    var row := s.rows[|s.rows| - 1];
    NewReqInv(cfg, s, s', p, n, q);
    forall v | v in s.cache.held
      ensures ReqInv(cfg, s', {}, v) && OwnOf(cfg, s', {}, v) == OwnOf(cfg, s, {}, v)
    {
      ReqFacts(cfg, s, {}, [], v);
      NewSame(cfg, s, s', p, n, q, v);
      Untouched(cfg, s, s', {}, {}, v);
    }
    NewShapes(cfg, s, s', p, n, q);
    assert s.rows == s'.rows + [row];
    OwnedAdd(cfg, s.cache, s'.cache, s'.rows, [], Owners(cfg, s, {}), p.uid, row);
    assert Owners(cfg, s', {}) == Owners(cfg, s, {})[p.uid := Own(row, [])];
  }

  lemma {:induction false} NewShapes(cfg: Config, s: Sched, s': Sched, p: Pending, n: nat, q: Req)
    requires RInv(cfg, s, {}, []) && NewAdmit(cfg, s, s', p, n, q)
    ensures Shapes(cfg, s')
  {
    hide Owned, ReqsInv, Aligned, StoreOk, LongestMatch, WriteRow;
    MatchedPath(s.cache.store, p.ids, n, cfg.ps);
    WriteRowFacts(s.table, s.rows[|s.rows| - 1], 0, SlotsOf(s.cache.store, p.ids[..n]), cfg.numRows + 1, cfg.width);
  }

  // ---- one step of the round

  ghost predicate Apart(queue: seq<Pending>, busy: set<int>) {
    forall i {:trigger queue[i]} | 0 <= i < |queue| :: queue[i].uid !in busy
  }

  /** A step gave the head of the queue the request `q` and touched no other request. */
  ghost predicate Gave(s: Sched, s': Sched, q: Req) {
    && s'.reqs == s.reqs[q.uid := q] && s'.pending == s.pending && s'.running == s.running && s'.finished == s.finished
    && s'.inflight == s.inflight && s'.deferred == s.deferred && s'.acks == s.acks && s'.freed == s.freed
  }

  lemma {:induction false} StepQueue(cfg: Config, s: Sched, s': Sched, queue: seq<Pending>, busy: set<int>, q: Req)
    requires QueueOk(cfg, s, queue) && RunningOk(cfg, s, busy) && Apart(queue, busy) && DoneOk(s, s.finished)
    requires queue != [] && q.uid == queue[0].uid && Gave(s, s', q)
    requires s'.cache.held.Keys == s.cache.held.Keys + {q.uid} && (q.uid in s.cache.held || q.uid !in s.reqs)
    ensures QueueOk(cfg, s', queue[1..]) && HeadOk(s', queue[1..])
    ensures RunningOk(cfg, s', busy + {q.uid}) && Apart(queue[1..], busy + {q.uid}) && DoneOk(s', s'.finished)
    ensures ChunkUids(queue[1..]) == {} && ChunkUids(queue) == (if queue[0].chunk then {q.uid} else {})
  {
    hide PendOk;
    forall u | u in s'.running && u !in busy + {q.uid}
      ensures RunOk(cfg, s', u)
    {
      assert RunOk(cfg, s, u);
    }
    forall p | p in queue && p.chunk
      ensures p == queue[0]
    {
      var i :| 0 <= i < |queue| && queue[i] == p;
    }
    assert forall i | 0 <= i < |queue[1..]| :: queue[1..][i] == queue[i + 1];
    assert queue[0] in queue;
  }

  lemma {:induction false} ChunkStep(cfg: Config, s: Sched, a: Adder, queue: seq<Pending>, busy: set<int>)
    requires LInv(cfg, s, queue, busy) && queue != [] && queue[0].chunk
    requires TryAddOne(cfg, s, a, queue[0]).Some?
    ensures var (s', a', q) := TryAddOne(cfg, s, a, queue[0]).value;
            && Gave(s, s', q) && RInv(cfg, s', {}, []) && AddedFrom(s', q, queue[0]) && s'.cache == s.cache
            && q.uid in s.cache.held && a'.budget >= 0 && (q.chunked ==> a'.budget == 0)
            && q.cachedLen == Get(s.reqs, q.uid).cachedLen
            && a' == Adder(a.budget - (q.deviceLen - q.cachedLen),
                           a.reserved + |queue[0].ids| - q.cachedLen + queue[0].params.maxTokens)
  {
    hide RInv, AddedFrom, QueueOk, RunningOk, DoneOk, AddReq;
    var p := queue[0];
    var r := Get(s.reqs, p.uid);
    assert p in queue;
    var (s', a', q) := TryAddOne(cfg, s, a, p).value;
    AddReqFacts(s, a, p, r.row, r.cachedLen);
    ChunkRes(cfg, s, s', p, q);
  }

  lemma {:induction false} ChunkRes(cfg: Config, s: Sched, s': Sched, p: Pending, q: Req)
    requires RInv(cfg, s, {}, []) && p.uid in s.cache.held && ChunkOk(s, p) && AddedFrom(s', q, p)
    requires q.row == Get(s.reqs, p.uid).row && q.cachedLen == Get(s.reqs, p.uid).cachedLen
    requires s' == s.(reqs := s.reqs[p.uid := q], pool := s'.pool)
    requires forall rows, width | Shape(s.pool, rows, width) :: Shape(s'.pool, rows, width)
    ensures RInv(cfg, s', {}, [])
  {
    PoolShape(cfg, s);
    hide RInv, Shape;
    assert Get(s.reqs, p.uid).ids <= q.ids;
    NextChunkRes(cfg, s, s', p.uid, q);
  }

  lemma {:induction false} PoolShape(cfg: Config, s: Sched)
    requires RInv(cfg, s, {}, [])
    ensures Shape(s.pool, cfg.numRows + 1, cfg.width)
  {
    hide Shape, ReqsInv, Owned, CacheOk;
  }

  lemma {:induction false} NewStep(cfg: Config, s: Sched, a: Adder, queue: seq<Pending>, busy: set<int>)
    requires LInv(cfg, s, queue, busy) && queue != [] && !queue[0].chunk && Apart(queue, busy)
    requires TryAddOne(cfg, s, a, queue[0]).Some?
    ensures var (s', a', q) := TryAddOne(cfg, s, a, queue[0]).value;
            && Gave(s, s', q) && RInv(cfg, s', {}, []) && AddedFrom(s', q, queue[0])
            && s'.cache.held.Keys == s.cache.held.Keys + {q.uid} && q.uid !in s.cache.held
            && q.uid !in s.reqs && a'.budget >= 0 && (q.chunked ==> a'.budget == 0)
            && NewAdmit(cfg, s, s', queue[0], q.cachedLen, q)
            && a' == Adder(a.budget - (q.deviceLen - q.cachedLen),
                           a.reserved + |queue[0].ids| - q.cachedLen + queue[0].params.maxTokens)
  {
    hide RInv, AddedFrom, RunningOk, DoneOk, AddReq, HeadOk, NewAdmit, LongestMatch, Shape, WriteRow, Avail;
    var p := queue[0];
    var n := LongestMatch(s.cache.store, p.ids[..|p.ids| - 1], cfg.ps);
    var (s2, row, n') := TryAllocate(cfg, s, a, p).value;
    var (s', a', q) := TryAddOne(cfg, s, a, p).value;
    NewIdle(cfg, s, queue, busy);
    AddReqFacts(s2, a, p, row, n);
    PoolShape(cfg, s);
    NewAdmits(cfg, s, a, p);
    NewRes(cfg, s, s', p, n, q);
  }

  lemma {:induction false} NewIdle(cfg: Config, s: Sched, queue: seq<Pending>, busy: set<int>)
    requires LInv(cfg, s, queue, busy) && queue != [] && !queue[0].chunk && Apart(queue, busy)
    ensures queue[0].uid !in s.cache.held && queue[0].uid !in s.reqs && PendOk(cfg, queue[0])
  {
    hide RInv, PendOk, ChunkUids;
    ChunkHead(cfg, s, queue, queue[0].uid);
  }

  lemma {:induction false} NewAdmits(cfg: Config, s: Sched, a: Adder, p: Pending)
    requires PendOk(cfg, p) && !p.chunk && TryAddOne(cfg, s, a, p).Some?
    requires Shape(s.pool, cfg.numRows + 1, cfg.width)
    ensures var (s', a', q) := TryAddOne(cfg, s, a, p).value;
            NewAdmit(cfg, s, s', p, LongestMatch(s.cache.store, p.ids[..|p.ids| - 1], cfg.ps), q)
  {
    hide LongestMatch, WriteRow, Avail, Shape, AddReq;
    var n := LongestMatch(s.cache.store, p.ids[..|p.ids| - 1], cfg.ps);
    var (s2, row, n') := TryAllocate(cfg, s, a, p).value;
    AddReqFacts(s2, a, p, row, n);
    WriteRowFacts(s.pool, row, 0, p.ids[..n], cfg.numRows + 1, cfg.width);
  }

  lemma {:induction false} StepKeeps(cfg: Config, s: Sched, a: Adder, queue: seq<Pending>, busy: set<int>)
    requires LInv(cfg, s, queue, busy) && Apart(queue, busy) && queue != []
    requires TryAddOne(cfg, s, a, queue[0]).Some?
    ensures var (s', a', q) := TryAddOne(cfg, s, a, queue[0]).value;
            && LInv(cfg, s', queue[1..], busy + {q.uid}) && Apart(queue[1..], busy + {q.uid})
            && Gave(s, s', q) && AddedFrom(s', q, queue[0]) && a'.budget >= 0 && (q.chunked ==> a'.budget == 0)
            && a'.budget == a.budget - (q.deviceLen - q.cachedLen)
  {
    hide RInv, AddedFrom, QueueOk, RunningOk, DoneOk, TryAddOne, HeadOk, Apart, ChunkUids, NewAdmit;
    var (s', a', q) := TryAddOne(cfg, s, a, queue[0]).value;
    if queue[0].chunk {
      ChunkStep(cfg, s, a, queue, busy);
    } else {
      NewStep(cfg, s, a, queue, busy);
    }
    StepUid(cfg, s, a, queue[0]);
    StepQueue(cfg, s, s', queue, busy, q);
  }

  lemma {:induction false} StepUid(cfg: Config, s: Sched, a: Adder, p: Pending)
    requires TryAddOne(cfg, s, a, p).Some?
    ensures TryAddOne(cfg, s, a, p).value.2.uid == p.uid
  {
    hide LongestMatch, WriteRow, Avail;
  }

  // ---- the whole round

  ghost function UidsOf(added: seq<Req>): set<int> {
    if added == [] then {} else {added[0].uid} + UidsOf(added[1..])
  }

  /** Tokens that the requests of a batch compute. */
  ghost function Work(added: seq<Req>): int {
    if added == [] then 0 else added[0].ExtendLen() + Work(added[1..])
  }

  /** A round touched only the requests it added. */
  ghost predicate Kept(s: Sched, s': Sched, us: set<int>) {
    && s'.pending == s.pending && s'.running == s.running && s'.finished == s.finished
    && s'.inflight == s.inflight && s'.deferred == s.deferred && s'.acks == s.acks && s'.freed == s.freed
    && (forall u {:trigger Get(s.reqs, u)} | u in s.reqs && u !in us ::
          u in s'.reqs && Get(s'.reqs, u) == Get(s.reqs, u))
  }

  ghost predicate AllAdded(s: Sched, added: seq<Req>, queue: seq<Pending>) {
    && |added| <= |queue|
    && forall i {:trigger added[i]} | 0 <= i < |added| :: AddedFrom(s, added[i], queue[i])
  }

  /** At most the last request of a round is cut into a chunk. */
  ghost predicate LastChunked(added: seq<Req>) {
    forall i {:trigger added[i]} | 0 <= i < |added| - 1 :: !added[i].chunked
  }

  /** What one admission round does: it takes the queue from the front in order, spends exactly the tokens it hands out
  and never more than the budget, and cuts at most the last prompt, and that only when the budget is used up. */
  ghost predicate RoundOk(cfg: Config, s: Sched, a: Adder, queue: seq<Pending>, busy: set<int>, r: Round) {
    && |r.added| <= |queue|
    && LInv(cfg, r.s, queue[|r.added|..], busy + UidsOf(r.added)) && Apart(queue[|r.added|..], busy + UidsOf(r.added))
    && Kept(s, r.s, UidsOf(r.added)) && AllAdded(r.s, r.added, queue) && LastChunked(r.added)
    && Work(r.added) == a.budget - r.a.budget && r.a.budget >= 0
    && (r.added != [] && r.added[|r.added| - 1].chunked ==> r.a.budget == 0)
  }

  lemma {:induction false} AddAllKeeps(cfg: Config, s: Sched, a: Adder, queue: seq<Pending>, busy: set<int>)
    requires LInv(cfg, s, queue, busy) && Apart(queue, busy) && a.budget >= 0
    ensures var r := AddAll(cfg, s, a, queue);
            RoundOk(cfg, s, a, queue, busy, r)
    decreases |queue|
  {
    hide LInv, Apart, TryAddOne, Gave, Kept, AddedFrom, RoundOk, UidsOf;
    if queue == [] || TryAddOne(cfg, s, a, queue[0]).None? {
      RoundEmpty(cfg, s, a, queue, busy);
    } else {
      var (s1, a1, q) := TryAddOne(cfg, s, a, queue[0]).value;
      StepKeeps(cfg, s, a, queue, busy);
      AddAllKeeps(cfg, s1, a1, queue[1..], busy + {q.uid});
      ChunkEnds(cfg, s1, a1, queue[1..]);
      RoundMore(cfg, s, s1, a, a1, queue, busy, q, AddAll(cfg, s1, a1, queue[1..]));
    }
  }

  /** With no budget left nothing is added. */
  lemma {:induction false} ChunkEnds(cfg: Config, s: Sched, a: Adder, queue: seq<Pending>)
    ensures a.budget == 0 ==> AddAll(cfg, s, a, queue).added == []
  {
  }

  lemma {:induction false} RoundEmpty(cfg: Config, s: Sched, a: Adder, queue: seq<Pending>, busy: set<int>)
    requires LInv(cfg, s, queue, busy) && Apart(queue, busy) && a.budget >= 0
    ensures RoundOk(cfg, s, a, queue, busy, Round(s, a, []))
  {
    hide LInv, Apart;
    assert queue[0..] == queue && busy + {} == busy;
  }

  lemma {:induction false} RoundMore(cfg: Config, s: Sched, s1: Sched, a: Adder, a1: Adder, queue: seq<Pending>,
                                     busy: set<int>, q: Req,
                  rest: Round)
    requires queue != [] && Gave(s, s1, q) && AddedFrom(s1, q, queue[0]) && Apart(queue[1..], busy + {q.uid})
    requires RoundOk(cfg, s1, a1, queue[1..], busy + {q.uid}, rest)
    requires a1.budget == a.budget - (q.deviceLen - q.cachedLen) && a1.budget >= 0
    requires q.chunked ==> a1.budget == 0 && rest.added == []
    ensures RoundOk(cfg, s, a, queue, busy, Round(rest.s, rest.a, [q] + rest.added))
  {
    hide LInv, Apart, Kept, AllAdded, LastChunked, AddedFrom, Gave;
    var added := [q] + rest.added;
    assert added[1..] == rest.added;
    assert queue[|added|..] == queue[1..][|rest.added|..];
    assert busy + UidsOf(added) == busy + {q.uid} + UidsOf(rest.added);
    AddedMore(cfg, s1, queue, busy, q, rest);
    KeptMore(s, s1, rest.s, q, UidsOf(rest.added));
    LastMore(q, rest.added);
  }

  lemma {:induction false} LastMore(q: Req, rest: seq<Req>)
    requires LastChunked(rest) && (q.chunked ==> rest == [])
    ensures LastChunked([q] + rest)
  {
    assert forall i | 0 < i < |[q] + rest| :: ([q] + rest)[i] == rest[i - 1];
  }

  lemma {:induction false} KeptMore(s: Sched, s1: Sched, s2: Sched, q: Req, us: set<int>)
    requires Gave(s, s1, q) && Kept(s1, s2, us)
    ensures Kept(s, s2, {q.uid} + us)
  {
    forall u | u in s.reqs && u !in {q.uid} + us
      ensures u in s2.reqs && Get(s2.reqs, u) == Get(s.reqs, u)
    {
      assert Get(s1.reqs, u) == Get(s.reqs, u);
    }
  }

  lemma {:induction false} AddedMore(cfg: Config, s1: Sched, queue: seq<Pending>, busy: set<int>, q: Req, rest: Round)
    requires queue != [] && AddedFrom(s1, q, queue[0]) && Apart(queue[1..], busy + {q.uid})
    requires AllAdded(rest.s, rest.added, queue[1..]) && Kept(s1, rest.s, UidsOf(rest.added))
    ensures AllAdded(rest.s, [q] + rest.added, queue)
  {
    UidsAreQueued(rest.s, rest.added, queue[1..], q.uid);
    assert Get(s1.reqs, q.uid) == q;
    var added := [q] + rest.added;
    forall i | 0 <= i < |added|
      ensures AddedFrom(rest.s, added[i], queue[i])
    {
      if i > 0 {
        assert added[i] == rest.added[i - 1] && queue[i] == queue[1..][i - 1];
      }
    }
  }

  /** The uids added are those of the entries taken. */
  lemma {:induction false} UidsAreQueued(s: Sched, added: seq<Req>, queue: seq<Pending>, u: int)
    requires AllAdded(s, added, queue)
    ensures u in UidsOf(added) <==> exists i :: 0 <= i < |added| && queue[i].uid == u
    decreases |added|
  {
    if added != [] {
      assert AddedFrom(s, added[0], queue[0]);
      assert forall i | 0 <= i < |added[1..]| :: added[1..][i] == added[i + 1] && queue[1..][i] == queue[i + 1];
      UidsAreQueued(s, added[1..], queue[1..], u);
      if u in UidsOf(added[1..]) {
        var i :| 0 <= i < |added[1..]| && queue[1..][i].uid == u;
        assert queue[i + 1].uid == u;
      }
      forall i | 0 < i < |added| && queue[i].uid == u
        ensures u in UidsOf(added[1..])
      {
        assert queue[1..][i - 1].uid == u;
      }
    }
  }

  // ---- the queue after a round

  lemma {:induction false} ChunkListIs(added: seq<Req>, todo: seq<Pending>)
    requires |added| <= |todo| && LastChunked(added)
    ensures ChunkList(todo, added)
         == if added != [] && added[|added| - 1].chunked then [todo[|added| - 1].(chunk := true)] else []
    decreases |added|
  {
    if |added| > 1 {
      assert !added[0].chunked;
      assert forall i | 0 <= i < |added[1..]| :: added[1..][i] == added[i + 1];
      ChunkListIs(added[1..], todo[1..]);
    } else if added != [] {
      assert ChunkList(todo[1..], added[1..]) == [];
    }
  }

  lemma {:induction false} EntriesAre(added: seq<Req>)
    ensures |EntriesOf(added)| == |added|
    ensures forall i {:trigger added[i]} {:trigger EntriesOf(added)[i]} | 0 <= i < |added| ::
              EntriesOf(added)[i] == Entry(added[i].uid, added[i].chunked)
    ensures Uids(EntriesOf(added)) == UidsOf(added)
    decreases |added|
  {
    if added != [] {
      EntriesAre(added[1..]);
      var es, rest := EntriesOf(added), EntriesOf(added[1..]);
      assert es == [Entry(added[0].uid, added[0].chunked)] + rest;
      forall i | 0 <= i < |added|
        ensures es[i] == Entry(added[i].uid, added[i].chunked)
      {
        if i > 0 {
          assert added[1..][i - 1] == added[i];
          assert es[i] == rest[i - 1];
        }
      }
      UidsSplit(es);
    } else {
      assert Uids([]) == {};
    }
  }

  lemma {:induction false} UidsSplit(es: seq<Entry>)
    requires es != []
    ensures Uids(es) == {es[0].uid} + Uids(es[1..])
  {
    forall e | e in es
      ensures e == es[0] || e in es[1..]
    {
      var i :| 0 <= i < |es| && es[i] == e;
      assert i > 0 ==> es[1..][i - 1] == e;
    }
  }
}
