/** The scheduler as functions on its whole state: message handling, admission, page preparation, the forward commit,
post-processing, and one tick of each of its two loops. */
module SchedSpec {
  import opened Paging
  import opened Sums
  import opened PrefixStore
  import opened CacheSpec
  import opened Requests

  /** `reqs` maps a uid to its latest request object; `cache.held` says which of them hold a row, a lock and pages.
  `freed` records every release, in order. */
  datatype Sched = Sched(
    pending: seq<Pending>, running: set<int>, reqs: map<int, Req>,
    finished: set<int>, inflight: set<int>, deferred: set<int>, acks: seq<int>,
    rows: seq<int>, cache: Cache, table: Table, pool: Table, freed: seq<int>)

  // ---- releasing and caching

  /** The cache after request `u` handed its computed tokens over. */
  ghost function HandOver(c: Cache, r: Req, table: Table, finished: bool, ps: Pos): Cache {
    var row := RowAt(table, r.row);
    if r.cachedLen <= |r.ids| && r.cachedLen <= |row|
    then CacheReqOp(c, r.uid, r.ids[..r.cachedLen], row[..r.cachedLen], finished, ps)
    else c
  }

  ghost function Release(cfg: Config, s: Sched, u: int): Sched {
    s.(rows := s.rows + [Get(s.reqs, u).row], cache := HandOver(s.cache, Get(s.reqs, u), s.table, true, cfg.ps),
       freed := s.freed + [u])
  }

  ghost function KeepCached(cfg: Config, s: Sched, u: int): Sched {
    s.(cache := HandOver(s.cache, Get(s.reqs, u), s.table, false, cfg.ps))
  }

  // ---- messages

  /** The index of the first pending entry of `u`, or the length of the list. */
  function FindPending(ps: seq<Pending>, u: int): (k: nat)
    ensures k <= |ps|
    ensures k < |ps| ==> ps[k].uid == u
    ensures forall i | 0 <= i < k :: ps[i].uid != u
  {
    if ps == [] || ps[0].uid == u then 0 else 1 + FindPending(ps[1..], u)
  }

  function DropPending(ps: seq<Pending>, u: int): seq<Pending> {
    var k := FindPending(ps, u);
    if k < |ps| then ps[..k] + ps[k + 1..] else ps
  }

  function Clamp(cfg: Config, p: Params, inputLen: nat): Params
    requires inputLen <= cfg.maxSeqLen
  {
    if p.maxTokens > cfg.maxSeqLen - inputLen then p.(maxTokens := cfg.maxSeqLen - inputLen) else p
  }

  ghost function ProcessMsg(cfg: Config, s: Sched, m: Msg): Sched {
    match m
    case UserMsg(uid, ids, params) =>
      if |ids| >= cfg.maxSeqLen then s
      else s.(pending := s.pending + [Pending(uid, ids, Clamp(cfg, params, |ids|), false)])
    case AbortMsg(uid) =>
      var k := FindPending(s.pending, uid);
      var s1 := s.(pending := DropPending(s.pending, uid));
      if uid in s.inflight then
        s1.(running := s.running - {uid}, deferred := s.deferred + {uid})
      else if k < |s.pending| && s.pending[k].chunk then
        var s2 := Release(cfg, s1, uid);
        s2.(acks := s2.acks + [uid])
      else if uid in s.running then
        var s2 := Release(cfg, s1.(running := s.running - {uid}), uid);
        s2.(acks := s2.acks + [uid])
      else s1.(acks := s.acks + [uid])
  }

  ghost function ProcessMsgs(cfg: Config, s: Sched, msgs: seq<Msg>): Sched
    decreases |msgs|
  {
    if msgs == [] then s else ProcessMsgs(cfg, ProcessMsg(cfg, s, msgs[0]), msgs[1..])
  }

  // ---- admission

  /** The running totals of one admission round. */
  datatype Adder = Adder(budget: int, reserved: int)

  ghost function RemainSum(reqs: map<int, Req>, us: set<int>): map<int, nat> {
    map u | u in us :: if Get(reqs, u).RemainLen() > 0 then Get(reqs, u).RemainLen() else 0
  }

  /** Tokens that running requests may still need, with a page of slack for each when pages hold several tokens. */
  ghost function InflightTokens(cfg: Config, s: Sched): int {
    Total(RemainSum(s.reqs, s.running)) + (cfg.ps - 1) * |s.running|
  }

  /** The next prefill step of a request that has row `row` and `cached` tokens computed. */
  ghost function AddReq(s: Sched, a: Adder, p: Pending, row: int, cached: nat): (Sched, Adder, Req)
    requires cached <= |p.ids| && a.budget > 0
  {
    var remain := |p.ids| - cached;
    var chunk := if a.budget < remain then a.budget else remain;
    var r := Req(p.uid, row, p.ids[..cached + chunk], cached, cached + chunk, cached + chunk + p.params.maxTokens,
                 chunk < remain, p.params);
    (s.(reqs := s.reqs[p.uid := r], pool := WriteRow(s.pool, row, cached, p.ids[cached..cached + chunk])),
     Adder(a.budget - chunk, a.reserved + remain + p.params.maxTokens), r)
  }

  /** Takes a row and locks the matched prefix for a new request, if the estimate fits. */
  ghost function TryAllocate(cfg: Config, s: Sched, a: Adder, p: Pending): Option<(Sched, int, nat)>
    requires p.ids != []
  {
    if s.rows == [] then None
    else
      var n := LongestMatch(s.cache.store, p.ids[..|p.ids| - 1], cfg.ps);
      assert p.ids[..|p.ids| - 1][..n] == p.ids[..n];
      var estimated := |p.ids| - n + p.params.maxTokens;
      var locked := LockOp(s.cache, p.uid, p.ids[..n]);
      if estimated + a.reserved > Avail(s.cache) * cfg.ps then None
      else if estimated + a.reserved > Avail(locked) * cfg.ps then None
      else
        var row := s.rows[|s.rows| - 1];
        var s1 := s.(rows := s.rows[..|s.rows| - 1], cache := locked);
        var s2 := if n == 0 then s1
                  else s1.(pool := WriteRow(s.pool, row, 0, p.ids[..n]),
                           table := WriteRow(s.table, row, 0, SlotsOf(s.cache.store, p.ids[..n])));
        Some((s2, row, n))
  }

  ghost function TryAddOne(cfg: Config, s: Sched, a: Adder, p: Pending): Option<(Sched, Adder, Req)> {
    if a.budget <= 0 || p.ids == [] then None
    else if p.chunk then
      if Get(s.reqs, p.uid).cachedLen <= |p.ids|
      then Some(AddReq(s, a, p, Get(s.reqs, p.uid).row, Get(s.reqs, p.uid).cachedLen))
      else None
    else
      match TryAllocate(cfg, s, a, p)
      case None => None
      case Some((s1, row, n)) => Some(AddReq(s1, a, p, row, n))
  }

  /** The result of an admission round: the state, the totals, the requests added and how many were taken. */
  datatype Round = Round(s: Sched, a: Adder, added: seq<Req>)

  ghost function AddAll(cfg: Config, s: Sched, a: Adder, todo: seq<Pending>): (r: Round)
    ensures |r.added| <= |todo|
    decreases |todo|
  {
    if todo == [] then Round(s, a, [])
    else
      match TryAddOne(cfg, s, a, todo[0])
      case None => Round(s, a, [])
      case Some((s1, a1, q)) =>
        var rest := AddAll(cfg, s1, a1, todo[1..]);
        Round(rest.s, rest.a, [q] + rest.added)
  }

  /** The pending entries that must come back for their next chunk. */
  ghost function ChunkList(todo: seq<Pending>, added: seq<Req>): seq<Pending>
    requires |added| <= |todo|
    decreases |added|
  {
    if added == [] then []
    else (if added[0].chunked then [todo[0].(chunk := true)] else []) + ChunkList(todo[1..], added[1..])
  }

  function EntriesOf(added: seq<Req>): seq<Entry> {
    if added == [] then [] else [Entry(added[0].uid, added[0].chunked)] + EntriesOf(added[1..])
  }

  ghost function SchedulePrefill(cfg: Config, s: Sched): (Sched, Option<Batch>) {
    var r := AddAll(cfg, s, Adder(cfg.budget, InflightTokens(cfg, s)), s.pending);
    if r.added == [] then (s, None)
    else
      (r.s.(pending := ChunkList(s.pending, r.added) + s.pending[|r.added|..]), Some(Batch(EntriesOf(r.added), true)))
  }

  /** The uids of a set in increasing order. */
  ghost function Sorted(us: set<int>): (r: seq<int>)
    ensures forall u :: u in r <==> u in us
    ensures forall i, j | 0 <= i < j < |r| :: r[i] < r[j]
    decreases |us|
  {
    if us == {} then []
    else
      LeastExists(us);
      var m :| Least(m, us);
      [m] + Sorted(us - {m})
  }

  predicate Least(m: int, us: set<int>) {
    m in us && forall u | u in us :: m <= u
  }

  lemma {:induction false} LeastExists(us: set<int>)
    requires us != {}
    ensures exists m :: Least(m, us)
    decreases |us|
  {
    var x := Member(us);
    var rest := us - {x};
    if rest == {} {
      assert us == {x};
      assert Least(x, us);
    } else {
      LeastExists(rest);
      var y :| Least(y, rest);
      var m := if y <= x then y else x;
      forall u | u in us
        ensures m <= u
      {
        assert u == x || u in rest;
      }
      assert Least(m, us);
    }
  }

  function DecodeEntries(us: seq<int>): seq<Entry> {
    seq(|us|, i requires 0 <= i < |us| => Entry(us[i], false))
  }

  ghost function Schedule(cfg: Config, s: Sched): (Sched, Option<Batch>) {
    var (s1, b) := SchedulePrefill(cfg, s);
    if b.Some? then (s1, b)
    else if s.running == {} then (s, None)
    else (s, Some(Batch(DecodeEntries(Sorted(s.running)), false)))
  }

  // ---- preparing and running a batch

  ghost function PagesFor(cfg: Config, reqs: map<int, Req>, es: seq<Entry>): nat {
    if es == [] then 0
    else PagesNeeded(Get(reqs, es[0].uid), cfg.ps) + PagesFor(cfg, reqs, es[1..])
  }

  /** Writes the allocated pages into the rows of the batch, in order. */
  ghost function AssignPages(cfg: Config, reqs: map<int, Req>, table: Table, es: seq<Entry>, pages: seq<int>): Table
    decreases |es|
  {
    if es == [] then table
    else
      var r := Get(reqs, es[0].uid);
      var n := PagesNeeded(r, cfg.ps);
      if n > |pages| then table
      else
        AssignPages(cfg, reqs, WriteRow(table, r.row, AlignUp(r.cachedLen, cfg.ps), Expand(pages[..n], cfg.ps)),
                    es[1..], pages[n..])
  }

  ghost function Prepare(cfg: Config, s: Sched, b: Batch, ev: Eviction): Sched {
    var need := PagesFor(cfg, s.reqs, b.entries);
    if need == 0 then s
    else
      s.(cache := AllocOp(s.cache, need, ev, cfg.ps),
         table := AssignPages(cfg, s.reqs, s.table, b.entries, Allocated(s.cache, need, ev, cfg.ps)))
  }

  /** Where the sampled token of a request is written: its next position, or the last column as a dummy. */
  function WritePos(cfg: Config, r: Req): int {
    if r.CanDecode() then r.deviceLen else cfg.width - 1
  }

  ghost function CommitOne(cfg: Config, s: Sched, u: int, token: int): Sched {
    var r := Get(s.reqs, u);
    var pos := WritePos(cfg, r);
    s.(reqs := s.reqs[u := r.CompleteOne()],
       pool := if pos < 0 then s.pool else WriteRow(s.pool, r.row, pos, [token]))
  }

  /** Advances every request of the batch by one step and writes its sampled token to the token pool. */
  ghost function Commit(cfg: Config, s: Sched, es: seq<Entry>, tokens: seq<int>): Sched
    requires |tokens| == |es|
    decreases |es|
  {
    if es == [] then s
    else
      Commit(cfg, CommitOne(cfg, s, es[0].uid, tokens[0]), es[1..], tokens[1..])
  }

  function Uids(es: seq<Entry>): set<int> {
    set e | e in es :: e.uid
  }

  /** The running set after a batch: everything running or just computed that can decode. */
  ghost function Filter(s: Sched, es: seq<Entry>): Sched {
    s.(running := set u | u in s.running + Uids(es) && Get(s.reqs, u).CanDecode())
  }

  ghost function Forward(cfg: Config, s: Sched, b: Batch, tokens: seq<int>): Sched
    requires |tokens| == |b.entries|
  {
    Filter(Commit(cfg, s, b.entries, tokens), b.entries)
  }

  // ---- post-processing

  predicate IsFinished(cfg: Config, r: Req, token: int) {
    !r.CanDecode() || (!r.params.ignoreEos && token == cfg.eos) || token in r.params.stops
  }

  /** State, replies and newly finished requests of post-processing. */
  datatype Post = Post(s: Sched, replies: seq<Reply>, finished: set<int>)

  ghost function ProcessEntry(cfg: Config, p: Post, prefill: bool, e: Entry, token: int): Post {
    var u, s := e.uid, p.s;
    if e.chunked || u in s.deferred then p
    else
      var r := Get(s.reqs, u).AppendHost(token);
      var fin := IsFinished(cfg, r, token);
      var s1 := s.(reqs := s.reqs[u := r]);
      var replies := p.replies + [Detok(u, token, fin)];
      if fin && u !in s.finished then
        Post(Release(cfg, s1.(running := s1.running - {u}), u), replies, p.finished + {u})
      else if prefill then Post(KeepCached(cfg, s1, u), replies, p.finished)
      else Post(s1, replies, p.finished)
  }

  ghost function ProcessEntries(cfg: Config, p: Post, prefill: bool, es: seq<Entry>, tokens: seq<int>): Post
    requires |tokens| == |es|
    decreases |es|
  {
    if es == [] then p
    else ProcessEntries(cfg, ProcessEntry(cfg, p, prefill, es[0], tokens[0]), prefill, es[1..], tokens[1..])
  }

  ghost function ProcessLast(cfg: Config, s: Sched, b: Batch, tokens: seq<int>): (Sched, seq<Reply>)
    requires |tokens| == |b.entries|
  {
    var p := ProcessEntries(cfg, Post(s, [], {}), b.prefill, b.entries, tokens);
    (p.s.(finished := p.finished), p.replies)
  }

  /** Releases every deferred request of the batch once and queues its acknowledgement. */
  ghost function ApplyEntries(cfg: Config, s: Sched, es: seq<Entry>, done: set<int>): Sched
    decreases |es|
  {
    if es == [] then s
    else
      var u := es[0].uid;
      if u in s.deferred && u !in done then
        var s1 := Release(cfg, s, u);
        ApplyEntries(cfg, s1.(acks := s1.acks + [u]), es[1..], done + {u})
      else ApplyEntries(cfg, s, es[1..], done)
  }

  ghost function ApplyDeferred(cfg: Config, s: Sched, last: Option<Batch>): Sched {
    if last.None? then s.(deferred := {})
    else ApplyEntries(cfg, s, last.value.entries, {}).(deferred := {})
  }

  function AckReplies(us: seq<int>): seq<Reply> {
    seq(|us|, i requires 0 <= i < |us| => AbortAck(us[i]))
  }

  // ---- the two loops

  /** A batch whose results are not processed yet, with its sampled tokens. */
  datatype Flight = Flight(batch: Batch, tokens: seq<int>)

  /** What one tick takes from outside: messages, the eviction the cache chose if it needed one, sampled tokens. */
  datatype Input = Input(msgs: seq<Msg>, ev: Eviction, tokens: seq<int>)

  /** The tokens of the batch, cut or filled to its size: the forward pass yields one token a request. */
  function TokensFor(b: Batch, tokens: seq<int>): (r: seq<int>)
    ensures |r| == |b.entries|
  {
    if |tokens| >= |b.entries| then tokens[..|b.entries|]
    else tokens + seq(|b.entries| - |tokens|, i => 0)
  }

  /** Schedules, prepares and runs the next batch. */
  ghost function Launch(cfg: Config, s: Sched, i: Input): (Sched, Option<Flight>) {
    var (s1, b) := Schedule(cfg, s);
    if b.None? then (s1, None)
    else
      var tokens := TokensFor(b.value, i.tokens);
      (Forward(cfg, Prepare(cfg, s1, b.value, i.ev), b.value, tokens), Some(Flight(b.value, tokens)))
  }

  ghost function NormalTick(cfg: Config, s: Sched, i: Input): (Sched, seq<Reply>) {
    var (s2, f) := Launch(cfg, ProcessMsgs(cfg, s, i.msgs), i);
    var (s3, replies) := if f.None? then (s2, []) else ProcessLast(cfg, s2, f.value.batch, f.value.tokens);
    (s3.(acks := []), replies + AckReplies(s3.acks))
  }

  ghost function OverlapTick(cfg: Config, s: Sched, last: Option<Flight>, i: Input):
    (Sched, Option<Flight>, seq<Reply>)
  {
    var s0 := s.(inflight := if last.None? then {} else Uids(last.value.batch.entries));
    var (s2, f) := Launch(cfg, ProcessMsgs(cfg, s0, i.msgs), i);
    var (s3, replies) :=
      if last.None? || |last.value.tokens| != |last.value.batch.entries| then (s2, [])
      else ProcessLast(cfg, s2, last.value.batch, last.value.tokens);
    var s4 := ApplyDeferred(cfg, s3, if last.None? then None else Some(last.value.batch));
    (s4.(acks := [], inflight := {}), f, replies + AckReplies(s4.acks))
  }

  /** The state the scheduler starts in: every row and page free, nothing stored, all tables zero. */
  ghost function InitState(cfg: Config): Sched {
    var zeros := seq(cfg.numRows + 1, i => seq(cfg.width, j => 0));
    Sched([], {}, map[], {}, {}, {}, [], Range(0, cfg.numRows, 1),
          Cache(map[], map[], Range(0, cfg.numPages, cfg.ps)), zeros, zeros, [])
  }
}
