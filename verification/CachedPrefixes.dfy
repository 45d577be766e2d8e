/** What a computed prompt leaves in the prefix map: once the token of a request is processed after its prefill, the
whole pages of everything computed for it are stored and locked; once it is finished, they are stored and free to be
evicted. */
module CachedPrefixes {
  import opened Paging
  import opened PrefixStore
  import opened CacheSpec
  import opened Requests
  import opened SchedSpec
  import opened SchedInv
  import opened SchedAdmit
  import opened SchedRound
  import opened SchedBatch
  import opened SchedForward
  import opened SchedPost
  import opened SchedRun
  import opened SchedEntries
  import opened SchedSettings
  import opened SchedChunks
  import opened SchedReplies
  import opened Overlap
  import opened OverlapRun
  import opened OverlapLag
  import opened OverlapOwn
  import opened OverlapPages
  import opened OverlapReplies
  import opened OverlapStream
  import opened OverlapMirror
  import opened SampledTokens

  // ---- steps that only add to the prefix map

  /** Every request object carries its own uid. */
  ghost predicate Named(reqs: map<int, Req>) {
    forall u {:trigger Get(reqs, u)} :: Get(reqs, u).uid == u
  }

  ghost predicate SameLock(c: Cache, c': Cache, v: int) {
    (v in c'.held <==> v in c.held) && Locked(c', v) == Locked(c, v)
  }

  /** A step that stores and frees but never evicts, and leaves the locks of everyone outside `us` alone. */
  ghost predicate Grown(cfg: Config, s: Sched, s': Sched, us: set<int>) {
    && CacheOk(s'.cache, cfg.ps) && s.cache.store.Keys <= s'.cache.store.Keys && s.cache.free <= s'.cache.free
    && (forall v {:trigger SameLock(s.cache, s'.cache, v)} | v !in us :: SameLock(s.cache, s'.cache, v))
    && (forall v {:trigger v in s'.running} | v in s.running && v !in us :: v in s'.running)
    && (forall v {:trigger Get(s'.reqs, v)} | v !in us :: Get(s'.reqs, v) == Get(s.reqs, v))
    && Named(s'.reqs) && s'.table == s.table && s'.deferred == s.deferred && s'.finished == s.finished
  }

  lemma {:induction false} GrownMore(cfg: Config, s: Sched, s1: Sched, s2: Sched, us: set<int>, vs: set<int>)
    requires Grown(cfg, s, s1, us) && Grown(cfg, s1, s2, vs)
    ensures Grown(cfg, s, s2, us + vs)
  {
    hide CacheOk, Named, Locked;
    forall v | v !in us + vs
      ensures SameLock(s.cache, s2.cache, v) && Get(s2.reqs, v) == Get(s.reqs, v)
    {
      assert SameLock(s.cache, s1.cache, v) && SameLock(s1.cache, s2.cache, v);
      assert Get(s1.reqs, v) == Get(s.reqs, v);
    }
  }

  /** The tokens computed for a request, in whole pages. */
  ghost function DonePages(cfg: Config, r: Req): seq<int> {
    Upto(r.ids, AlignDown(r.cachedLen, cfg.ps))
  }

  ghost predicate Stored(c: Cache, path: seq<int>) {
    path == [] || path in c.store
  }

  /** The request's computed tokens are known on the host and its row is long enough. */
  ghost predicate Handable(s: Sched, r: Req) {
    r.cachedLen <= |r.ids| && r.cachedLen <= |RowAt(s.table, r.row)|
  }

  lemma {:induction false} HandOverGrows(cfg: Config, c: Cache, r: Req, table: Table, finished: bool)
    requires CacheOk(c, cfg.ps)
    ensures var c' := HandOver(c, r, table, finished, cfg.ps);
            && CacheOk(c', cfg.ps) && c.store.Keys <= c'.store.Keys && c.free <= c'.free
            && forall v {:trigger SameLock(c, c', v)} | v != r.uid :: SameLock(c, c', v)
  {
    hide CacheOk, CacheReqOp, Pages;
    var row := RowAt(table, r.row);
    if r.cachedLen <= |r.ids| && r.cachedLen <= |row| {
      CacheReqKeeps(c, r.uid, r.ids[..r.cachedLen], row[..r.cachedLen], finished, cfg.ps);
      HandOverFrees(c, r.uid, r.ids[..r.cachedLen], row[..r.cachedLen], finished, cfg.ps);
    }
  }

  lemma {:induction false} HandOverFrees(c: Cache, u: int, ids: seq<int>, row: seq<int>, finished: bool, ps: Pos)
    ensures c.free <= CacheReqOp(c, u, ids, row, finished, ps).free
  {
    hide LongestMatch, AlignDown, Inserted, Strided, Slice, From;
  }

  /** A hand-over stores the whole pages of the computed tokens, and locks them for a request that goes on. */
  lemma {:induction false} HandOverStores(cfg: Config, s: Sched, r: Req, finished: bool)
    requires CacheOk(s.cache, cfg.ps) && Handable(s, r)
    ensures var c' := HandOver(s.cache, r, s.table, finished, cfg.ps);
            && Stored(c', DonePages(cfg, r))
            && (!finished ==> r.uid in c'.held && c'.held[r.uid] == DonePages(cfg, r))
  {
    hide StoreOk, Inserted, LongestMatch, Aligned, AlignDown, Strided, Slice, From;
    var row := RowAt(s.table, r.row)[..r.cachedLen];
    var ids := r.ids[..r.cachedLen];
    var il := AlignDown(|ids|, cfg.ps);
    assert ids[..il] == r.ids[..il];
    InsertedWhole(s.cache.store, Upto(ids, il), Upto(row, il), cfg.ps);
  }

  // ---- post-processing

  /** The entry is processed: it is no chunk and its abort is not deferred. */
  ghost predicate Handled(s: Sched, e: Entry) {
    !e.chunked && e.uid !in s.deferred
  }

  lemma {:induction false} EntryGrows(cfg: Config, p: Post, prefill: bool, e: Entry, token: int)
    requires CacheOk(p.s.cache, cfg.ps) && Named(p.s.reqs)
    ensures Grown(cfg, p.s, ProcessEntry(cfg, p, prefill, e, token).s, if Handled(p.s, e) then {e.uid} else {})
  {
    hide CacheOk, HandOver, IsFinished, Locked;
    if Handled(p.s, e) {
      var q := Get(p.s.reqs, e.uid).AppendHost(token);
      HandOverGrows(cfg, p.s.cache, q, p.s.table, true);
      HandOverGrows(cfg, p.s.cache, q, p.s.table, false);
    }
  }

  lemma {:induction false} EntriesGrow(cfg: Config, p: Post, prefill: bool, es: seq<Entry>, tokens: seq<int>)
    requires |tokens| == |es| && CacheOk(p.s.cache, cfg.ps) && Named(p.s.reqs)
    ensures Grown(cfg, p.s, ProcessEntries(cfg, p, prefill, es, tokens).s, Waiting(es) - p.s.deferred)
    decreases |es|
  {
    hide CacheOk, ProcessEntry, Locked, Waiting;
    if es == [] {
      NoWaiting();
    } else {
      var p1 := ProcessEntry(cfg, p, prefill, es[0], tokens[0]);
      EntryGrows(cfg, p, prefill, es[0], tokens[0]);
      EntriesGrow(cfg, p1, prefill, es[1..], tokens[1..]);
      WaitingRest(es);
      var one := if Handled(p.s, es[0]) then {es[0].uid} else {};
      GrownMore(cfg, p.s, p1.s, ProcessEntries(cfg, p, prefill, es, tokens).s, one, Waiting(es[1..]) - p1.s.deferred);
      assert one + (Waiting(es[1..]) - p1.s.deferred) == Waiting(es) - p.s.deferred;
    }
  }

  /** A request whose token was processed: what it left in the prefix map, and its lock if it goes on after a prefill.
  */
  ghost predicate Left(cfg: Config, s: Sched, u: int, prefill: bool, ended: bool) {
    var path := DonePages(cfg, Get(s.reqs, u));
    && (prefill || ended ==> Stored(s.cache, path))
    && (prefill && !ended ==> u in s.cache.held && s.cache.held[u] == path)
  }

  lemma {:induction false} LeftGrown(cfg: Config, s: Sched, s': Sched, us: set<int>, u: int, prefill: bool, ended: bool)
    requires Left(cfg, s, u, prefill, ended) && Grown(cfg, s, s', us) && u !in us
    ensures Left(cfg, s', u, prefill, ended)
  {
    hide CacheOk, Named, DonePages;
    assert SameLock(s.cache, s'.cache, u) && Get(s'.reqs, u) == Get(s.reqs, u);
  }

  lemma {:induction false} EntryLeaves(cfg: Config, p: Post, prefill: bool, e: Entry, token: int)
    requires CacheOk(p.s.cache, cfg.ps) && Named(p.s.reqs) && Handled(p.s, e)
    requires Handable(p.s, Get(p.s.reqs, e.uid).AppendHost(token)) && e.uid !in p.s.finished
    ensures var p', u := ProcessEntry(cfg, p, prefill, e, token), e.uid;
            var q := Get(p.s.reqs, u).AppendHost(token);
            var ended := IsFinished(cfg, q, token);
            && Left(cfg, p'.s, u, prefill, ended) && Get(p'.s.reqs, u) == q
            && (u in p'.finished <==> ended || u in p.finished) && (!ended && u in p.s.running ==> u in p'.s.running)
  {
    hide CacheOk, HandOver, IsFinished, DonePages;
    var q := Get(p.s.reqs, e.uid).AppendHost(token);
    HandOverStores(cfg, p.s, q, true);
    HandOverStores(cfg, p.s, q, false);
  }

  lemma {:induction false} EntriesLeave(cfg: Config, p: Post, prefill: bool, es: seq<Entry>, tokens: seq<int>, k: nat)
    requires |tokens| == |es| && DistinctEntries(es) && CacheOk(p.s.cache, cfg.ps) && Named(p.s.reqs)
    requires k < |es| && Handled(p.s, es[k]) && es[k].uid !in p.s.finished && es[k].uid !in p.finished
    requires Handable(p.s, Get(p.s.reqs, es[k].uid).AppendHost(tokens[k]))
    ensures var p', u := ProcessEntries(cfg, p, prefill, es, tokens), es[k].uid;
            var q := Get(p.s.reqs, u).AppendHost(tokens[k]);
            var ended := IsFinished(cfg, q, tokens[k]);
            && Left(cfg, p'.s, u, prefill, ended) && Get(p'.s.reqs, u) == q && (u in p'.finished <==> ended)
            && (!ended && u in p.s.running ==> u in p'.s.running)
    decreases |es|
  {
    hide CacheOk, ProcessEntry, Left, Waiting, Uids, IsFinished, DistinctEntries, Locked;
    var u, p1 := es[k].uid, ProcessEntry(cfg, p, prefill, es[0], tokens[0]);
    EntryGrows(cfg, p, prefill, es[0], tokens[0]);
    DistinctRest(es);
    if k == 0 {
      EntryLeaves(cfg, p, prefill, es[0], tokens[0]);
      EntriesGrow(cfg, p1, prefill, es[1..], tokens[1..]);
      WaitingUids(es[1..]);
      var p' := ProcessEntries(cfg, p, prefill, es, tokens);
      LeftGrown(cfg, p1.s, p'.s, Waiting(es[1..]) - p1.s.deferred, u, prefill,
                IsFinished(cfg, Get(p.s.reqs, u).AppendHost(tokens[0]), tokens[0]));
      FinishedOnly(cfg, p1, prefill, es[1..], tokens[1..], u);
      assert Get(p'.s.reqs, u) == Get(p1.s.reqs, u);
    } else {
      InUids(es[1..], k - 1);
      assert es[1..][k - 1] == es[k];
      assert Get(p1.s.reqs, u) == Get(p.s.reqs, u);
      OneFinished(cfg, p, prefill, es[0], tokens[0], u);
      EntriesLeave(cfg, p1, prefill, es[1..], tokens[1..], k - 1);
    }
  }

  lemma {:induction false} OneFinished(cfg: Config, p: Post, prefill: bool, e: Entry, token: int, u: int)
    requires u != e.uid
    ensures u in ProcessEntry(cfg, p, prefill, e, token).finished <==> u in p.finished
  {
    hide HandOver, IsFinished;
  }

  lemma {:induction false} FinishedOnly(cfg: Config, p: Post, prefill: bool, es: seq<Entry>, tokens: seq<int>, u: int)
    requires |tokens| == |es| && u !in Uids(es)
    ensures u in ProcessEntries(cfg, p, prefill, es, tokens).finished <==> u in p.finished
    decreases |es|
  {
    hide ProcessEntry, Uids;
    if es != [] {
      UidsSplit(es);
      OneFinished(cfg, p, prefill, es[0], tokens[0], u);
      FinishedOnly(cfg, ProcessEntry(cfg, p, prefill, es[0], tokens[0]), prefill, es[1..], tokens[1..], u);
    }
  }

  /** Releasing the deferred aborts. */
  lemma {:induction false} ApplyGrows(cfg: Config, s: Sched, es: seq<Entry>, done: set<int>)
    requires CacheOk(s.cache, cfg.ps) && Named(s.reqs)
    ensures Grown(cfg, s, ApplyEntries(cfg, s, es, done), s.deferred)
    decreases |es|
  {
    hide CacheOk, HandOver, Locked;
    if es != [] {
      var u := es[0].uid;
      if u in s.deferred && u !in done {
        HandOverGrows(cfg, s.cache, Get(s.reqs, u), s.table, true);
        var s1 := Release(cfg, s, u);
        var s2 := s1.(acks := s1.acks + [u]);
        assert Grown(cfg, s, s2, {u});
        ApplyGrows(cfg, s2, es[1..], done + {u});
        GrownMore(cfg, s, s2, ApplyEntries(cfg, s, es, done), {u}, s.deferred);
        assert {u} + s.deferred == s.deferred;
      } else {
        ApplyGrows(cfg, s, es[1..], done);
      }
    }
  }

  // ---- what a stored path is good for

  /** The first `n` of these tokens in whole pages. */
  ghost function FirstPages(ids: seq<int>, n: int, ps: Pos): seq<int> {
    var k := n / ps * ps;
    if 0 <= k <= |ids| then ids[..k] else []
  }

  /** The path is stored, and whatever prompt begins with it finds it. */
  ghost predicate Reusable(c: Cache, path: seq<int>, ps: Pos) {
    && Stored(c, path)
    && forall q {:trigger LongestMatch(c.store, q, ps)} | path <= q :: |path| <= LongestMatch(c.store, q, ps)
  }

  lemma {:induction false} StoredReusable(cfg: Config, c: Cache, r: Req)
    requires Stored(c, DonePages(cfg, r)) && r.cachedLen <= |r.ids|
    ensures Reusable(c, DonePages(cfg, r), cfg.ps)
  {
    hide Aligned, LongestMatch;
    var path := DonePages(cfg, r);
    forall q | path <= q
      ensures |path| <= LongestMatch(c.store, q, cfg.ps)
    {
      assert q[..|path|] == path;
    }
  }

  /** Computed tokens in whole pages, told by division. */
  lemma {:induction false} DoneAre(cfg: Config, r: Req, n: int)
    requires r.cachedLen == n <= |r.ids|
    ensures DonePages(cfg, r) == FirstPages(r.ids, n, cfg.ps)
  {
    hide AlignDown;
    AlignDownIsDivision(r.cachedLen, cfg.ps);
  }

  // ---- launching

  lemma {:induction false} LaunchNames(cfg: Config, s: Sched, i: Input)
    requires Ctrl(s) && Named(s.reqs)
    ensures Named(Launch(cfg, s, i).0.reqs)
  {
    hide Ctrl, Schedule, Prepare, Forward, Uids, Waiting, DistinctEntries;
    var (s1, b) := Schedule(cfg, s);
    forall u
      ensures Get(Launch(cfg, s, i).0.reqs, u).uid == u
    {
      assert Get(s.reqs, u).uid == u;
      SchedulePicks(cfg, s, u);
      if b.Some? {
        ForwardOne(cfg, s1, b.value, i.ev, TokensFor(b.value, i.tokens), u);
      }
    }
  }

  /** A launch advances a request that is not queued if it is in the new batch, and leaves it alone otherwise. */
  lemma {:induction false} LaunchMoves(cfg: Config, s: Sched, i: Input, u: int)
    requires Ctrl(s) && u !in PendingUids(s.pending)
    ensures var (s2, f) := Launch(cfg, s, i);
            Get(s2.reqs, u) == if u in Waiting(LastEntries(f)) then Get(s.reqs, u).CompleteOne() else Get(s.reqs, u)
  {
    hide Ctrl, Schedule, Prepare, Forward, Uids, Waiting, DistinctEntries, MadeFrom;
    NoWaiting();
    SchedulePicks(cfg, s, u);
    var (s1, b) := Schedule(cfg, s);
    if b.Some? {
      ForwardOne(cfg, s1, b.value, i.ev, TokensFor(b.value, i.tokens), u);
    }
  }

  lemma {:induction false} RunNamed(cfg: Config, ins: seq<Input>)
    requires IsRun(cfg, ins)
    ensures Named(StateAfter(cfg, ins).reqs)
  {
    hide IsRun, StateAfter, Granted, PromptOf, AskOf;
    forall u
      ensures Get(StateAfter(cfg, ins).reqs, u).uid == u
    {
      RunSettles(cfg, ins, u);
    }
  }

  lemma {:induction false} LoopNamed(cfg: Config, ins: seq<Input>)
    requires IsLoop(cfg, ins)
    ensures Named(LoopAfter(cfg, ins).s.reqs)
  {
    hide IsLoop, LoopAfter, Granted, PromptOf, AskOf;
    forall u
      ensures Get(LoopAfter(cfg, ins).s.reqs, u).uid == u
    {
      LoopSettles(cfg, ins, u);
    }
  }

  // ---- the normal loop

  lemma {:induction false} HeldCache(cfg: Config, s: Sched, busy: set<int>)
    requires LInv(cfg, s, s.pending, busy)
    ensures CacheOk(s.cache, cfg.ps) && RInv(cfg, s, {}, [])
  {
    hide QueueOk, HeadOk, RunningOk, DoneOk, CacheOk, ReqsInv, Owned, ChunkUids;
  }

  /** A request that waits for its token can be handed over once it has it. */
  lemma {:induction false} WaitHandable(cfg: Config, s: Sched, e: Entry, token: int, busy: set<int>)
    requires LInv(cfg, s, s.pending, busy) && e.uid in busy && WaitOk(cfg, s, e)
    ensures var q := Get(s.reqs, e.uid).AppendHost(token);
            && Handable(s, q) && q.cachedLen + 1 == |q.ids| && e.uid in s.reqs && !q.chunked && e.uid !in s.finished
            && (!IsFinished(cfg, q, token) ==> e.uid in s.running)
  {
    hide LInv, IsFinished, AlignUp;
    HeldCache(cfg, s, busy);
    HeldOf(cfg, s, busy);
    ReqFacts(cfg, s, {}, [], e.uid);
    if !IsFinished(cfg, Get(s.reqs, e.uid).AppendHost(token), token) {
      UnfinishedRuns(cfg, s, e, token);
    }
  }

  lemma {:induction false} NormalLeaves(cfg: Config, s: Sched, i: Input, k: nat)
    requires NInv(cfg, s) && Admissible(cfg, s, i) && Named(s.reqs)
    requires var b := NextBatch(cfg, s, i.msgs); b.Some? && k < |b.value.entries| && !b.value.entries[k].chunked
    ensures var s', b := NormalTick(cfg, s, i).0, NextBatch(cfg, s, i.msgs).value;
            var u := b.entries[k].uid;
            var r := Get(s'.reqs, u);
            && Left(cfg, s', u, b.prefill, u in s'.finished) && r.cachedLen + 1 == |r.ids| && u in s'.reqs && !r.chunked
            && (u !in s'.finished ==> u in s'.running)
  {
    hide NInv, LInv, AllFresh, ProcessMsgs, Schedule, CanPrepare, Prepare, Forward, ProcessEntries, RInv, Planned,
      CacheOk, Ctrl, Named, Left, Handable, IsFinished, DistinctEntries, Waiting, WaitOk;
    var s0 := ProcessMsgs(cfg, s, i.msgs);
    MsgsKeep(cfg, s, i.msgs);
    PlainCtrl(cfg, s);
    MsgsActive(cfg, s, i.msgs);
    PlainCtrl(cfg, s0);
    ScheduleKeeps(cfg, s0);
    var (s1, b) := Schedule(cfg, s0);
    var es, tokens := b.value.entries, TokensFor(b.value, i.tokens);
    BatchRuns(cfg, s1, b.value, i.ev, tokens);
    LaunchNames(cfg, s0, i);
    var s2 := Forward(cfg, Prepare(cfg, s1, b.value, i.ev), b.value, tokens);
    NotDeferred(cfg, s2, es);
    HeldCache(cfg, s2, Waiting(es));
    InUids(es, k);
    WaitHandable(cfg, s2, es[k], tokens[k], Waiting(es));
    EntriesLeave(cfg, Post(s2, [], {}), b.value.prefill, es, tokens, k);
    LeftSame(cfg, ProcessEntries(cfg, Post(s2, [], {}), b.value.prefill, es, tokens).s, NormalTick(cfg, s, i).0,
             es[k].uid, b.value.prefill, es[k].uid in NormalTick(cfg, s, i).0.finished);
  }

  lemma {:induction false} LeftSame(cfg: Config, s: Sched, s': Sched, u: int, prefill: bool, ended: bool)
    requires Left(cfg, s, u, prefill, ended) && s'.cache == s.cache && s'.reqs == s.reqs
    ensures Left(cfg, s', u, prefill, ended)
  {
  }

  /** What a processed token leaves behind, for the request's tokens `host` so far, the first `n` of them computed:
  their whole pages are stored for everyone if the request was just prefilled or ends, and locked for it if it goes on.
  */
  ghost predicate Leaves(cfg: Config, s: Sched, u: int, host: seq<int>, n: int, prefill: bool) {
    var path := FirstPages(host, n, cfg.ps);
    && (prefill || u in s.finished ==> Reusable(s.cache, path, cfg.ps))
    && (prefill && u !in s.finished ==> u in s.running && u in s.cache.held && s.cache.held[u] == path)
  }

  lemma {:induction false} LeftLeaves(cfg: Config, s: Sched, u: int, n: int, prefill: bool)
    requires Left(cfg, s, u, prefill, u in s.finished) && (u !in s.finished ==> u in s.running)
    requires Get(s.reqs, u).cachedLen == n <= |Get(s.reqs, u).ids|
    ensures Leaves(cfg, s, u, Get(s.reqs, u).ids, n, prefill)
  {
    hide Reusable, Stored, DonePages, FirstPages;
    var r := Get(s.reqs, u);
    DoneAre(cfg, r, n);
    if prefill || u in s.finished {
      StoredReusable(cfg, s.cache, r);
    }
  }

  /** Over every run of the normal loop, for each request of a batch that is not cut: after its prefill the whole pages
  of its prompt are stored and are the path of its lock while it goes on; when it is finished, the whole pages of
  everything computed for it, prompt and replies but for the last one, are stored. */
  lemma {:induction false} PrefixKept(cfg: Config, ins: seq<Input>, i: Input, k: nat)
    requires IsRun(cfg, ins + [i])
    requires var b := NextBatch(cfg, StateAfter(cfg, ins), i.msgs);
             b.Some? && k < |b.value.entries| && !b.value.entries[k].chunked
    ensures var s', b := StateAfter(cfg, ins + [i]), NextBatch(cfg, StateAfter(cfg, ins), i.msgs).value;
            var u := b.entries[k].uid;
            var host := PromptOf(cfg, ins + [i], u) + SaidTokens(StreamOf(cfg, ins + [i], u));
            StreamOf(cfg, ins + [i], u) != [] && Leaves(cfg, s', u, host, |host| - 1, b.prefill)
  {
    hide NormalTick, Admissible, LInv, IsRun, NextBatch, Leaves, Left, Named, StreamOf, PromptOf, Stream;
    RunTick(cfg, ins, i);
    Reachable(cfg, ins);
    RunNamed(cfg, ins);
    var s, b := StateAfter(cfg, ins), NextBatch(cfg, StateAfter(cfg, ins), i.msgs).value;
    var u, s' := b.entries[k].uid, NormalTick(cfg, s, i).0;
    NormalLeaves(cfg, s, i, k);
    RepliesShape(cfg, ins + [i], u);
    LeftLeaves(cfg, s', u, |Get(s'.reqs, u).ids| - 1, b.prefill);
  }

  lemma {:induction false} RunTick(cfg: Config, ins: seq<Input>, i: Input)
    requires IsRun(cfg, ins + [i])
    ensures IsRun(cfg, ins) && Admissible(cfg, StateAfter(cfg, ins), i)
    ensures StateAfter(cfg, ins + [i]) == NormalTick(cfg, StateAfter(cfg, ins), i).0
  {
    hide NormalTick, Admissible;
    var all := ins + [i];
    assert all[..|all| - 1] == ins && all[|all| - 1] == i;
  }

  // ---- the overlap loop

  lemma {:induction false} TokenOfLag(es: seq<Entry>, tokens: seq<int>, dropped: set<int>, k: nat)
    requires |tokens| == |es| && DistinctEntries(es) && k < |es| && !es[k].chunked && es[k].uid !in dropped
    ensures var lag := LagOf(es, tokens, dropped); es[k].uid in lag && lag[es[k].uid] == tokens[k]
  {
    hide LagOf, DistinctEntries;
    LagAt(es, tokens, k);
    Undropped(es, tokens, dropped, es[k].uid);
  }

  /** A token still to be processed: its request can be handed over once it has it. */
  lemma {:induction false} ToGoHandable(cfg: Config, p: Post, es: seq<Entry>, tokens: seq<int>, fes: seq<Entry>,
                                        prefill: bool, k: nat)
    requires |tokens| == |es| && Processing(cfg, p, es, tokens, fes, prefill) && k < |es| && Handled(p.s, es[k])
    requires prefill || es[k].uid !in p.s.finished
    ensures var u := es[k].uid;
            var q := Get(p.s.reqs, u).AppendHost(tokens[k]);
            && CacheOk(p.s.cache, cfg.ps) && u in p.s.cache.held && u !in p.s.finished && u in p.s.reqs
              && Handable(p.s, q)
            && (!IsFinished(cfg, q, tokens[k]) ==> u in p.s.running)
  {
    hide LInv, Away, AllLanding, DoneOk, AllParked, Waiting, LagOf, Later, DistinctEntries, IsFinished, AlignUp, ReqInv;
    var lag := LagOf(es, tokens, p.s.deferred);
    var t, u := Caught(p.s, lag), es[k].uid;
    assert ToGo(p.s, t, es[k], prefill);
    HeldCache(cfg, t, Away(t, fes));
    ReqFacts(cfg, t, {}, [], u);
    TokenOfLag(es, tokens, p.s.deferred, k);
    LaterGet(p.s.reqs, lag, u);
    var q := Get(p.s.reqs, u).AppendHost(tokens[k]);
    Unfinished(cfg, q, tokens[k]);
    RowReaches(cfg, t, u);
  }

  lemma {:induction false} RowReaches(cfg: Config, t: Sched, u: int)
    requires RInv(cfg, t, {}, []) && u in t.cache.held
    ensures Get(t.reqs, u).cachedLen <= |RowAt(t.table, Get(t.reqs, u).row)|
  {
    hide RInv, AlignUp;
    ReqFacts(cfg, t, {}, [], u);
  }

  /** How far a request in flight is: all its host tokens are computed. */
  lemma {:induction false} FlyingLength(cfg: Config, s: Sched, last: Option<Flight>, k: nat)
    requires OwnInv(cfg, s, last) && FInv(s, last) && last.Some? && k < |last.value.batch.entries|
    requires !last.value.batch.entries[k].chunked
    requires last.value.batch.prefill || last.value.batch.entries[k].uid !in s.finished
    ensures var u := last.value.batch.entries[k].uid;
            var r := Get(s.reqs, u);
            u in s.reqs && !r.chunked && r.cachedLen + 1 == |r.ids| + 1 == r.deviceLen && u !in s.finished
  {
    hide LInv, ChunkUids;
    assert Flying(cfg, s, last.value.batch.entries[k], last.value.batch.prefill);
  }

  /** Messages and launch of a tick, as far as a request in flight is concerned. */
  lemma {:induction false} FlyingLaunched(cfg: Config, s: Sched, last: Option<Flight>, i: Input, k: nat)
    requires FInv(s, last) && OwnInv(cfg, s, last) && Fits(cfg, s, last, i) && Named(s.reqs)
    requires last.Some? && k < |last.value.batch.entries| && !last.value.batch.entries[k].chunked
    requires last.value.batch.entries[k].uid !in Aborts(i.msgs)
    ensures var g, es, u := StagesOf(cfg, s, last, i), LastEntries(last), last.value.batch.entries[k].uid;
            && |OverlapOwn.Tokens(last)| == |es| && Named(g.launched.reqs) && u !in g.launched.deferred
            && g.launched.finished == s.finished
            && Processing(cfg, Post(g.launched, [], {}), es, OverlapOwn.Tokens(last), LastEntries(g.flight),
              last.value.batch.prefill)
            && Get(g.launched.reqs, u)
               == if u in Waiting(LastEntries(g.flight)) then Get(s.reqs, u).CompleteOne() else Get(s.reqs, u)
  {
    hide OwnInv, Hearing, Processing, CanLaunch, StagesOk, Ctrl, Uids, Waiting, Launch, ProcessMsgs, ProcessEntries,
      ApplyEntries, AllFresh, Named, DistinctEntries, Aborts, PendingUids, LagOf, Later, Unqueued, PlainIdle;
    var es, prefill, g := LastEntries(last), IsPrefill(last), StagesOf(cfg, s, last, i);
    var u, s0 := es[k].uid, s.(inflight := LastUids(last));
    TickIs(cfg, s, last, i);
    StartHearing(cfg, s, last);
    WithInflight(s, last);
    MsgsHear(cfg, s0, i.msgs, es, prefill);
    MsgsActive(cfg, s0, i.msgs);
    HeardOf(cfg, s, last, i);
    HeardCtrl(s, last, i, g);
    StartProcessing(cfg, g.heard, i, es, OverlapOwn.Tokens(last), prefill);
    HeardDeferred(s, last, i, g);
    InUids(es, k);
    DeferredNow(s, last, i, g, u);
    LaunchNames(cfg, g.heard, i);
    HeardCaught(cfg, g.heard, es, OverlapOwn.Tokens(last), prefill);
    TokenOfLag(es, OverlapOwn.Tokens(last), g.heard.deferred, k);
    UnqueuedUids(g.heard.pending, LagOf(es, OverlapOwn.Tokens(last), g.heard.deferred), u);
    LaunchMoves(cfg, g.heard, i, u);
  }

  lemma {:induction false} OverlapLeaves(cfg: Config, s: Sched, last: Option<Flight>, i: Input, k: nat)
    requires FInv(s, last) && OwnInv(cfg, s, last) && Fits(cfg, s, last, i) && Named(s.reqs)
    requires last.Some? && k < |last.value.batch.entries| && !last.value.batch.entries[k].chunked
    requires var u := last.value.batch.entries[k].uid;
             u !in Aborts(i.msgs) && (last.value.batch.prefill || u !in s.finished)
    ensures var (s', f, replies) := OverlapTick(cfg, s, last, i);
            var u, prefill := last.value.batch.entries[k].uid, last.value.batch.prefill;
            var r := Get(s'.reqs, u);
            && Left(cfg, s', u, prefill, u in s'.finished) && r.cachedLen + 1 == |r.ids| + InFlight(f, u)
            && u in s'.reqs && !r.chunked && (u !in s'.finished ==> u in s'.running)
  {
    hide FInv, OwnInv, Fits, OverlapTick, Processing, StagesOk, Named, Left, Handable, IsFinished, DistinctEntries,
      Waiting, Uids, ProcessMsgs, Launch, ProcessEntries, ApplyEntries, CacheOk, Aborts, OFresh, Grown;
    FlightShape(s, last);
    var es, tokens, prefill := LastEntries(last), OverlapOwn.Tokens(last), last.value.batch.prefill;
    var u, g := es[k].uid, StagesOf(cfg, s, last, i);
    FitsFresh(cfg, s, last, i);
    TickStages(cfg, s, last, i);
    TickIs(cfg, s, last, i);
    StagesApply(cfg, s, last, i);
    FlyingLength(cfg, s, last, k);
    FlyingLaunched(cfg, s, last, i, k);
    var p := Post(g.launched, [], {});
    ToGoHandable(cfg, p, es, tokens, LastEntries(g.flight), prefill, k);
    EntriesLeave(cfg, p, prefill, es, tokens, k);
    EntriesGrow(cfg, p, prefill, es, tokens);
    var s3 := g.post.s.(finished := g.post.finished);
    var ended := u in g.post.finished;
    LeftSame(cfg, g.post.s, s3, u, prefill, ended);
    PostSame(cfg, g.launched, g.post.s, Waiting(es) - g.launched.deferred);
    ApplyGrows(cfg, s3, es, {});
    LeftGrown(cfg, s3, g.applied, s3.deferred, u, prefill, ended);
    GrownOne(cfg, s3, g.applied, s3.deferred, u);
    StagesKeys(s, last, i, g);
    LeftSame(cfg, g.applied, OverlapTick(cfg, s, last, i).0, u, prefill, ended);
  }

  lemma {:induction false} PostSame(cfg: Config, s: Sched, s': Sched, us: set<int>)
    requires Grown(cfg, s, s', us)
    ensures CacheOk(s'.cache, cfg.ps) && Named(s'.reqs) && s'.deferred == s.deferred && s'.finished == s.finished
  {
    hide CacheOk, Named;
  }

  lemma {:induction false} GrownOne(cfg: Config, s: Sched, s': Sched, us: set<int>, u: int)
    requires Grown(cfg, s, s', us) && u !in us
    ensures Get(s'.reqs, u) == Get(s.reqs, u) && (u in s.running ==> u in s'.running)
  {
    hide CacheOk, Named;
  }

  lemma {:induction false} StreamGrows(cfg: Config, ins: seq<Input>, i: Input, u: int)
    ensures LoopStream(cfg, ins + [i], u) == LoopStream(cfg, ins, u) + Said(LoopAfter(cfg, ins + [i]).replies, u)
  {
    hide LoopAfter, Said;
    assert (ins + [i])[..|ins|] == ins;
  }

  /** The same over every run of the overlap loop whose aborts come in time, for each request of the batch in flight
  that is not aborted now and was not finished in the last tick - which none of a prefill batch was. A request launched
  again meanwhile has one more token computed. */
  lemma {:induction false} PrefixKeptLater(cfg: Config, ins: seq<Input>, i: Input, k: nat)
    requires IsServed(cfg, ins + [i]) && Timely(cfg, ins + [i])
    requires var l := LoopAfter(cfg, ins);
             && l.last.Some? && k < |l.last.value.batch.entries| && !l.last.value.batch.entries[k].chunked
             && l.last.value.batch.entries[k].uid !in Aborts(i.msgs)
             && (l.last.value.batch.prefill || l.last.value.batch.entries[k].uid !in l.s.finished)
    ensures var b, l' := LoopAfter(cfg, ins).last.value.batch, LoopAfter(cfg, ins + [i]);
            var u := b.entries[k].uid;
            var host := PromptOf(cfg, ins + [i], u) + SaidTokens(LoopStream(cfg, ins + [i], u));
            && LoopStream(cfg, ins + [i], u) != []
            && Leaves(cfg, l'.s, u, host, |host| - 1 + InFlight(l'.last, u), b.prefill)
  {
    hide FInv, OwnInv, Fits, OverlapTick, LoopAfter, IsServed, IsLoop, Timely, Named, Left, Leaves, Aborts, PromptOf,
      LoopStream, Marks, Waiting, Relaunched, Lined, Closing, StagesOf, ProcessMsgs;
    LoopStep(cfg, ins, i);
    TickFits(cfg, ins, i);
    ServedLoop(cfg, ins + [i]);
    LoopNamed(cfg, ins);
    var l, l' := LoopAfter(cfg, ins), LoopAfter(cfg, ins + [i]);
    var b := l.last.value.batch;
    var u := b.entries[k].uid;
    OverlapLeaves(cfg, l.s, l.last, i, k);
    StreamRun(cfg, ins + [i], u);
    FitsFresh(cfg, l.s, l.last, i);
    SentExactly(cfg, l.s, l.last, i, u);
    InUids(b.entries, k);
    StreamGrows(cfg, ins, i, u);
    LeftLeaves(cfg, l'.s, u, |Get(l'.s.reqs, u).ids| - 1 + InFlight(l'.last, u), b.prefill);
  }
}
