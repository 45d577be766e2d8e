/** The forward commit and post-processing: every request of the batch advances by one step, the running set is renewed,
sampled tokens are appended, finished requests are released and prefixes of fresh ones are cached. */
module SchedPost {
  import opened Paging
  import opened CacheSpec
  import opened Requests
  import opened SchedSpec
  import opened SchedInv
  import opened SchedAdmit
  import opened SchedRound
  import opened SchedBatch
  import opened SchedForward

  // ---- the commit

  ghost predicate DistinctEntries(es: seq<Entry>) {
    forall i, j {:trigger es[i], es[j]} | 0 <= i < j < |es| :: es[i].uid != es[j].uid
  }

  lemma {:induction false} DistinctRest(es: seq<Entry>)
    requires DistinctEntries(es) && es != []
    ensures DistinctEntries(es[1..]) && es[0].uid !in Uids(es[1..])
  {
    assert forall i | 0 <= i < |es[1..]| :: es[1..][i] == es[i + 1];
  }

  lemma {:induction false} CommitOneKeeps(cfg: Config, s: Sched, prep: set<int>, u: int, token: int)
    requires RInv(cfg, s, prep, []) && u in prep && u in s.cache.held
    ensures var s' := CommitOne(cfg, s, u, token);
            && RInv(cfg, s', prep - {u}, [])
            && s' == s.(reqs := s.reqs[u := Get(s.reqs, u).CompleteOne()], pool := s'.pool)
  {
    hide RInv, ReqInv, OwnOf, Same, Shape, WriteRow, WritePos;
    var s' := CommitOne(cfg, s, u, token);
    forall v | v in s.cache.held
      ensures ReqInv(cfg, s', prep - {u}, v) && OwnOf(cfg, s', prep - {u}, v) == OwnOf(cfg, s, prep, v)
    {
      ReqFacts(cfg, s, prep, [], v);
      if v == u {
        CommittedReq(cfg, s, s', prep, u);
      } else {
        CommitOther(cfg, s, s', prep, u, v);
        Untouched(cfg, s, s', prep, prep - {u}, v);
      }
    }
    PoolWritten(cfg, s, prep, Get(s.reqs, u).row, WritePos(cfg, Get(s.reqs, u)), token);
    RInvFrame(cfg, s, s', prep, prep - {u}, []);
  }

  lemma {:induction false} PoolWritten(cfg: Config, s: Sched, prep: set<int>, row: int, pos: int, token: int)
    requires RInv(cfg, s, prep, [])
    ensures Shape(if pos < 0 then s.pool else WriteRow(s.pool, row, pos, [token]), cfg.numRows + 1, cfg.width)
  {
    hide Owned, ReqsInv, CacheOk, WriteRow;
    if pos >= 0 {
      WriteRowFacts(s.pool, row, pos, [token], cfg.numRows + 1, cfg.width);
    }
  }

  lemma {:induction false} CommittedReq(cfg: Config, s: Sched, s': Sched, prep: set<int>, u: int)
    requires ReqInv(cfg, s, prep, u) && u in prep && s'.cache == s.cache && s'.table == s.table
    requires s'.reqs == s.reqs[u := Get(s.reqs, u).CompleteOne()]
    ensures ReqInv(cfg, s', prep - {u}, u) && OwnOf(cfg, s', prep - {u}, u) == OwnOf(cfg, s, prep, u)
  {
    hide Whole, Aligned, AlignUp;
  }

  lemma {:induction false} CommitOther(cfg: Config, s: Sched, s': Sched, prep: set<int>, u: int, v: int)
    requires ReqInv(cfg, s, prep, v) && v != u && s'.cache == s.cache && s'.table == s.table
    requires s'.reqs == s.reqs[u := Get(s'.reqs, u)]
    ensures Same(s, s', prep, prep - {u}, v)
  {
    hide Whole, Segment, Aligned;
  }

  /** A commit advances the requests of `us` by one step and leaves all others alone. */
  ghost predicate Advanced(s: Sched, s': Sched, us: set<int>) {
    && s'.pending == s.pending && s'.running == s.running && s'.finished == s.finished && s'.cache == s.cache
    && s'.inflight == s.inflight && s'.deferred == s.deferred && s'.acks == s.acks && s'.freed == s.freed
    && s'.rows == s.rows && s'.table == s.table && s.reqs.Keys <= s'.reqs.Keys && s'.reqs.Keys <= s.reqs.Keys + us
    && (forall u {:trigger Get(s'.reqs, u)} | u in us ::
          u in s'.reqs && Get(s'.reqs, u) == Get(s.reqs, u).CompleteOne())
    && (forall u {:trigger Get(s'.reqs, u)} | u !in us :: Get(s'.reqs, u) == Get(s.reqs, u))
  }

  lemma {:induction false} CommitAdvances(cfg: Config, s: Sched, es: seq<Entry>, tokens: seq<int>)
    requires DistinctEntries(es) && |tokens| == |es|
    ensures Advanced(s, Commit(cfg, s, es, tokens), Uids(es))
    decreases |es|
  {
    hide WriteRow, WritePos, Uids;
    if es == [] {
      NoUids();
    } else {
      DistinctRest(es);
      CommitAdvances(cfg, CommitOne(cfg, s, es[0].uid, tokens[0]), es[1..], tokens[1..]);
      UidsSplit(es);
      AdvancedMore(cfg, s, es[0].uid, tokens[0], Uids(es[1..]), Commit(cfg, s, es, tokens));
    }
  }

  lemma {:induction false} AdvancedMore(cfg: Config, s: Sched, u: int, token: int, us: set<int>, s': Sched)
    requires u !in us && Advanced(CommitOne(cfg, s, u, token), s', us)
    ensures Advanced(s, s', {u} + us)
  {
    hide WriteRow, WritePos;
    var s1 := CommitOne(cfg, s, u, token);
    forall v | v !in {u} + us
      ensures Get(s'.reqs, v) == Get(s.reqs, v)
    {
      assert Get(s1.reqs, v) == Get(s.reqs, v);
    }
    forall v | v in {u} + us
      ensures v in s'.reqs && Get(s'.reqs, v) == Get(s.reqs, v).CompleteOne()
    {
      if v == u {
        assert u in s1.reqs && Get(s'.reqs, u) == Get(s1.reqs, u);
      } else {
        assert Get(s'.reqs, v) == Get(s1.reqs, v).CompleteOne() && Get(s1.reqs, v) == Get(s.reqs, v);
      }
    }
  }

  lemma {:induction false} CommitKeeps(cfg: Config, s: Sched, prep: set<int>, es: seq<Entry>, tokens: seq<int>)
    requires RInv(cfg, s, prep, []) && Uids(es) <= prep && Uids(es) <= s.cache.held.Keys
    requires DistinctEntries(es) && |tokens| == |es|
    ensures RInv(cfg, Commit(cfg, s, es, tokens), prep - Uids(es), [])
    decreases |es|
  {
    hide RInv, CommitOne, Uids;
    if es == [] {
      NoUids();
      assert prep - {} == prep;
    } else {
      var u := es[0].uid;
      UidsSplit(es);
      DistinctRest(es);
      CommitOneKeeps(cfg, s, prep, u, tokens[0]);
      CommitKeeps(cfg, CommitOne(cfg, s, u, tokens[0]), prep - {u}, es[1..], tokens[1..]);
      assert prep - {u} - Uids(es[1..]) == prep - Uids(es);
    }
  }

  // ---- the state after the forward pass

  /** The uids whose sampled token still has to be processed. */
  ghost function Waiting(es: seq<Entry>): set<int> {
    set e | e in es && !e.chunked :: e.uid
  }

  /** A request whose token was sampled but not appended yet. */
  ghost predicate WaitOk(cfg: Config, s: Sched, e: Entry) {
    var r := Get(s.reqs, e.uid);
    && e.uid in s.reqs && !r.chunked && |r.ids| + 1 == r.deviceLen == r.cachedLen + 1
    && r.cachedLen <= r.maxLen <= cfg.maxSeqLen
    && (e.uid in s.running <==> r.deviceLen < r.maxLen)
    && e.uid !in ChunkUids(s.pending) && e.uid !in s.finished
  }

  ghost predicate WaitsOk(cfg: Config, s: Sched, es: seq<Entry>) {
    && DistinctEntries(es)
    && forall i {:trigger es[i]} | 0 <= i < |es| && !es[i].chunked :: WaitOk(cfg, s, es[i])
  }

  lemma {:induction false} WaitingUids(es: seq<Entry>)
    ensures Waiting(es) <= Uids(es)
  {
  }

  lemma {:induction false} WaitingCons(e: Entry, rest: seq<Entry>)
    ensures Waiting([e] + rest) == (if e.chunked then {} else {e.uid}) + Waiting(rest)
  {
    forall x
      ensures x in [e] + rest <==> x == e || x in rest
    {
    }
  }

  lemma {:induction false} EntryOf(es: seq<Entry>, u: int) returns (i: nat)
    requires u in Uids(es)
    ensures i < |es| && es[i].uid == u
  {
    var e :| e in es && e.uid == u;
    i :| 0 <= i < |es| && es[i] == e;
  }

  lemma {:induction false} WaitingOf(es: seq<Entry>, u: int) returns (i: nat)
    requires u in Waiting(es)
    ensures i < |es| && es[i].uid == u && !es[i].chunked
  {
    var e :| e in es && !e.chunked && e.uid == u;
    i :| 0 <= i < |es| && es[i] == e;
  }

  lemma {:induction false} InUids(es: seq<Entry>, i: nat)
    requires i < |es|
    ensures es[i].uid in Uids(es) && (!es[i].chunked ==> es[i].uid in Waiting(es))
  {
    assert es[i] in es;
  }

  /** What a planned batch says of one of its requests, after the commit. */
  lemma {:induction false} EntryAfter(cfg: Config, s: Sched, s': Sched, b: Batch, i: nat, others: set<int> := {})
    requires Planned(cfg, s, b, others) && Advanced(s, s', Uids(b.entries)) && i < |b.entries|
    ensures EntryOk(cfg, s, b.entries[i]) && b.entries[i].uid in Uids(b.entries)
    ensures Get(s'.reqs, b.entries[i].uid) == Get(s.reqs, b.entries[i].uid).CompleteOne()
    ensures b.entries[i].uid !in s.finished
    ensures !b.entries[i].chunked ==> b.entries[i].uid !in ChunkUids(s.pending)
    ensures b.entries[i].chunked ==> b.entries[i].uid in ChunkUids(s.pending)
  {
    hide QueueOk, RunningOk, ChunkUids, PendOk;
    var e := b.entries[i];
    InUids(b.entries, i);
    ChunkHead(cfg, s, s.pending, e.uid);
    assert EntryOk(cfg, s, e);
  }

  lemma {:induction false} AfterWaits(cfg: Config, s: Sched, s': Sched, b: Batch, others: set<int> := {})
    requires Planned(cfg, s, b, others) && Advanced(s, s', Uids(b.entries))
    ensures WaitsOk(cfg, Filter(s', b.entries), b.entries)
  {
    hide Planned, Advanced, Uids, ChunkUids;
    var s2 := Filter(s', b.entries);
    FilterQueue(cfg, s, s', b, others);
    forall i | 0 <= i < |b.entries| && !b.entries[i].chunked
      ensures WaitOk(cfg, s2, b.entries[i])
    {
      EntryAfter(cfg, s, s', b, i, others);
    }
  }

  lemma {:induction false} FilterQueue(cfg: Config, s: Sched, s': Sched, b: Batch, others: set<int> := {})
    requires Planned(cfg, s, b, others) && Advanced(s, s', Uids(b.entries))
    ensures s'.pending == s.pending && s'.finished == s.finished && s'.running == s.running
            && s'.reqs.Keys == s.reqs.Keys
    ensures DistinctEntries(b.entries)
  {
    hide QueueOk, RunningOk, ChunkUids, HeadReady, ChunksQueued;
    forall u | u in Uids(b.entries)
      ensures u in s.reqs
    {
      var i := EntryOf(b.entries, u);
      assert EntryOk(cfg, s, b.entries[i]);
    }
  }

  /** Who runs after the forward pass. */
  lemma {:induction false} RunsAfter(cfg: Config, s: Sched, s': Sched, b: Batch, u: int, others: set<int> := {})
    requires Planned(cfg, s, b, others) && Advanced(s, s', Uids(b.entries))
    ensures u in Filter(s', b.entries).running ==> u in s.running || u in Waiting(b.entries)
    ensures u in s.running && u !in Waiting(b.entries) ==> u in Filter(s', b.entries).running
    ensures u in Filter(s', b.entries).running && u !in Waiting(b.entries) ==> RunOk(cfg, Filter(s', b.entries), u)
    ensures u in Filter(s', b.entries).running ==> u !in ChunkUids(s.pending)
  {
    hide QueueOk, HeadReady, ChunksQueued, ChunkUids, Advanced, Waiting;
    if u in Uids(b.entries) {
      var i := EntryOf(b.entries, u);
      EntryAfter(cfg, s, s', b, i, others);
      InUids(b.entries, i);
      FilterQueue(cfg, s, s', b, others);
    } else {
      FilterQueue(cfg, s, s', b, others);
      AdvancedOther(s, s', Uids(b.entries), u);
      assert u in s.running ==> RunOk(cfg, s, u);
    }
    ChunkHead(cfg, s, s.pending, u);
  }

  lemma {:induction false} AdvancedOther(s: Sched, s': Sched, us: set<int>, u: int)
    requires Advanced(s, s', us) && u !in us
    ensures Get(s'.reqs, u) == Get(s.reqs, u) && s'.running == s.running
  {
  }

  lemma {:induction false} QueueForward(cfg: Config, s: Sched, s': Sched, b: Batch, others: set<int> := {})
    requires Planned(cfg, s, b, others) && Advanced(s, s', Uids(b.entries))
    ensures QueueOk(cfg, Filter(s', b.entries), s.pending) && HeadOk(Filter(s', b.entries), s.pending)
  {
    hide RunningOk, ChunksQueued, PendOk, DistinctUids, Waiting;
    var s2 := Filter(s', b.entries);
    FilterQueue(cfg, s, s', b, others);
    forall i | 0 <= i < |s.pending|
      ensures s.pending[i].uid !in s2.running
    {
      var u := s.pending[i].uid;
      QueuedChunk(cfg, s, i);
      RunsAfter(cfg, s, s', b, u, others);
      if u in Waiting(b.entries) {
        var j := WaitingOf(b.entries, u);
        EntryAfter(cfg, s, s', b, j, others);
      }
    }
  }

  lemma {:induction false} QueuedChunk(cfg: Config, s: Sched, i: nat)
    requires QueueOk(cfg, s, s.pending) && i < |s.pending|
    ensures s.pending[i].uid in s.reqs ==> s.pending[i].uid in ChunkUids(s.pending)
  {
    hide PendOk, DistinctUids;
    assert s.pending[i] in s.pending;
  }

  lemma {:induction false} HeldForward(cfg: Config, s: Sched, s': Sched, b: Batch, others: set<int> := {})
    requires Planned(cfg, s, b, others) && Advanced(s, s', Uids(b.entries))
    ensures s.cache.held.Keys == Filter(s', b.entries).running + ChunkUids(s.pending) + Waiting(b.entries) + others
  {
    hide QueueOk, RunningOk, HeadReady, ChunksQueued, Advanced, ChunkUids, Filter, EntriesOk;
    var run := Filter(s', b.entries).running;
    forall u
      ensures u in s.running + ChunkUids(s.pending) + Uids(b.entries) <==>
              u in run + ChunkUids(s.pending) + Waiting(b.entries)
    {
      RunsAfter(cfg, s, s', b, u, others);
      if u in Uids(b.entries) {
        var i := EntryOf(b.entries, u);
        EntryAfter(cfg, s, s', b, i, others);
        InUids(b.entries, i);
      }
      if u in Waiting(b.entries) {
        var i := WaitingOf(b.entries, u);
        InUids(b.entries, i);
      }
    }
  }

  /** After the forward pass the batch's requests, chunks aside, wait for post-processing; all others are in order. */
  lemma {:induction false} ForwardKeeps(cfg: Config, s: Sched, b: Batch, tokens: seq<int>, others: set<int> := {})
    requires RInv(cfg, s, Uids(b.entries), []) && Planned(cfg, s, b, others) && |tokens| == |b.entries|
    ensures var s' := Forward(cfg, s, b, tokens);
            && LInv(cfg, s', s'.pending, Waiting(b.entries) + others) && WaitsOk(cfg, s', b.entries)
            && s'.pending == s.pending && s'.cache == s.cache && s'.finished == s.finished
  {
    hide RInv, Planned, Advanced, Commit, QueueOk, HeadOk, RunOk, ChunkUids, Waiting, Uids, WaitsOk, DistinctEntries;
    var s1 := Commit(cfg, s, b.entries, tokens);
    var s' := Filter(s1, b.entries);
    PlannedEntries(cfg, s, b, others);
    CommitAdvances(cfg, s, b.entries, tokens);
    CommitKeeps(cfg, s, Uids(b.entries), b.entries, tokens);
    assert Uids(b.entries) - Uids(b.entries) == {};
    AdvancedFields(s, s1, Uids(b.entries));
    RInvSameOf(cfg, s1, s');
    FilterQueue(cfg, s, s1, b, others);
    QueueForward(cfg, s, s1, b, others);
    HeldForward(cfg, s, s1, b, others);
    AfterWaits(cfg, s, s1, b, others);
    forall u | u in s'.running && u !in Waiting(b.entries)
      ensures RunOk(cfg, s', u)
    {
      RunsAfter(cfg, s, s1, b, u, others);
    }
    DoneForward(cfg, s, s', b, others);
  }

  lemma {:induction false} AdvancedFields(s: Sched, s': Sched, us: set<int>)
    requires Advanced(s, s', us)
    ensures s'.pending == s.pending && s'.finished == s.finished && s'.cache == s.cache
    ensures s'.inflight == s.inflight && s'.deferred == s.deferred
  {
  }

  lemma {:induction false} PlannedEntries(cfg: Config, s: Sched, b: Batch, others: set<int> := {})
    requires Planned(cfg, s, b, others)
    ensures DistinctEntries(b.entries) && Uids(b.entries) <= s.cache.held.Keys
    ensures s.inflight == {} && s.deferred == {}
  {
    hide QueueOk, RunningOk, ChunkUids, HeadReady, ChunksQueued;
  }

  lemma {:induction false} DoneForward(cfg: Config, s: Sched, s': Sched, b: Batch, others: set<int> := {})
    requires Planned(cfg, s, b, others) && s'.reqs.Keys == s.reqs.Keys && s'.finished == s.finished
             && s'.cache == s.cache
    ensures DoneOk(s', s'.finished)
  {
    hide QueueOk, RunningOk, ChunkUids, HeadReady, ChunksQueued;
  }

  // ---- post-processing

  /** Post-processing with the entries `es` still to go. */
  ghost predicate PInv(cfg: Config, p: Post, es: seq<Entry>) {
    && LInv(cfg, p.s, p.s.pending, Waiting(es)) && WaitsOk(cfg, p.s, es) && DoneOk(p.s, p.finished)
  }

  lemma {:induction false} WaitsRest(cfg: Config, s: Sched, es: seq<Entry>)
    requires WaitsOk(cfg, s, es) && es != []
    ensures WaitsOk(cfg, s, es[1..]) && Waiting(es[1..]) == Waiting(es) - {es[0].uid}
    ensures !es[0].chunked ==> WaitOk(cfg, s, es[0]) && es[0].uid in Waiting(es)
    ensures es[0].chunked ==> es[0].uid !in Waiting(es)
  {
    hide WaitOk;
    assert forall i | 0 <= i < |es[1..]| :: es[1..][i] == es[i + 1];
    InUids(es, 0);
    forall u
      ensures u in Waiting(es[1..]) <==> u in Waiting(es) - {es[0].uid}
    {
      if u in Waiting(es) {
        var i := WaitingOf(es, u);
        if i > 0 {
          InUids(es[1..], i - 1);
        }
      }
      if u in Waiting(es[1..]) {
        var i := WaitingOf(es[1..], u);
        InUids(es, i + 1);
      }
    }
    if es[0].chunked && es[0].uid in Waiting(es) {
      var i := WaitingOf(es, es[0].uid);
    }
  }

  /** The host state of a request after its sampled token is appended. */
  ghost function Appended(s: Sched, u: int, token: int): Sched {
    s.(reqs := s.reqs[u := Get(s.reqs, u).AppendHost(token)])
  }

  lemma {:induction false} AppendRes(cfg: Config, s: Sched, u: int, token: int)
    requires RInv(cfg, s, {}, []) && u in s.cache.held
    ensures RInv(cfg, Appended(s, u, token), {}, [])
  {
    hide RInv, Shape;
    ReqFacts(cfg, s, {}, [], u);
    PoolShape(cfg, s);
    NextChunkRes(cfg, s, Appended(s, u, token), u, Get(s.reqs, u).AppendHost(token));
  }

  /** Appending leaves everybody else's state alone. */
  lemma {:induction false} AppendQueue(cfg: Config, s: Sched, e: Entry, token: int, busy: set<int>)
    requires QueueOk(cfg, s, s.pending) && HeadOk(s, s.pending) && RunningOk(cfg, s, busy) && e.uid in busy
    requires DoneOk(s, s.finished) && WaitOk(cfg, s, e)
    ensures var s' := Appended(s, e.uid, token);
            && QueueOk(cfg, s', s.pending) && HeadOk(s', s.pending) && RunningOk(cfg, s', busy)
              && DoneOk(s', s.finished)
  {
    hide PendOk, DistinctUids;
    var s' := Appended(s, e.uid, token);
    assert s'.reqs.Keys == s.reqs.Keys;
    forall u | u in s'.running && u !in busy
      ensures RunOk(cfg, s', u)
    {
      assert RunOk(cfg, s, u);
    }
    assert s.pending != [] ==> s.pending[0] in s.pending;
  }

  lemma {:induction false} AppendLive(cfg: Config, s: Sched, e: Entry, token: int, busy: set<int>)
    requires LInv(cfg, s, s.pending, busy) && WaitOk(cfg, s, e) && e.uid in busy
    ensures var s' := Appended(s, e.uid, token); LInv(cfg, s', s'.pending, busy)
  {
    hide RInv, QueueOk, HeadOk, RunningOk, DoneOk, WaitOk, ChunkUids;
    AppendRes(cfg, s, e.uid, token);
    AppendQueue(cfg, s, e, token, busy);
  }

  /** A finished request leaves the running set. */
  lemma {:induction false} StopRunning(cfg: Config, s: Sched, u: int, busy: set<int>)
    requires LInv(cfg, s, s.pending, busy) && u in busy
    ensures var s' := s.(running := s.running - {u}); LInv(cfg, s', s'.pending, busy)
  {
    hide RInv, HeadOk, RunningOk, DoneOk, ChunkUids, PendOk;
    var s' := s.(running := s.running - {u});
    RInvSameOf(cfg, s, s');
    RunningSame(cfg, s, s', busy);
    HeadSame(s, s');
    DoneSame(s, s', s.finished);
  }

  lemma {:induction false} HeadSame(s: Sched, s': Sched)
    requires HeadOk(s, s.pending) && s'.reqs == s.reqs && s'.pending == s.pending
    ensures HeadOk(s', s'.pending)
  {
  }

  lemma {:induction false} DoneSame(s: Sched, s': Sched, us: set<int>)
    requires DoneOk(s, us) && s'.reqs == s.reqs && s'.cache.held.Keys <= s.cache.held.Keys
    ensures DoneOk(s', us)
  {
  }

  /** Whether post-processing finishes a request: it reached its length, sampled the end token, or a stop token. */
  lemma {:induction false} UnfinishedRuns(cfg: Config, s: Sched, e: Entry, token: int)
    requires WaitOk(cfg, s, e) && !IsFinished(cfg, Get(s.reqs, e.uid).AppendHost(token), token)
    ensures e.uid in s.running && RunOk(cfg, Appended(s, e.uid, token), e.uid)
  {
  }

  lemma {:induction false} FinishKeeps(cfg: Config, s: Sched, e: Entry, token: int, busy: set<int>)
    requires LInv(cfg, s, s.pending, busy) && WaitOk(cfg, s, e) && e.uid in busy
    ensures var s1 := Appended(s, e.uid, token);
            var s' := Release(cfg, s1.(running := s1.running - {e.uid}), e.uid);
            && LInv(cfg, s', s'.pending, busy - {e.uid}) && s'.cache.held.Keys == s.cache.held.Keys - {e.uid}
            && Avail(s'.cache) >= Avail(s.cache)
  {
    hide LInv, ChunkUids, Avail, HandOver;
    var s1 := Appended(s, e.uid, token);
    var s2 := s1.(running := s1.running - {e.uid});
    AppendLive(cfg, s, e, token, busy);
    StopRunning(cfg, s1, e.uid, busy);
    ReleaseLive(cfg, s2, busy, e.uid);
    ReleasedKeys(cfg, s2, busy, e.uid);
  }

  lemma {:induction false} ReleasedKeys(cfg: Config, s: Sched, busy: set<int>, u: int)
    requires LInv(cfg, s, s.pending, busy) && u in busy && Get(s.reqs, u).cachedLen <= |Get(s.reqs, u).ids|
    ensures Release(cfg, s, u).cache.held.Keys == s.cache.held.Keys - {u}
  {
    hide RInv, QueueOk, HeadOk, RunningOk, DoneOk, HandOver;
    ReleaseKeeps(cfg, s, {}, [], u);
  }

  lemma {:induction false} ContinueKeeps(cfg: Config, s: Sched, e: Entry, token: int, busy: set<int>, keep: bool)
    requires LInv(cfg, s, s.pending, busy) && WaitOk(cfg, s, e) && e.uid in busy
    requires !IsFinished(cfg, Get(s.reqs, e.uid).AppendHost(token), token)
    ensures var s1 := Appended(s, e.uid, token);
            var s' := if keep then KeepCached(cfg, s1, e.uid) else s1;
            && LInv(cfg, s', s'.pending, busy - {e.uid}) && s'.cache.held.Keys == s.cache.held.Keys
            && Avail(s'.cache) >= Avail(s.cache)
  {
    hide RInv, QueueOk, HeadOk, DoneOk, ChunkUids, Avail, HandOver, RunOk, WaitOk;
    var s1 := Appended(s, e.uid, token);
    AppendLive(cfg, s, e, token, busy);
    UnfinishedRuns(cfg, s, e, token);
    WaitSettled(cfg, s, e, token);
    if keep {
      KeepCachedKeeps(cfg, s1, {}, [], e.uid);
      var s' := KeepCached(cfg, s1, e.uid);
      QueueMoved(cfg, s1, s');
      forall u | u in s'.running && u !in busy - {e.uid}
        ensures RunOk(cfg, s', u)
      {
        RunMoved(cfg, s1, s', u);
      }
      DoneSame(s1, s', s1.finished);
    }
  }

  lemma {:induction false} WaitSettled(cfg: Config, s: Sched, e: Entry, token: int)
    requires WaitOk(cfg, s, e)
    ensures var r := Get(Appended(s, e.uid, token).reqs, e.uid); r.cachedLen <= |r.ids|
  {
  }

  lemma {:induction false} QueueMoved(cfg: Config, s: Sched, s': Sched)
    requires QueueOk(cfg, s, s.pending) && HeadOk(s, s.pending)
    requires s'.pending == s.pending && s'.running == s.running && s'.reqs == s.reqs
    ensures QueueOk(cfg, s', s'.pending) && HeadOk(s', s'.pending)
  {
    hide PendOk, DistinctUids;
  }

  lemma {:induction false} RunMoved(cfg: Config, s: Sched, s': Sched, u: int)
    requires s'.reqs == s.reqs && RunOk(cfg, s, u)
    ensures RunOk(cfg, s', u)
  {
  }

  /** The waiting requests that a step does not touch go on waiting. */
  lemma {:induction false} WaitsFrame(cfg: Config, s: Sched, s': Sched, es: seq<Entry>, u: int)
    requires WaitsOk(cfg, s, es) && u !in Waiting(es)
    requires s'.pending == s.pending && s'.finished == s.finished && s'.reqs == s.reqs[u := Get(s'.reqs, u)]
    requires s'.running == s.running || s'.running == s.running - {u}
    ensures WaitsOk(cfg, s', es)
  {
    hide ChunkUids, Waiting;
    forall i | 0 <= i < |es| && !es[i].chunked
      ensures WaitOk(cfg, s', es[i])
    {
      InUids(es, i);
      assert WaitOk(cfg, s, es[i]);
    }
  }

  lemma {:induction false} DoneGrows(s: Sched, s': Sched, us: set<int>, u: int)
    requires DoneOk(s, us) && s'.reqs.Keys == s.reqs.Keys && u in s.reqs
             && s'.cache.held.Keys == s.cache.held.Keys - {u}
    ensures DoneOk(s', us + {u})
  {
  }

  lemma {:induction false} DoneStays(s: Sched, s': Sched, us: set<int>)
    requires DoneOk(s, us) && s'.reqs.Keys == s.reqs.Keys && s'.cache.held.Keys == s.cache.held.Keys
    ensures DoneOk(s', us)
  {
  }

  /** Processing one entry of the batch. */
  lemma {:induction false} EntryKeeps(cfg: Config, p: Post, prefill: bool, es: seq<Entry>, token: int)
    requires PInv(cfg, p, es) && es != []
    ensures PInv(cfg, ProcessEntry(cfg, p, prefill, es[0], token), es[1..])
    ensures Avail(ProcessEntry(cfg, p, prefill, es[0], token).s.cache) >= Avail(p.s.cache)
  {
    hide LInv, WaitsOk, WaitOk, DoneOk, Waiting, Release, KeepCached, Avail, IsFinished;
    var e, s := es[0], p.s;
    var p' := ProcessEntry(cfg, p, prefill, e, token);
    WaitsRest(cfg, s, es);
    NotDeferred(cfg, s, es);
    if e.chunked {
      assert Waiting(es) - {e.uid} == Waiting(es);
    } else {
      WaitKeys(cfg, s, e, token);
      if IsFinished(cfg, Get(s.reqs, e.uid).AppendHost(token), token) {
        FinishKeeps(cfg, s, e, token, Waiting(es));
        ReleaseFrame(cfg, Appended(s, e.uid, token).(running := s.running - {e.uid}), e.uid);
        DoneGrows(s, p'.s, p.finished, e.uid);
      } else {
        ContinueKeeps(cfg, s, e, token, Waiting(es), prefill);
        KeepFrame(cfg, Appended(s, e.uid, token), e.uid);
        DoneStays(s, p'.s, p.finished);
      }
      WaitsFrame(cfg, s, p'.s, es[1..], e.uid);
    }
  }

  lemma {:induction false} ReleaseFrame(cfg: Config, s: Sched, u: int)
    ensures var s' := Release(cfg, s, u);
            && s'.pending == s.pending && s'.running == s.running && s'.finished == s.finished && s'.reqs == s.reqs
            && s'.acks == s.acks && s'.deferred == s.deferred && s'.inflight == s.inflight
  {
    hide HandOver;
  }

  lemma {:induction false} KeepFrame(cfg: Config, s: Sched, u: int)
    ensures var s' := KeepCached(cfg, s, u);
            && s'.pending == s.pending && s'.running == s.running && s'.finished == s.finished && s'.reqs == s.reqs
            && s'.acks == s.acks && s'.deferred == s.deferred && s'.inflight == s.inflight
  {
    hide HandOver;
  }

  lemma {:induction false} WaitKeys(cfg: Config, s: Sched, e: Entry, token: int)
    requires WaitOk(cfg, s, e)
    ensures e.uid in s.reqs && e.uid !in s.finished && Appended(s, e.uid, token).reqs.Keys == s.reqs.Keys
  {
  }

  lemma {:induction false} NotDeferred(cfg: Config, s: Sched, es: seq<Entry>)
    requires LInv(cfg, s, s.pending, Waiting(es))
    ensures s.deferred == {}
  {
    hide RInv, QueueOk, HeadOk, RunningOk, DoneOk;
  }

  lemma {:induction false} EntriesKeep(cfg: Config, p: Post, prefill: bool, es: seq<Entry>, tokens: seq<int>)
    requires PInv(cfg, p, es) && |tokens| == |es|
    ensures PInv(cfg, ProcessEntries(cfg, p, prefill, es, tokens), [])
    ensures Avail(ProcessEntries(cfg, p, prefill, es, tokens).s.cache) >= Avail(p.s.cache)
    decreases |es|
  {
    hide PInv, ProcessEntry, Avail;
    if es != [] {
      EntryKeeps(cfg, p, prefill, es, tokens[0]);
      EntriesKeep(cfg, ProcessEntry(cfg, p, prefill, es[0], tokens[0]), prefill, es[1..], tokens[1..]);
    }
  }

  /** Post-processing the whole batch leads back to the state between ticks. */
  lemma {:induction false} ProcessKeeps(cfg: Config, s: Sched, b: Batch, tokens: seq<int>)
    requires LInv(cfg, s, s.pending, Waiting(b.entries)) && WaitsOk(cfg, s, b.entries) && |tokens| == |b.entries|
    ensures NInv(cfg, ProcessLast(cfg, s, b, tokens).0)
    ensures Avail(ProcessLast(cfg, s, b, tokens).0.cache) >= Avail(s.cache)
  {
    hide LInv, WaitsOk, ProcessEntries, Avail;
    var p := ProcessEntries(cfg, Post(s, [], {}), b.prefill, b.entries, tokens);
    NoneDone(s);
    EntriesKeep(cfg, Post(s, [], {}), b.prefill, b.entries, tokens);
    NoWaiting();
    FinishedSet(cfg, p.s, p.finished);
  }

  lemma {:induction false} NoneDone(s: Sched)
    ensures DoneOk(s, {})
  {
  }

  lemma {:induction false} NoWaiting()
    ensures Waiting([]) == {}
  {
  }

  lemma {:induction false} FinishedSet(cfg: Config, s: Sched, us: set<int>)
    requires LInv(cfg, s, s.pending, {}) && DoneOk(s, us)
    ensures NInv(cfg, s.(finished := us))
  {
    hide RInv, ChunkUids, QueueOk, HeadOk, RunningOk;
    var s' := s.(finished := us);
    RInvSameOf(cfg, s, s');
    QueueMoved(cfg, s, s');
    RunningSame(cfg, s, s', {});
  }
}
