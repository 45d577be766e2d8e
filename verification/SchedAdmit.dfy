/** Messages and admission keep the scheduler's invariant: what a request queue, the running set and the rows, locks and
pages must say of each other between ticks, and while a batch is put together. */
module SchedAdmit {
  import opened CacheSpec
  import opened Requests
  import opened SchedSpec
  import opened SchedInv

  // ---- frames

  /** A step that changes no ownership: requests may change as long as each still owns the same. */
  lemma {:induction false} RInvFrame(cfg: Config, s: Sched, s': Sched, prep: set<int>, prep': set<int>, hand: seq<int>)
    requires RInv(cfg, s, prep, hand) && s'.cache == s.cache && s'.rows == s.rows && s'.table == s.table
    requires Shape(s'.pool, cfg.numRows + 1, cfg.width)
    requires forall v {:trigger ReqInv(cfg, s', prep', v)} | v in s.cache.held ::
               ReqInv(cfg, s', prep', v) && OwnOf(cfg, s', prep', v) == OwnOf(cfg, s, prep, v)
    ensures RInv(cfg, s', prep', hand)
  {
    hide CacheOk, Shape, Owned, ReqInv, OwnOf;
    forall v | v in s.cache.held
      ensures OwnOf(cfg, s', prep', v) == OwnOf(cfg, s, prep, v)
    {
      assert ReqInv(cfg, s', prep', v);
    }
    assert Owners(cfg, s', prep') == Owners(cfg, s, prep);
  }

  lemma {:induction false} RInvSame(cfg: Config, s: Sched, s': Sched, prep: set<int>, hand: seq<int>)
    requires RInv(cfg, s, prep, hand) && s'.cache == s.cache && s'.rows == s.rows && s'.table == s.table
    requires Shape(s'.pool, cfg.numRows + 1, cfg.width) && s'.reqs == s.reqs
    ensures RInv(cfg, s', prep, hand)
  {
    hide RInv, ReqInv, OwnOf, Same, Shape;
    forall v | v in s.cache.held
      ensures ReqInv(cfg, s', prep, v) && OwnOf(cfg, s', prep, v) == OwnOf(cfg, s, prep, v)
    {
      ReqFacts(cfg, s, prep, hand, v);
      SameReq(cfg, s, s', prep, v);
      Untouched(cfg, s, s', prep, prep, v);
    }
    RInvFrame(cfg, s, s', prep, prep, hand);
  }

  lemma {:induction false} SameReq(cfg: Config, s: Sched, s': Sched, prep: set<int>, v: int)
    requires ReqInv(cfg, s, prep, v) && s'.cache == s.cache && s'.table == s.table
    requires (v in s.reqs ==> v in s'.reqs) && Get(s'.reqs, v) == Get(s.reqs, v)
    ensures Same(s, s', prep, prep, v)
  {
  }

  // ---- the state between ticks

  ghost predicate PendOk(cfg: Config, p: Pending) {
    p.ids != [] && |p.ids| + p.params.maxTokens <= cfg.maxSeqLen
  }

  /** A request whose prompt is computed up to `cachedLen`; the rest follows chunk by chunk. */
  ghost predicate ChunkOk(s: Sched, p: Pending) {
    var r := Get(s.reqs, p.uid);
    && p.uid in s.reqs && r.chunked && r.cachedLen < |p.ids| && r.ids == p.ids[..r.cachedLen]
    && r.deviceLen == r.cachedLen + 1
  }

  /** A running request: all tokens but the last sampled one are computed, and it may still grow. */
  ghost predicate RunOk(cfg: Config, s: Sched, u: int) {
    var r := Get(s.reqs, u);
    u in s.reqs && !r.chunked && |r.ids| == r.deviceLen == r.cachedLen + 1 && r.deviceLen < r.maxLen <= cfg.maxSeqLen
  }

  ghost function ChunkUids(ps: seq<Pending>): set<int> {
    set p | p in ps && p.chunk :: p.uid
  }

  ghost predicate DistinctUids(ps: seq<Pending>) {
    forall i, j {:trigger ps[i], ps[j]} | 0 <= i < j < |ps| :: ps[i].uid != ps[j].uid
  }

  /** Each queued entry: well formed, not running; a new one was never admitted, and only the head may be a chunk. */
  ghost predicate QueueOk(cfg: Config, s: Sched, ps: seq<Pending>) {
    && DistinctUids(ps)
    && forall i {:trigger ps[i]} | 0 <= i < |ps| ::
         && PendOk(cfg, ps[i]) && ps[i].uid !in s.running
         && (if ps[i].chunk then i == 0 && ps[i].uid in s.reqs else ps[i].uid !in s.reqs)
  }

  ghost predicate RunningOk(cfg: Config, s: Sched, busy: set<int>) {
    forall u {:trigger RunOk(cfg, s, u)} | u in s.running && u !in busy :: RunOk(cfg, s, u)
  }

  ghost predicate HeadOk(s: Sched, queue: seq<Pending>) {
    queue != [] && queue[0].chunk ==> ChunkOk(s, queue[0])
  }

  ghost predicate DoneOk(s: Sched, us: set<int>) {
    forall u | u in us :: u in s.reqs && u !in s.cache.held
  }

  /** The invariant while the requests of `busy` are in other hands: the held rows, locks and pages are those of the
  running requests, of the queued chunk and of `busy`. */
  ghost predicate LInv(cfg: Config, s: Sched, queue: seq<Pending>, busy: set<int>) {
    && RInv(cfg, s, {}, []) && QueueOk(cfg, s, queue) && HeadOk(s, queue) && RunningOk(cfg, s, busy)
    && s.cache.held.Keys == s.running + ChunkUids(queue) + busy
    && DoneOk(s, s.finished) && s.inflight == {} && s.deferred == {}
  }

  /** The scheduler between two ticks of its normal loop. */
  ghost predicate NInv(cfg: Config, s: Sched) {
    LInv(cfg, s, s.pending, {})
  }

  // ---- messages

  /** A message the scheduler may receive: a new request has tokens and a uid of its own. */
  ghost predicate Fresh(s: Sched, m: Msg) {
    m.UserMsg? ==> m.ids != [] && m.uid !in s.reqs && forall i | 0 <= i < |s.pending| :: s.pending[i].uid != m.uid
  }

  lemma {:induction false} ChunkUidsAppend(ps: seq<Pending>, p: Pending)
    requires !p.chunk
    ensures ChunkUids(ps + [p]) == ChunkUids(ps)
  {
  }

  lemma {:induction false} UserLive(cfg: Config, s: Sched, m: Msg, busy: set<int>)
    requires LInv(cfg, s, s.pending, busy) && Fresh(s, m) && m.UserMsg?
    ensures LInv(cfg, ProcessMsg(cfg, s, m), ProcessMsg(cfg, s, m).pending, busy)
  {
    hide RInv;
    if |m.ids| < cfg.maxSeqLen {
      var p := Pending(m.uid, m.ids, Clamp(cfg, m.params, |m.ids|), false);
      var s' := s.(pending := s.pending + [p]);
      RInvSameOf(cfg, s, s');
      ChunkUidsAppend(s.pending, p);
      NewUidIdle(cfg, s, busy, m.uid);
      RunningSame(cfg, s, s', busy);
    }
  }

  lemma {:induction false} UserKeeps(cfg: Config, s: Sched, m: Msg)
    requires NInv(cfg, s) && Fresh(s, m) && m.UserMsg?
    ensures NInv(cfg, ProcessMsg(cfg, s, m))
  {
    hide LInv, ProcessMsg, Fresh;
    UserLive(cfg, s, m, {});
  }

  lemma {:induction false} RunningSame(cfg: Config, s: Sched, s': Sched, busy: set<int>)
    requires RunningOk(cfg, s, busy) && s'.reqs == s.reqs && s'.running <= s.running
    ensures RunningOk(cfg, s', busy)
  {
    forall u | u in s'.running && u !in busy
      ensures RunOk(cfg, s', u)
    {
      assert RunOk(cfg, s, u);
    }
  }

  lemma {:induction false} NewUidIdle(cfg: Config, s: Sched, busy: set<int>, u: int)
    requires LInv(cfg, s, s.pending, busy) && u !in s.reqs
    ensures u !in s.running && u !in s.cache.held
  {
    hide QueueOk, RunningOk, HeadOk, DoneOk, Owned, Shapes, ChunkUids;
    assert u in s.cache.held ==> ReqInv(cfg, s, {}, u);
  }

  lemma {:induction false} RInvSameOf(cfg: Config, s: Sched, s': Sched)
    requires RInv(cfg, s, {}, []) && s'.cache == s.cache && s'.rows == s.rows && s'.table == s.table
    requires s'.pool == s.pool && s'.reqs == s.reqs
    ensures RInv(cfg, s', {}, [])
  {
    hide Owned, ReqsInv, CacheOk;
    RInvSame(cfg, s, s', {}, []);
  }

  /** Taking an entry out of the queue shifts the later ones down by one. */
  lemma {:induction false} DropIndex(ps: seq<Pending>, u: int)
    ensures var q, k := DropPending(ps, u), FindPending(ps, u);
            && |q| == (if k < |ps| then |ps| - 1 else |ps|)
            && forall i {:trigger q[i]} | 0 <= i < |q| :: q[i] == ps[if i < k then i else i + 1]
  {
    if FindPending(ps, u) < |ps| {
      WithoutIndex(ps, FindPending(ps, u));
    }
  }

  lemma {:induction false} WithoutIndex(ps: seq<Pending>, k: nat)
    requires k < |ps|
    ensures |ps[..k] + ps[k + 1..]| == |ps| - 1
    ensures forall i {:trigger (ps[..k] + ps[k + 1..])[i]} | 0 <= i < |ps| - 1 ::
              (ps[..k] + ps[k + 1..])[i] == ps[if i < k then i else i + 1]
  {
  }

  /** What is left of the queue is all that was not taken out. */
  lemma {:induction false} DropMembers(ps: seq<Pending>, u: int)
    requires DistinctUids(ps)
    ensures forall p :: p in DropPending(ps, u) <==> p in ps && p.uid != u
  {
    var q, k := DropPending(ps, u), FindPending(ps, u);
    DropIndex(ps, u);
    forall p | p in ps && p.uid != u
      ensures p in q
    {
      var j :| 0 <= j < |ps| && ps[j] == p;
      if k < |ps| {
        assert q[if j < k then j else j - 1] == p;
      }
    }
    forall p | p in q
      ensures p in ps && p.uid != u
    {
      var i :| 0 <= i < |q| && q[i] == p;
      assert ps[if i < k then i else i + 1] == p;
    }
  }

  lemma {:induction false} DropChunks(ps: seq<Pending>, u: int)
    requires DistinctUids(ps)
    ensures ChunkUids(DropPending(ps, u)) == ChunkUids(ps) - {u}
    ensures u in ChunkUids(ps) <==> FindPending(ps, u) < |ps| && ps[FindPending(ps, u)].chunk
  {
    DropMembers(ps, u);
    DropFound(ps, u);
    hide DropPending, FindPending, DistinctUids;
  }

  lemma {:induction false} DropFound(ps: seq<Pending>, u: int)
    requires DistinctUids(ps)
    ensures u in ChunkUids(ps) <==> FindPending(ps, u) < |ps| && ps[FindPending(ps, u)].chunk
  {
    hide FindPending;
    var k := FindPending(ps, u);
    if u in ChunkUids(ps) {
      var p :| p in ps && p.chunk && p.uid == u;
      var j :| 0 <= j < |ps| && ps[j] == p;
      assert j >= k;
      assert k == j;
    }
    assert k < |ps| ==> ps[k] in ps;
  }

  /** The queue stays in order when an entry is taken out. */
  lemma {:induction false} DropQueue(cfg: Config, s: Sched, s': Sched, u: int)
    requires QueueOk(cfg, s, s.pending) && s'.pending == DropPending(s.pending, u)
    requires s'.reqs == s.reqs && s'.running <= s.running
    ensures QueueOk(cfg, s', s'.pending)
    ensures s'.pending != [] && s'.pending[0].chunk ==> s.pending != [] && s'.pending[0] == s.pending[0]
  {
    DropIndex(s.pending, u);
    hide DropPending, PendOk;
    var q := s'.pending;
    forall i | 0 <= i < |q|
      ensures PendOk(cfg, q[i]) && q[i].uid !in s'.running
      ensures if q[i].chunk then i == 0 && q[i].uid in s'.reqs else q[i].uid !in s'.reqs
    {
      var j := if i < FindPending(s.pending, u) then i else i + 1;
      assert q[i] == s.pending[j];
    }
  }

  /** Releasing a request that is in nobody else's hands. */
  lemma {:induction false} ReleaseLive(cfg: Config, s: Sched, busy: set<int>, u: int)
    requires LInv(cfg, s, s.pending, busy) && u in busy && u !in s.running && u !in ChunkUids(s.pending)
    requires Get(s.reqs, u).cachedLen <= |Get(s.reqs, u).ids|
    ensures LInv(cfg, Release(cfg, s, u), s.pending, busy - {u}) && Release(cfg, s, u).pending == s.pending
    ensures Avail(Release(cfg, s, u).cache) >= Avail(s.cache)
  {
    hide RInv, HandOver, QueueOk, RunningOk, HeadOk, ChunkUids, Avail;
    ReleaseKeeps(cfg, s, {}, [], u);
    var s' := Release(cfg, s, u);
    LiveSame(cfg, s, s', busy, busy - {u});
  }

  /** A step that leaves queue, running set and requests alone. */
  lemma {:induction false} LiveSame(cfg: Config, s: Sched, s': Sched, busy: set<int>, busy': set<int>)
    requires QueueOk(cfg, s, s.pending) && RunningOk(cfg, s, busy) && HeadOk(s, s.pending)
    requires s'.pending == s.pending && s'.running == s.running && s'.reqs == s.reqs
    requires forall u | u in s.running && u in busy :: u in busy'
    ensures QueueOk(cfg, s', s'.pending) && RunningOk(cfg, s', busy') && HeadOk(s', s'.pending)
  {
    hide PendOk, DistinctUids;
    forall u | u in s'.running && u !in busy'
      ensures RunOk(cfg, s', u)
    {
      assert RunOk(cfg, s, u);
    }
  }

  /** An abort outside an overlap window: the request leaves queue and running set and gives everything back. */
  lemma {:induction false} AbortLive(cfg: Config, s: Sched, u: int, busy: set<int>)
    requires LInv(cfg, s, s.pending, busy) && u !in busy
    ensures var s' := ProcessMsg(cfg, s, AbortMsg(u));
            LInv(cfg, s', s'.pending, busy) && Avail(s'.cache) >= Avail(s.cache)
  {
    hide RInv, QueueOk, RunningOk, HeadOk, ChunkUids, DropPending, FindPending, Avail, Release;
    var s1 := s.(pending := DropPending(s.pending, u));
    AbortDrop(cfg, s, u, busy);
    assert busy + {u} - {u} == busy;
    if u in ChunkUids(s.pending) {
      ReleaseLive(cfg, s1, busy + {u}, u);
      AckLive(cfg, Release(cfg, s1, u), u, busy);
    } else if u in s.running {
      var s2 := s1.(running := s.running - {u});
      ReleaseLive(cfg, s2, busy + {u}, u);
      AckLive(cfg, Release(cfg, s2, u), u, busy);
    } else {
      AckLive(cfg, s1, u, busy);
    }
  }

  lemma {:induction false} AbortKeeps(cfg: Config, s: Sched, u: int)
    requires NInv(cfg, s)
    ensures NInv(cfg, ProcessMsg(cfg, s, AbortMsg(u)))
    ensures Avail(ProcessMsg(cfg, s, AbortMsg(u)).cache) >= Avail(s.cache)
  {
    hide LInv, ProcessMsg, Avail;
    AbortLive(cfg, s, u, {});
  }

  lemma {:induction false} AckLive(cfg: Config, s: Sched, u: int, busy: set<int>)
    requires LInv(cfg, s, s.pending, busy)
    ensures LInv(cfg, s.(acks := s.acks + [u]), s.pending, busy)
  {
    hide RInv, QueueOk, RunningOk, HeadOk, ChunkUids;
    var s' := s.(acks := s.acks + [u]);
    RInvSameOf(cfg, s, s');
    LiveSame(cfg, s, s', busy, busy);
  }

  /** The first half of an abort: the entry is out of the queue, and its request, if any, is in nobody's hands. */
  lemma {:induction false} AbortDrop(cfg: Config, s: Sched, u: int, busy: set<int>)
    requires LInv(cfg, s, s.pending, busy) && u !in busy
    ensures u in ChunkUids(s.pending) <==>
              FindPending(s.pending, u) < |s.pending| && s.pending[FindPending(s.pending, u)].chunk
    ensures var s1 := s.(pending := DropPending(s.pending, u));
            && u !in ChunkUids(s1.pending)
            && (u in ChunkUids(s.pending) || u in s.running ==> Get(s.reqs, u).cachedLen <= |Get(s.reqs, u).ids|)
            && (u in ChunkUids(s.pending) ==> u !in s.running && LInv(cfg, s1, s1.pending, busy + {u}))
            && (u !in ChunkUids(s.pending) && u in s.running ==>
                  LInv(cfg, s1.(running := s.running - {u}), s1.pending, busy + {u}))
            && (u !in ChunkUids(s.pending) && u !in s.running ==> LInv(cfg, s1, s1.pending, busy))
  {
    hide RInv, DropPending, FindPending, PendOk;
    var s1 := s.(pending := DropPending(s.pending, u));
    var s2 := s1.(running := s.running - {u});
    DropQueue(cfg, s, s1, u);
    DropQueue(cfg, s, s2, u);
    DropChunks(s.pending, u);
    RInvSameOf(cfg, s, s1);
    RInvSameOf(cfg, s, s2);
    RunningSame(cfg, s, s1, busy);
    RunningSame(cfg, s, s2, busy);
    assert u in s.running ==> RunOk(cfg, s, u);
    ChunkHead(cfg, s, s.pending, u);
  }

  /** Only the head of the queue can be a chunk. */
  lemma {:induction false} ChunkHead(cfg: Config, s: Sched, queue: seq<Pending>, u: int)
    requires QueueOk(cfg, s, queue)
    ensures u in ChunkUids(queue) <==> queue != [] && queue[0].chunk && queue[0].uid == u
    ensures u in ChunkUids(queue) ==> u !in s.running && u in s.reqs
  {
    hide PendOk, DistinctUids;
    if u in ChunkUids(queue) {
      var p :| p in queue && p.chunk && p.uid == u;
      var i :| 0 <= i < |queue| && queue[i] == p;
      assert i == 0;
    }
    assert queue != [] ==> queue[0] in queue;
  }

  /** Every message keeps the invariant. */
  lemma {:induction false} MsgKeeps(cfg: Config, s: Sched, m: Msg)
    requires NInv(cfg, s) && Fresh(s, m)
    ensures NInv(cfg, ProcessMsg(cfg, s, m))
  {
    hide NInv, ProcessMsg;
    if m.UserMsg? {
      UserKeeps(cfg, s, m);
    } else {
      AbortKeeps(cfg, s, m.uid);
    }
  }
}
