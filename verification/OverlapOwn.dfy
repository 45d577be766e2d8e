/** Page and row conservation over the overlap loop. Between ticks the tokens of the batch in flight are sampled but not
appended: its requests run on without them, and those finished in the last tick are already gone. */
module OverlapOwn {
  import opened Sums
  import opened CacheSpec
  import opened Requests
  import opened SchedSpec
  import opened SchedInv
  import opened SchedAdmit
  import opened SchedRound
  import opened SchedBatch
  import opened SchedForward
  import opened SchedPost
  import opened SchedRun
  import opened Overlap
  import opened OverlapRun
  import opened OverlapLag

  // ---- the state between ticks

  /** The state without its overlap window. */
  ghost function Outside(s: Sched): Sched {
    s.(inflight := {}, deferred := {})
  }

  /** An entry of the batch in flight: a chunk is queued again, any other request waits for its token or was finished in
  the last tick, and the latter happens in no prefill batch. */
  ghost predicate Flying(cfg: Config, s: Sched, e: Entry, prefill: bool) {
    if e.chunked then e.uid in ChunkUids(s.pending)
    else if e.uid in s.cache.held then WaitOk(cfg, s, e)
    else Over(cfg, s, e.uid) && !prefill
  }

  /** The request object of `u` is its own and has a row. */
  ghost predicate Placed(cfg: Config, s: Sched, u: int) {
    Get(s.reqs, u).uid == u && 0 <= Get(s.reqs, u).row < cfg.numRows
  }

  /** A request finished in the last tick; its row may be somebody else's by now. */
  ghost predicate Over(cfg: Config, s: Sched, u: int) {
    u in s.finished && u in s.reqs && Placed(cfg, s, u)
  }

  ghost predicate AllFlying(cfg: Config, s: Sched, es: seq<Entry>, prefill: bool) {
    forall i {:trigger es[i]} | 0 <= i < |es| && es[i].uid !in s.deferred :: Flying(cfg, s, es[i], prefill)
  }

  /** A request that waits for its release: it holds its resources and is neither queued nor running. */
  ghost predicate Parked(s: Sched, u: int) {
    && u in s.cache.held && u !in s.running && u !in ChunkUids(s.pending)
    && Get(s.reqs, u).cachedLen <= |Get(s.reqs, u).ids|
  }

  ghost predicate AllParked(cfg: Config, s: Sched) {
    forall u {:trigger u in s.deferred} | u in s.deferred :: if u in s.cache.held then Parked(s, u) else Over(cfg, s, u)
  }

  /** The requests in other hands while messages arrive: those waiting for a token or for their release. */
  ghost function Busy(s: Sched, es: seq<Entry>): set<int> {
    (Waiting(es) + s.deferred) * s.cache.held.Keys
  }

  /** The scheduler while it handles the messages of a tick, with the batch `es` in flight. */
  ghost predicate Hearing(cfg: Config, s: Sched, es: seq<Entry>, prefill: bool) {
    && LInv(cfg, Outside(s), s.pending, Busy(s, es)) && AllFlying(cfg, s, es, prefill) && AllParked(cfg, s)
    && s.inflight == Uids(es) && s.deferred <= Uids(es)
  }

  // ---- messages

  /** A message took `u`, if it was there, out of queue and running set. */
  ghost predicate Without(s: Sched, s': Sched, u: int) {
    && s'.reqs == s.reqs && s'.finished == s.finished && s'.inflight == s.inflight
    && s'.running == s.running - {u} && ChunkUids(s'.pending) == ChunkUids(s.pending) - {u}
  }

  lemma {:induction false} WithoutFlying(cfg: Config, s: Sched, s': Sched, es: seq<Entry>, prefill: bool, u: int)
    requires AllFlying(cfg, s, es, prefill) && Without(s, s', u) && s.deferred <= s'.deferred
    requires u in s'.deferred || u !in Uids(es)
    requires forall v | v != u :: v in s'.cache.held <==> v in s.cache.held
    ensures AllFlying(cfg, s', es, prefill)
  {
    hide ChunkUids, Uids;
    forall i | 0 <= i < |es| && es[i].uid !in s'.deferred
      ensures Flying(cfg, s', es[i], prefill)
    {
      InUids(es, i);
      assert es[i].uid != u && Flying(cfg, s, es[i], prefill);
    }
  }

  lemma {:induction false} WithoutParked(cfg: Config, s: Sched, s': Sched, u: int)
    requires AllParked(cfg, s) && Without(s, s', u) && s.deferred <= s'.deferred <= s.deferred + {u}
    requires forall v | v != u :: v in s'.cache.held <==> v in s.cache.held
    requires u in s'.deferred ==> if u in s'.cache.held then Parked(s', u) else Over(cfg, s', u)
    ensures AllParked(cfg, s')
  {
    hide ChunkUids;
    forall v | v in s'.deferred
      ensures if v in s'.cache.held then Parked(s', v) else Over(cfg, s', v)
    {
      assert v != u ==> v in s.deferred;
    }
  }

  lemma {:induction false} UserOutside(cfg: Config, s: Sched, m: Msg)
    requires m.UserMsg?
    ensures var s' := ProcessMsg(cfg, s, m);
            && Outside(s') == ProcessMsg(cfg, Outside(s), m) && (Fresh(s, m) ==> Fresh(Outside(s), m))
            && ChunkUids(s'.pending) == ChunkUids(s.pending) && s' == s.(pending := s'.pending)
  {
    hide Clamp, ChunkUids;
    if |m.ids| < cfg.maxSeqLen {
      ChunkUidsAppend(s.pending, Pending(m.uid, m.ids, Clamp(cfg, m.params, |m.ids|), false));
    }
  }

  lemma {:induction false} UserHears(cfg: Config, s: Sched, m: Msg, es: seq<Entry>, prefill: bool)
    requires Hearing(cfg, s, es, prefill) && m.UserMsg? && Fresh(s, m)
    ensures Hearing(cfg, ProcessMsg(cfg, s, m), es, prefill)
  {
    hide ProcessMsg, LInv, AllFlying, AllParked, Uids, Waiting, Fresh, ChunkUids;
    var s', busy := ProcessMsg(cfg, s, m), Busy(s, es);
    UserOutside(cfg, s, m);
    UserLive(cfg, Outside(s), m, busy);
    FlyingSame(cfg, s, s', es, prefill);
  }

  lemma {:induction false} FlyingSame(cfg: Config, s: Sched, s': Sched, es: seq<Entry>, prefill: bool)
    requires AllFlying(cfg, s, es, prefill) && AllParked(cfg, s)
    requires s' == s.(pending := s'.pending) && ChunkUids(s'.pending) == ChunkUids(s.pending)
    ensures AllFlying(cfg, s', es, prefill) && AllParked(cfg, s')
  {
    hide ChunkUids;
    forall i | 0 <= i < |es| && es[i].uid !in s'.deferred
      ensures Flying(cfg, s', es[i], prefill)
    {
      assert Flying(cfg, s, es[i], prefill);
    }
    forall u | u in s'.deferred
      ensures if u in s'.cache.held then Parked(s', u) else Over(cfg, s', u)
    {
      assert u in s.deferred;
    }
  }

  lemma {:induction false} AbortOutside(cfg: Config, s: Sched, u: int)
    requires u !in s.inflight
    ensures Outside(ProcessMsg(cfg, s, AbortMsg(u))) == ProcessMsg(cfg, Outside(s), AbortMsg(u))
    ensures ProcessMsg(cfg, s, AbortMsg(u)).deferred == s.deferred
  {
    hide HandOver, DropPending;
  }

  lemma {:induction false} AbortWithout(cfg: Config, s: Sched, u: int)
    requires Ctrl(s)
    ensures Without(s, ProcessMsg(cfg, s, AbortMsg(u)), u)
  {
    hide ProcessMsg, ChunkUids;
    AbortIs(cfg, s, u);
    DropChunks(s.pending, u);
  }

  lemma {:induction false} HeldOf(cfg: Config, s: Sched, busy: set<int>)
    requires LInv(cfg, s, s.pending, busy)
    ensures s.cache.held.Keys == s.running + ChunkUids(s.pending) + busy
  {
    hide RInv, QueueOk, HeadOk, RunningOk, DoneOk, ChunkUids;
  }

  lemma {:induction false} BusySame(s: Sched, s': Sched, es: seq<Entry>, u: int)
    requires s'.deferred == s.deferred && s'.cache.held.Keys == s.cache.held.Keys - {u} && u !in Busy(s, es)
    ensures Busy(s', es) == Busy(s, es)
  {
    hide Waiting;
  }

  /** An abort outside the batch in flight. */
  lemma {:induction false} PlainHears(cfg: Config, s: Sched, u: int, es: seq<Entry>, prefill: bool)
    requires Hearing(cfg, s, es, prefill) && Ctrl(s) && u !in s.inflight
    ensures Hearing(cfg, ProcessMsg(cfg, s, AbortMsg(u)), es, prefill)
  {
    hide ProcessMsg, LInv, AllFlying, AllParked, Uids, Waiting, ChunkUids, Avail;
    var s', busy := ProcessMsg(cfg, s, AbortMsg(u)), Busy(s, es);
    WaitingUids(es);
    AbortOutside(cfg, s, u);
    AbortWithout(cfg, s, u);
    AbortLive(cfg, Outside(s), u, busy);
    HeldOf(cfg, Outside(s), busy);
    HeldOf(cfg, Outside(s'), busy);
    assert s'.cache.held.Keys == s.cache.held.Keys - {u};
    BusySame(s, s', es, u);
    WithoutFlying(cfg, s, s', es, prefill, u);
    WithoutParked(cfg, s, s', u);
  }

  /** What an abort of a request in flight does. */
  lemma {:induction false} DeferIs(cfg: Config, s: Sched, u: int)
    requires u in s.inflight
    ensures var s' := ProcessMsg(cfg, s, AbortMsg(u));
            && s' == s.(pending := DropPending(s.pending, u), running := s.running - {u}, deferred := s.deferred + {u})
  {
    hide HandOver, DropPending;
  }

  /** A request in flight that was not finished in the last tick holds its resources. */
  lemma {:induction false} FlyingHeld(cfg: Config, s: Sched, es: seq<Entry>, prefill: bool, u: int)
    requires Hearing(cfg, s, es, prefill) && u in s.inflight
    ensures if u in s.cache.held then Get(s.reqs, u).cachedLen <= |Get(s.reqs, u).ids| else Over(cfg, s, u)
  {
    hide RInv, QueueOk, RunningOk, DoneOk, Uids, Waiting, ChunkUids;
    if u !in s.deferred {
      var i := EntryOf(es, u);
      assert Flying(cfg, s, es[i], prefill);
      ChunkHead(cfg, Outside(s), s.pending, u);
    }
  }

  /** Taking a request in flight out of queue and running set leaves it to its release. */
  lemma {:induction false} DropLive(cfg: Config, s: Sched, u: int, busy: set<int>)
    requires LInv(cfg, s, s.pending, busy) && u in s.cache.held
    ensures var s' := s.(pending := DropPending(s.pending, u), running := s.running - {u});
            LInv(cfg, s', s'.pending, busy + {u}) && u !in ChunkUids(s'.pending)
  {
    hide RInv, DropPending, FindPending, PendOk, RunOk;
    var s' := s.(pending := DropPending(s.pending, u), running := s.running - {u});
    DropQueue(cfg, s, s', u);
    DropChunks(s.pending, u);
    RInvSameOf(cfg, s, s');
    RunningSame(cfg, s, s', busy);
  }

  /** An abort of a request in flight is put off. */
  lemma {:induction false} DeferHears(cfg: Config, s: Sched, u: int, es: seq<Entry>, prefill: bool)
    requires Hearing(cfg, s, es, prefill) && Ctrl(s) && u in s.inflight
    ensures Hearing(cfg, ProcessMsg(cfg, s, AbortMsg(u)), es, prefill)
  {
    hide ProcessMsg, LInv, AllFlying, AllParked, Uids, Waiting, ChunkUids, DropPending;
    var s' := ProcessMsg(cfg, s, AbortMsg(u));
    FlyingHeld(cfg, s, es, prefill, u);
    DeferIs(cfg, s, u);
    AbortWithout(cfg, s, u);
    DropAway(cfg, s, u, Busy(s, es));
    assert Busy(s', es) == Busy(s, es) + ({u} * s.cache.held.Keys);
    WithoutFlying(cfg, s, s', es, prefill, u);
    WithoutParked(cfg, s, s', u);
  }

  /** Out of queue and running set, whether it holds anything or not. */
  lemma {:induction false} DropAway(cfg: Config, s: Sched, u: int, busy: set<int>)
    requires LInv(cfg, Outside(s), s.pending, busy)
    ensures var s' := s.(pending := DropPending(s.pending, u), running := s.running - {u});
            LInv(cfg, Outside(s'), s'.pending, busy + ({u} * s.cache.held.Keys)) && u !in ChunkUids(s'.pending)
  {
    hide LInv, DropPending, ChunkUids;
    HeldOf(cfg, Outside(s), busy);
    if u in s.cache.held {
      DropLive(cfg, Outside(s), u, busy);
      assert {u} * s.cache.held.Keys == {u};
    } else {
      AbortDrop(cfg, Outside(s), u, busy);
      assert s.running - {u} == s.running && busy + ({u} * s.cache.held.Keys) == busy;
    }
  }

  lemma {:induction false} MsgHears(cfg: Config, s: Sched, m: Msg, es: seq<Entry>, prefill: bool)
    requires Hearing(cfg, s, es, prefill) && Ctrl(s) && Fresh(s, m)
    ensures Hearing(cfg, ProcessMsg(cfg, s, m), es, prefill)
  {
    hide Hearing, Ctrl, Fresh, ProcessMsg;
    if m.UserMsg? {
      UserHears(cfg, s, m, es, prefill);
    } else if m.uid in s.inflight {
      DeferHears(cfg, s, m.uid, es, prefill);
    } else {
      PlainHears(cfg, s, m.uid, es, prefill);
    }
  }

  lemma {:induction false} MsgsHear(cfg: Config, s: Sched, msgs: seq<Msg>, es: seq<Entry>, prefill: bool)
    requires Hearing(cfg, s, es, prefill) && Ctrl(s) && AllFresh(cfg, s, msgs)
    ensures Hearing(cfg, ProcessMsgs(cfg, s, msgs), es, prefill)
    decreases |msgs|
  {
    hide Hearing, Ctrl, Fresh, ProcessMsg;
    if msgs != [] {
      OneCtrl(cfg, s, msgs[0]);
      MsgHears(cfg, s, msgs[0], es, prefill);
      MsgsHear(cfg, ProcessMsg(cfg, s, msgs[0]), msgs[1..], es, prefill);
    }
  }

  // ---- catching up

  /** The requests that hold resources and are neither queued nor running. */
  ghost function Idle(s: Sched): set<int> {
    s.cache.held.Keys - s.running - ChunkUids(s.pending)
  }

  lemma {:induction false} LagKeys(es: seq<Entry>, tokens: seq<int>, dropped: set<int>)
    requires |tokens| == |es|
    ensures LagOf(es, tokens, dropped).Keys == Waiting(es) - dropped
    decreases |es|
  {
    if es == [] {
      NoWaiting();
    } else {
      LagKeys(es[1..], tokens[1..], dropped);
      WaitingCons(es[0], es[1..]);
      assert [es[0]] + es[1..] == es;
    }
  }

  /** Appending the token of one more request. */
  lemma {:induction false} CaughtMore(s: Sched, lag: map<int, int>, u: int, token: int)
    requires u !in lag && u in s.reqs
    ensures Caught(s, lag[u := token]) == Appended(Caught(s, lag), u, token)
  {
    assert Later(s.reqs, lag[u := token]) == Later(s.reqs, lag)[u := Get(Later(s.reqs, lag), u).AppendHost(token)];
  }

  lemma {:induction false} CaughtNone(s: Sched)
    ensures Caught(s, map[]) == Outside(s)
  {
    assert Later(s.reqs, map[]) == s.reqs;
  }

  /** A request that holds nothing may change as it likes. */
  lemma {:induction false} AppendIdle(cfg: Config, s: Sched, u: int, token: int, busy: set<int>)
    requires LInv(cfg, s, s.pending, busy) && u !in s.cache.held && u in s.reqs
    ensures LInv(cfg, Appended(s, u, token), s.pending, busy)
  {
    hide RInv, PendOk, DistinctUids, RunOk, ChunkOk;
    var s' := Appended(s, u, token);
    assert s'.reqs.Keys == s.reqs.Keys;
    IdleRes(cfg, s, s', u);
    forall v | v in s'.running && v !in busy
      ensures RunOk(cfg, s', v)
    {
      assert RunOk(cfg, s, v) && v in s.cache.held;
      RunOther(cfg, s, s', v);
    }
    if s.pending != [] && s.pending[0].chunk {
      assert s.pending[0].uid in ChunkUids(s.pending);
      ChunkOther(s, s', s.pending[0]);
    }
  }

  lemma {:induction false} RunOther(cfg: Config, s: Sched, s': Sched, v: int)
    requires RunOk(cfg, s, v) && s'.reqs.Keys == s.reqs.Keys && Get(s'.reqs, v) == Get(s.reqs, v)
    ensures RunOk(cfg, s', v)
  {
  }

  lemma {:induction false} ChunkOther(s: Sched, s': Sched, p: Pending)
    requires ChunkOk(s, p) && s'.reqs.Keys == s.reqs.Keys && Get(s'.reqs, p.uid) == Get(s.reqs, p.uid)
    ensures ChunkOk(s', p)
  {
  }

  lemma {:induction false} IdleRes(cfg: Config, s: Sched, s': Sched, u: int)
    requires RInv(cfg, s, {}, []) && u !in s.cache.held
    requires s' == s.(reqs := s.reqs[u := Get(s'.reqs, u)])
    ensures RInv(cfg, s', {}, [])
  {
    hide RInv, ReqInv, OwnOf, Same, Shape;
    PoolShape(cfg, s);
    forall v | v in s.cache.held
      ensures ReqInv(cfg, s', {}, v) && OwnOf(cfg, s', {}, v) == OwnOf(cfg, s, {}, v)
    {
      ReqFacts(cfg, s, {}, [], v);
      OtherReq(cfg, s, s', u, v);
      Untouched(cfg, s, s', {}, {}, v);
    }
    RInvFrame(cfg, s, s', {}, {}, []);
  }

  /** What catching up needs of the entries in flight. */
  ghost predicate Lagging(cfg: Config, s: Sched, es: seq<Entry>, busy: set<int>) {
    forall i {:trigger es[i]} | 0 <= i < |es| && !es[i].chunked && es[i].uid !in s.deferred ::
      if es[i].uid in s.cache.held then es[i].uid in busy && WaitOk(cfg, s, es[i]) else es[i].uid in s.reqs
  }

  lemma {:induction false} CatchUp(cfg: Config, s: Sched, es: seq<Entry>, tokens: seq<int>, busy: set<int>)
    requires LInv(cfg, Outside(s), s.pending, busy) && Lagging(cfg, s, es, busy)
    requires DistinctEntries(es) && |tokens| == |es|
    ensures LInv(cfg, Caught(s, LagOf(es, tokens, s.deferred)), s.pending, busy)
    decreases |es|
  {
    hide LInv, WaitOk, Later, Uids, DistinctEntries, Waiting, LagOf;
    if es == [] {
      CaughtNone(s);
      LagEmpty(s.deferred);
    } else {
      var u, rest := es[0].uid, LagOf(es[1..], tokens[1..], s.deferred);
      DistinctRest(es);
      assert forall i | 0 <= i < |es[1..]| :: es[1..][i] == es[i + 1];
      CatchUp(cfg, s, es[1..], tokens[1..], busy);
      LagSplit(es, tokens, s.deferred);
      if !es[0].chunked && u !in s.deferred {
        LagKeys(es[1..], tokens[1..], s.deferred);
        WaitingUids(es[1..]);
        CaughtKnown(cfg, s, es, busy);
        CaughtMore(s, rest, u, tokens[0]);
        if u in s.cache.held {
          WaitCaught(cfg, s, rest, es[0]);
          AppendLive(cfg, Caught(s, rest), es[0], tokens[0], busy);
        } else {
          LaterGet(s.reqs, rest, u);
          AppendIdle(cfg, Caught(s, rest), u, tokens[0], busy);
        }
      }
    }
  }

  lemma {:induction false} LagEmpty(dropped: set<int>)
    ensures LagOf([], [], dropped) == map[]
  {
  }

  lemma {:induction false} LagSplit(es: seq<Entry>, tokens: seq<int>, dropped: set<int>)
    requires es != [] && |tokens| == |es|
    ensures LagOf(es, tokens, dropped)
         == (var rest := LagOf(es[1..], tokens[1..], dropped);
             if es[0].chunked || es[0].uid in dropped then rest else rest[es[0].uid := tokens[0]])
  {
  }

  lemma {:induction false} CaughtKnown(cfg: Config, s: Sched, es: seq<Entry>, busy: set<int>)
    requires Lagging(cfg, s, es, busy) && es != [] && !es[0].chunked && es[0].uid !in s.deferred
    ensures es[0].uid in s.reqs
  {
  }

  lemma {:induction false} WaitCaught(cfg: Config, s: Sched, lag: map<int, int>, e: Entry)
    requires WaitOk(cfg, s, e) && e.uid !in lag
    ensures WaitOk(cfg, Caught(s, lag), e)
  {
    hide ChunkUids;
  }

  /** Once the lagging requests caught up, only those that are neither queued nor running are in other hands. */
  lemma {:induction false} OnlyIdle(cfg: Config, t: Sched, busy: set<int>)
    requires LInv(cfg, t, t.pending, busy) && forall u | u in t.running && u in busy :: RunOk(cfg, t, u)
    ensures LInv(cfg, t, t.pending, Idle(t)) && Aside(t, Idle(t))
  {
    hide RInv, QueueOk, HeadOk, DoneOk, RunOk, ChunkUids;
    forall u | u in t.running
      ensures RunOk(cfg, t, u)
    {
    }
  }

  lemma {:induction false} WaitRuns(cfg: Config, s: Sched, lag: map<int, int>, e: Entry)
    requires WaitOk(cfg, s, e) && e.uid in lag && e.uid in s.running
    ensures RunOk(cfg, Caught(s, lag), e.uid)
  {
  }

  /** The state a batch can be scheduled in: caught up, only the requests of `others` are in other hands. */
  ghost predicate Schedulable(cfg: Config, s: Sched, lag: map<int, int>, others: set<int>) {
    var t := Caught(s, lag);
    && LInv(cfg, t, t.pending, others) && Aside(t, others) && Unqueued(t.pending, lag) && lag.Keys <= s.reqs.Keys
  }

  /** The scheduler after the messages, caught up. */
  lemma {:induction false} HeardCaught(cfg: Config, s: Sched, es: seq<Entry>, tokens: seq<int>, prefill: bool)
    requires Hearing(cfg, s, es, prefill) && DistinctEntries(es) && |tokens| == |es|
    ensures var lag := LagOf(es, tokens, s.deferred);
            var t := Caught(s, lag);
            Schedulable(cfg, s, lag, Idle(t)) && lag.Keys == Waiting(es) - s.deferred
  {
    hide LInv, WaitOk, Later, Uids, DistinctEntries, Waiting, LagOf, RunOk, ChunkUids, Aside, Unqueued;
    var busy, lag := Busy(s, es), LagOf(es, tokens, s.deferred);
    var t := Caught(s, lag);
    LagKeys(es, tokens, s.deferred);
    FlyingLags(cfg, s, es, prefill);
    CatchUp(cfg, s, es, tokens, busy);
    forall u | u in t.running && u in busy
      ensures RunOk(cfg, t, u)
    {
      HeldOf(cfg, Outside(s), busy);
      NotParked(cfg, s, u);
      var i := WaitingOf(es, u);
      assert Flying(cfg, s, es[i], prefill);
      WaitRuns(cfg, s, lag, es[i]);
    }
    OnlyIdle(cfg, t, busy);
    forall u | u in lag
      ensures u in s.reqs && u in t.reqs && u !in ChunkUids(s.pending)
    {
      LaterGet(s.reqs, lag, u);
      var i := WaitingOf(es, u);
      assert Flying(cfg, s, es[i], prefill);
      HeldOf(cfg, Outside(s), busy);
      WaitKnown(cfg, s, es[i]);
    }
    LagUnqueued(cfg, t, lag);
  }

  lemma {:induction false} NotParked(cfg: Config, s: Sched, u: int)
    requires AllParked(cfg, s) && u in s.running && u in s.cache.held
    ensures u !in s.deferred
  {
  }

  lemma {:induction false} WaitKnown(cfg: Config, s: Sched, e: Entry)
    ensures WaitOk(cfg, s, e) ==> e.uid in s.reqs && e.uid !in ChunkUids(s.pending)
  {
    hide ChunkUids;
  }

  lemma {:induction false} LagUnqueued(cfg: Config, t: Sched, lag: map<int, int>)
    requires LInv(cfg, t, t.pending, Idle(t))
    requires forall u | u in lag :: u in t.reqs && u !in ChunkUids(t.pending)
    ensures Unqueued(t.pending, lag)
  {
    hide RInv, PendOk, DistinctUids, HeadOk, RunningOk, DoneOk;
    forall i | 0 <= i < |t.pending|
      ensures t.pending[i].uid !in lag
    {
      assert t.pending[i] in t.pending;
    }
  }

  lemma {:induction false} FlyingLags(cfg: Config, s: Sched, es: seq<Entry>, prefill: bool)
    requires AllFlying(cfg, s, es, prefill)
    ensures Lagging(cfg, s, es, Busy(s, es))
  {
    hide WaitOk, ChunkUids, Waiting;
    forall i | 0 <= i < |es| && !es[i].chunked && es[i].uid !in s.deferred
      ensures if es[i].uid in s.cache.held then es[i].uid in Busy(s, es)
              && WaitOk(cfg, s, es[i]) else es[i].uid in s.reqs
    {
      InUids(es, i);
      assert Flying(cfg, s, es[i], prefill);
    }
  }

  // ---- launching

  ghost predicate CanLaunch(cfg: Config, s: Sched, i: Input) {
    var (s1, b) := Schedule(cfg, s);
    b.Some? ==> CanPrepare(cfg, s1, b.value, i.ev)
  }

  /** What scheduling does to the requests that are not queued. */
  lemma {:induction false} ScheduleReqs(cfg: Config, s: Sched)
    requires Ctrl(s)
    ensures var (s1, b) := Schedule(cfg, s);
            && (b.Some? && b.value.prefill ==> Uids(b.value.entries) <= PendingUids(s.pending))
            && (b.Some? && !b.value.prefill ==> s1 == s && Uids(b.value.entries) == s.running)
            && forall u {:trigger Get(s1.reqs, u)} | u !in PendingUids(s.pending) :: Get(s1.reqs, u) == Get(s.reqs, u)
  {
    hide AddAll, InflightTokens, ChunkList, Uids, Sorted, DecodeEntries, UidsOf;
    var a := Adder(cfg.budget, InflightTokens(cfg, s));
    var r := AddAll(cfg, s, a, s.pending);
    RoundIs(cfg, s, a, s.pending);
    EntriesAre(r.added);
    SortedUids(s.running);
    forall u | u in UidsOf(r.added)
      ensures u in PendingUids(s.pending)
    {
      var i := UidAt(r.added, u);
      AddedUids(cfg, s, a, s.pending, i);
      assert s.pending[i] in s.pending;
    }
  }

  /** What a launch leaves, with the requests of `others` standing by. */
  ghost predicate Launching(cfg: Config, t: Sched, t2: Sched, f: Option<Flight>, others: set<int>) {
    var es := LastEntries(f);
    && LInv(cfg, t2, t2.pending, Waiting(es) + others) && WaitsOk(cfg, t2, es)
    && t2.cache.held.Keys == t.running + ChunkUids(t2.pending) + Uids(es) + others
    && others !! t2.running + ChunkUids(t2.pending) + Uids(es)
    && (forall i {:trigger es[i]} | 0 <= i < |es| && es[i].chunked :: es[i].uid in ChunkUids(t2.pending))
    && t2.running == (set u | u in t.running + Uids(es) && Get(t2.reqs, u).CanDecode())
    && (f.Some? && f.value.batch.prefill ==> Uids(es) <= PendingUids(t.pending))
    && forall u {:trigger Get(t2.reqs, u)} | u !in PendingUids(t.pending) ::
         if u in Uids(es) then u in t.running && Get(t2.reqs, u) == Get(t.reqs, u).CompleteOne()
         else Get(t2.reqs, u) == Get(t.reqs, u)
  }

  lemma {:induction false} LaunchLive(cfg: Config, t: Sched, i: Input, others: set<int>)
    requires LInv(cfg, t, t.pending, others) && Aside(t, others) && Ctrl(t) && CanLaunch(cfg, t, i)
    ensures var (t2, f) := Launch(cfg, t, i); Launching(cfg, t, t2, f, others)
  {
    hide LInv, WaitsOk, Schedule, Prepare, Forward, CanPrepare, Planned, RInv, Waiting, Uids, ChunkUids, Ctrl, Aside;
    var (t1, b) := Schedule(cfg, t);
    ScheduleLive(cfg, t, others);
    ScheduleReqs(cfg, t);
    if b.None? {
      NothingRuns(cfg, t, others);
    } else {
      var tokens := TokensFor(b.value, i.tokens);
      BatchLive(cfg, t1, b.value, i.ev, tokens, others);
      BatchMoves(cfg, t1, b.value, i.ev, tokens, others);
      var t2 := Forward(cfg, Prepare(cfg, t1, b.value, i.ev), b.value, tokens);
      forall u | u !in PendingUids(t.pending)
        ensures if u in Uids(b.value.entries) then u in t.running && Get(t2.reqs, u) == Get(t.reqs, u).CompleteOne()
                else Get(t2.reqs, u) == Get(t.reqs, u)
      {
        assert Get(t1.reqs, u) == Get(t.reqs, u);
      }
    }
  }

  lemma {:induction false} NothingRuns(cfg: Config, t: Sched, others: set<int>)
    requires LInv(cfg, t, t.pending, others) && Aside(t, others) && t.running == {}
    ensures Launching(cfg, t, t, None, others)
  {
    hide RInv, QueueOk, HeadOk, RunningOk, DoneOk;
    NoWaiting();
    NoUids();
    assert {} + others == others;
  }

  /** Preparing and running a batch: who holds resources, who runs, and which requests advance. */
  lemma {:induction false} BatchMoves(cfg: Config, s: Sched, b: Batch, ev: Eviction, tokens: seq<int>, others: set<int>)
    requires RInv(cfg, s, {}, []) && Planned(cfg, s, b, others) && CanPrepare(cfg, s, b, ev)
    requires |tokens| == |b.entries|
    ensures var s2, us := Forward(cfg, Prepare(cfg, s, b, ev), b, tokens), Uids(b.entries);
            && s2.cache.held.Keys == s.running + ChunkUids(s2.pending) + us + others
            && others !! s2.running + ChunkUids(s2.pending) + us
            && (forall i {:trigger b.entries[i]} | 0 <= i < |b.entries| && b.entries[i].chunked ::
                  b.entries[i].uid in ChunkUids(s2.pending))
            && s2.running == (set u | u in s.running + us && Get(s2.reqs, u).CanDecode())
            && forall u {:trigger Get(s2.reqs, u)} ::
                 Get(s2.reqs, u) == if u in us then Get(s.reqs, u).CompleteOne() else Get(s.reqs, u)
  {
    hide RInv, QueueOk, RunningOk, HeadReady, DoneOk, EntryOk, Prepare, CanPrepare, Commit, Uids, ChunkUids;
    PlannedEntries(cfg, s, b, others);
    PrepareKeeps(cfg, s, b, ev, others);
    var s1 := Prepare(cfg, s, b, ev);
    CommitAdvances(cfg, s1, b.entries, tokens);
    ChunksThere(cfg, s, b.entries);
  }

  lemma {:induction false} ChunksThere(cfg: Config, s: Sched, es: seq<Entry>)
    requires ChunksQueued(s, es)
    ensures forall i {:trigger es[i]} | 0 <= i < |es| && es[i].chunked :: es[i].uid in ChunkUids(s.pending)
  {
    if s.pending != [] {
      assert s.pending[0] in s.pending;
    }
  }

  // ---- processing the last batch

  /** An entry of the batch being processed whose token is not appended yet: a live request that either runs or has
  reached its length, or one finished in the last tick. `t` is the state `s` caught up. */
  ghost predicate ToGo(s: Sched, t: Sched, e: Entry, prefill: bool) {
    var r := Get(t.reqs, e.uid);
    && e.uid in t.reqs
    && if e.uid in s.cache.held
       then e.uid !in s.finished && r.cachedLen <= |r.ids| && e.uid !in ChunkUids(s.pending)
            && (e.uid in s.running || !r.CanDecode())
       else e.uid in s.finished && !prefill
  }

  ghost predicate AllToGo(s: Sched, t: Sched, es: seq<Entry>, prefill: bool) {
    forall i {:trigger es[i]} | 0 <= i < |es| && !es[i].chunked && es[i].uid !in s.deferred ::
      ToGo(s, t, es[i], prefill)
  }

  /** An entry of the batch just launched: it waits for its token unless it was finished meanwhile. */
  ghost predicate Landing(cfg: Config, t: Sched, e: Entry, done: set<int>) {
    if e.chunked then e.uid in ChunkUids(t.pending)
    else if e.uid in t.cache.held then WaitOk(cfg, t, e)
    else e.uid in done && Placed(cfg, t, e.uid)
  }

  ghost predicate AllLanding(cfg: Config, t: Sched, fes: seq<Entry>, done: set<int>) {
    forall i {:trigger fes[i]} | 0 <= i < |fes| :: Landing(cfg, t, fes[i], done)
  }

  /** The requests in other hands while the last batch is processed and `fes` is in flight. */
  ghost function Away(t: Sched, fes: seq<Entry>): set<int> {
    Idle(t) + Waiting(fes) * t.cache.held.Keys
  }

  ghost predicate Landed(cfg: Config, t: Sched, fes: seq<Entry>, done: set<int>) {
    LInv(cfg, t, t.pending, Away(t, fes)) && AllLanding(cfg, t, fes, done) && DoneOk(t, done)
  }

  /** Post-processing with the entries `es` still to go and the batch `fes` launched. */
  ghost predicate Processing(cfg: Config, p: Post, es: seq<Entry>, tokens: seq<int>, fes: seq<Entry>, prefill: bool)
    requires |tokens| == |es|
  {
    var s := p.s;
    var lag := LagOf(es, tokens, s.deferred);
    var t := Caught(s, lag);
    && Landed(cfg, t, fes, p.finished) && AllToGo(s, t, es, prefill) && DistinctEntries(es) && AllParked(cfg, s)
    && Idle(t) <= s.deferred + Waiting(fes) + Waiting(es) && s.deferred !! Waiting(fes)
  }

  /** Putting a running request into other hands. */
  lemma {:induction false} TakeAway(cfg: Config, t: Sched, busy: set<int>, u: int)
    requires LInv(cfg, t, t.pending, busy) && u in t.running + busy
    ensures LInv(cfg, t, t.pending, busy + {u})
  {
    hide RInv, QueueOk, HeadOk, RunOk, DoneOk, ChunkUids;
  }

  /** Finishing or aborting a request: it stops running and gives everything back. */
  ghost function Dropped(cfg: Config, t: Sched, u: int): Sched {
    Release(cfg, t.(running := t.running - {u}), u)
  }

  lemma {:induction false} EndFields(cfg: Config, t: Sched, u: int)
    ensures var t' := Dropped(cfg, t, u);
            && t'.pending == t.pending && t'.running == t.running - {u} && t'.reqs == t.reqs
              && t'.finished == t.finished
            && t'.deferred == t.deferred && t'.inflight == t.inflight
  {
    hide HandOver;
  }

  lemma {:induction false} EndLive(cfg: Config, t: Sched, fes: seq<Entry>, u: int)
    requires LInv(cfg, t, t.pending, Away(t, fes)) && u in t.cache.held && u !in ChunkUids(t.pending)
    requires Get(t.reqs, u).cachedLen <= |Get(t.reqs, u).ids|
    ensures var t' := Dropped(cfg, t, u);
            && LInv(cfg, t', t'.pending, Away(t', fes)) && t'.cache.held.Keys == t.cache.held.Keys - {u}
            && Avail(t'.cache) >= Avail(t.cache)
  {
    hide LInv, Waiting, ChunkUids, Release, Avail;
    var busy := Away(t, fes);
    var t1 := t.(running := t.running - {u});
    TakeAway(cfg, t, busy, u);
    StopRunning(cfg, t, u, busy + {u});
    ReleaseLive(cfg, t1, busy + {u}, u);
    ReleasedKeys(cfg, t1, busy + {u}, u);
    EndFields(cfg, t, u);
    var t' := Dropped(cfg, t, u);
    assert Away(t', fes) == busy + {u} - {u};
  }

  lemma {:induction false} LandingEnds(cfg: Config, t: Sched, t': Sched, fes: seq<Entry>, done: set<int>,
                                       done': set<int>,
                                       u: int)
    requires AllLanding(cfg, t, fes, done) && done <= done' && u !in ChunkUids(t.pending)
    requires Placed(cfg, t, u)
    requires t'.pending == t.pending && t'.running == t.running - {u} && t'.reqs == t.reqs && t'.finished == t.finished
    requires t'.cache.held.Keys == t.cache.held.Keys - {u} && (u in done' || u !in Waiting(fes))
    ensures AllLanding(cfg, t', fes, done')
  {
    hide ChunkUids, Waiting;
    forall i | 0 <= i < |fes|
      ensures Landing(cfg, t', fes[i], done')
    {
      InUids(fes, i);
      assert Landing(cfg, t, fes[i], done);
    }
  }

  lemma {:induction false} EndDone(t: Sched, t': Sched, done: set<int>, u: int)
    requires DoneOk(t, done) && u in t.reqs && t'.reqs == t.reqs && t'.cache.held.Keys == t.cache.held.Keys - {u}
    ensures DoneOk(t', done) && DoneOk(t', done + {u})
  {
  }

  /** Ending a request while `fes` is in flight. */
  lemma {:induction false} EndLanded(cfg: Config, t: Sched, fes: seq<Entry>, done: set<int>, done': set<int>, u: int)
    requires Landed(cfg, t, fes, done) && u in t.cache.held && u !in ChunkUids(t.pending) && u in t.reqs
    requires Get(t.reqs, u).cachedLen <= |Get(t.reqs, u).ids|
    requires done' == done + {u} || (done' == done && u !in Waiting(fes))
    ensures var t' := Dropped(cfg, t, u);
            && Landed(cfg, t', fes, done') && t'.cache.held.Keys == t.cache.held.Keys - {u}
            && Idle(t') == Idle(t) - {u} && Avail(t'.cache) >= Avail(t.cache)
  {
    hide Avail, LInv, Dropped, Away, AllLanding, DoneOk, ChunkUids, Waiting;
    HeldPlaced(cfg, t, Away(t, fes), u);
    EndLive(cfg, t, fes, u);
    EndFields(cfg, t, u);
    var t' := Dropped(cfg, t, u);
    LandingEnds(cfg, t, t', fes, done, done', u);
    EndDone(t, t', done, u);
  }

  lemma {:induction false} HeldPlaced(cfg: Config, t: Sched, busy: set<int>, u: int)
    requires LInv(cfg, t, t.pending, busy) && u in t.cache.held
    ensures Placed(cfg, t, u)
  {
    hide Shapes, Owned, QueueOk, HeadOk, RunningOk, DoneOk, ChunkUids, Whole, Segment;
    assert ReqInv(cfg, t, {}, u);
  }

  /** Caching the prefix of a request while `fes` is in flight. */
  lemma {:induction false} KeepLanded(cfg: Config, t: Sched, fes: seq<Entry>, done: set<int>, u: int)
    requires Landed(cfg, t, fes, done) && u in t.cache.held
    requires Get(t.reqs, u).cachedLen <= |Get(t.reqs, u).ids|
    ensures var t' := KeepCached(cfg, t, u);
            && Landed(cfg, t', fes, done) && t'.cache.held.Keys == t.cache.held.Keys && Idle(t') == Idle(t)
            && Avail(t'.cache) >= Avail(t.cache)
  {
    hide RInv, QueueOk, HeadOk, DoneOk, RunOk, ChunkUids, Avail, HandOver, Waiting, AllLanding;
    var t' := KeepCached(cfg, t, u);
    KeepCachedKeeps(cfg, t, {}, [], u);
    QueueMoved(cfg, t, t');
    forall v | v in t'.running && v !in Away(t', fes)
      ensures RunOk(cfg, t', v)
    {
      RunMoved(cfg, t, t', v);
    }
    DoneSame(t, t', t.finished);
    DoneSame(t, t', done);
    LandingSame(cfg, t, t', fes, done);
  }

  lemma {:induction false} LandingSame(cfg: Config, t: Sched, t': Sched, fes: seq<Entry>, done: set<int>)
    requires AllLanding(cfg, t, fes, done) && t'.cache.held.Keys == t.cache.held.Keys
    requires t'.pending == t.pending && t'.running == t.running && t'.reqs == t.reqs && t'.finished == t.finished
    ensures AllLanding(cfg, t', fes, done)
  {
    hide ChunkUids;
    forall i | 0 <= i < |fes|
      ensures Landing(cfg, t', fes[i], done)
    {
      assert Landing(cfg, t, fes[i], done);
    }
  }

  // ---- one entry

  lemma {:induction false} CaughtAppended(s: Sched, lag: map<int, int>, u: int, token: int)
    requires u !in lag && u in s.reqs
    ensures Caught(Appended(s, u, token), lag) == Caught(s, lag[u := token])
    ensures Get(Appended(s, u, token).reqs, u) == Get(Caught(s, lag[u := token]).reqs, u)
  {
    assert Later(Appended(s, u, token).reqs, lag) == Later(s.reqs, lag[u := token]);
  }

  lemma {:induction false} EndCaught(cfg: Config, s: Sched, lag: map<int, int>, u: int)
    requires Get(s.reqs, u) == Get(Caught(s, lag).reqs, u)
    ensures Caught(Dropped(cfg, s, u), lag) == Dropped(cfg, Caught(s, lag), u)
  {
    hide HandOver, Later;
  }

  lemma {:induction false} KeepCaught(cfg: Config, s: Sched, lag: map<int, int>, u: int)
    requires Get(s.reqs, u) == Get(Caught(s, lag).reqs, u)
    ensures Caught(KeepCached(cfg, s, u), lag) == KeepCached(cfg, Caught(s, lag), u)
  {
    hide HandOver, Later;
  }

  /** What a step for one entry may change, as far as the entries still to go are concerned. */
  lemma {:induction false} ToGoRest(s: Sched, t: Sched, s': Sched, t': Sched, es: seq<Entry>, prefill: bool)
    requires AllToGo(s, t, es, prefill) && es != [] && DistinctEntries(es)
    requires s'.deferred == s.deferred && s'.finished == s.finished && s'.pending == s.pending
    requires s'.running == s.running || s'.running == s.running - {es[0].uid}
    requires s'.cache.held.Keys == s.cache.held.Keys || s'.cache.held.Keys == s.cache.held.Keys - {es[0].uid}
    requires t'.reqs == t.reqs
    ensures AllToGo(s', t', es[1..], prefill)
  {
    hide ChunkUids;
    forall i | 0 <= i < |es[1..]| && !es[1..][i].chunked && es[1..][i].uid !in s'.deferred
      ensures ToGo(s', t', es[1..][i], prefill)
    {
      assert es[1..][i] == es[i + 1];
      assert ToGo(s, t, es[i + 1], prefill);
    }
  }

  lemma {:induction false} ParkedRest(cfg: Config, s: Sched, s': Sched, u: int)
    requires AllParked(cfg, s) && s'.finished == s.finished && u !in s.deferred && s'.deferred == s.deferred
             && s'.pending == s.pending
    requires s'.running <= s.running && s.cache.held.Keys - {u} <= s'.cache.held.Keys <= s.cache.held.Keys
    requires s.reqs.Keys <= s'.reqs.Keys && forall v | v != u :: Get(s'.reqs, v) == Get(s.reqs, v)
    ensures AllParked(cfg, s')
  {
    hide ChunkUids;
    forall v | v in s'.deferred
      ensures if v in s'.cache.held then Parked(s', v) else Over(cfg, s', v)
    {
      assert v in s.deferred && Get(s'.reqs, v) == Get(s.reqs, v);
    }
  }

  lemma {:induction false} WaitingRest(es: seq<Entry>)
    requires es != []
    ensures Waiting(es) == (if es[0].chunked then {} else {es[0].uid}) + Waiting(es[1..])
  {
    WaitingCons(es[0], es[1..]);
    assert [es[0]] + es[1..] == es;
  }

  /** An entry that is skipped: a chunk, or a request whose abort is deferred. */
  lemma {:induction false} SkipProcessing(cfg: Config, p: Post, es: seq<Entry>, tokens: seq<int>, fes: seq<Entry>,
                                          prefill: bool)
    requires |tokens| == |es| && Processing(cfg, p, es, tokens, fes, prefill) && es != []
    requires es[0].chunked || es[0].uid in p.s.deferred
    ensures Processing(cfg, p, es[1..], tokens[1..], fes, prefill)
  {
    hide Landed, ToGo, DistinctEntries, AllParked, Waiting, Idle, LagOf, Later;
    var s := p.s;
    LagSplit(es, tokens, s.deferred);
    WaitingRest(es);
    DistinctRest(es);
    var t := Caught(s, LagOf(es, tokens, s.deferred));
    ToGoRest(s, t, s, t, es, prefill);
  }

  /** An entry whose token is appended: the caught-up state changes only if the request ends or its prefix is cached. */
  lemma {:induction false} TokenProcessing(cfg: Config, p: Post, es: seq<Entry>, tokens: seq<int>, fes: seq<Entry>,
                                           prefill: bool)
    requires |tokens| == |es| && Processing(cfg, p, es, tokens, fes, prefill) && es != []
    requires !es[0].chunked && es[0].uid !in p.s.deferred
    ensures Processing(cfg, ProcessEntry(cfg, p, prefill, es[0], tokens[0]), es[1..], tokens[1..], fes, prefill)
    ensures Avail(ProcessEntry(cfg, p, prefill, es[0], tokens[0]).s.cache) >= Avail(p.s.cache)
  {
    hide Avail, Landed, DistinctEntries, AllParked, AllToGo, Waiting, LagOf, Later, Release, KeepCached, ChunkUids,
      Uids, IsFinished;
    var s, u, token := p.s, es[0].uid, tokens[0];
    var lag, rest := LagOf(es, tokens, s.deferred), LagOf(es[1..], tokens[1..], s.deferred);
    var t, s1 := Caught(s, lag), Appended(s, u, token);
    LagSplit(es, tokens, s.deferred);
    WaitingRest(es);
    DistinctRest(es);
    LagKeys(es[1..], tokens[1..], s.deferred);
    WaitingUids(es[1..]);
    FirstToGo(s, t, es, prefill);
    LaterGet(s.reqs, lag, u);
    CaughtAppended(s, rest, u, token);
    var p' := ProcessEntry(cfg, p, prefill, es[0], token);
    var r := Get(t.reqs, u);
    if IsFinished(cfg, r, token) && u !in s.finished {
      EndCaught(cfg, s1, rest, u);
      EndLanded(cfg, t, fes, p.finished, p.finished + {u}, u);
      EndFields(cfg, s1, u);
    } else if prefill {
      KeepCaught(cfg, s1, rest, u);
      KeepLanded(cfg, t, fes, p.finished, u);
      KeepFrame(cfg, s1, u);
      Unfinished(cfg, r, token);
    } else {
      Unfinished(cfg, r, token);
    }
    assert p'.s.deferred == s.deferred;
    ToGoRest(s, t, p'.s, Caught(p'.s, rest), es, prefill);
    ParkedRest(cfg, s, p'.s, u);
  }

  lemma {:induction false} FirstToGo(s: Sched, t: Sched, es: seq<Entry>, prefill: bool)
    requires AllToGo(s, t, es, prefill) && es != [] && !es[0].chunked && es[0].uid !in s.deferred
    ensures ToGo(s, t, es[0], prefill)
  {
    hide ToGo;
  }

  lemma {:induction false} Unfinished(cfg: Config, r: Req, token: int)
    ensures !IsFinished(cfg, r, token) ==> r.CanDecode()
  {
  }

  lemma {:induction false} EntryProcessing(cfg: Config, p: Post, es: seq<Entry>, tokens: seq<int>, fes: seq<Entry>,
                                           prefill: bool)
    requires |tokens| == |es| && Processing(cfg, p, es, tokens, fes, prefill) && es != []
    ensures Processing(cfg, ProcessEntry(cfg, p, prefill, es[0], tokens[0]), es[1..], tokens[1..], fes, prefill)
    ensures Avail(ProcessEntry(cfg, p, prefill, es[0], tokens[0]).s.cache) >= Avail(p.s.cache)
  {
    hide Avail, Processing, ProcessEntry;
    if es[0].chunked || es[0].uid in p.s.deferred {
      SkipProcessing(cfg, p, es, tokens, fes, prefill);
      SkipIs(cfg, p, prefill, es[0], tokens[0]);
    } else {
      TokenProcessing(cfg, p, es, tokens, fes, prefill);
    }
  }

  lemma {:induction false} EntriesProcessing(cfg: Config, p: Post, es: seq<Entry>, tokens: seq<int>, fes: seq<Entry>,
                                             prefill: bool)
    requires |tokens| == |es| && Processing(cfg, p, es, tokens, fes, prefill)
    ensures Processing(cfg, ProcessEntries(cfg, p, prefill, es, tokens), [], [], fes, prefill)
    ensures Avail(ProcessEntries(cfg, p, prefill, es, tokens).s.cache) >= Avail(p.s.cache)
    decreases |es|
  {
    hide Avail, Processing, ProcessEntry;
    if es == [] {
      assert tokens == [];
    } else {
      EntryProcessing(cfg, p, es, tokens, fes, prefill);
      EntriesProcessing(cfg, ProcessEntry(cfg, p, prefill, es[0], tokens[0]), es[1..], tokens[1..], fes, prefill);
    }
  }

  lemma {:induction false} SkipIs(cfg: Config, p: Post, prefill: bool, e: Entry, token: int)
    requires e.chunked || e.uid in p.s.deferred
    ensures ProcessEntry(cfg, p, prefill, e, token) == p
  {
  }

  // ---- from the messages to post-processing

  /** Launching does the same to the scheduler and to the one that has caught up. */
  lemma {:induction false} LaunchSame(cfg: Config, s: Sched, lag: map<int, int>, i: Input)
    requires Ctrl(s) && Unqueued(s.pending, lag) && lag.Keys <= s.reqs.Keys
    ensures var (s2, f) := Launch(cfg, s, i); Launch(cfg, Caught(s, lag), i) == (Caught(s2, lag), f)
    ensures CanLaunch(cfg, s, i) ==> CanLaunch(cfg, Caught(s, lag), i)
  {
    hide Caught, Schedule, Prepare, Forward, CanPrepare, Ctrl, Unqueued;
    ScheduleSame(cfg, s, lag);
    var (s1, b) := Schedule(cfg, s);
    if b.Some? {
      ScheduleGrows(cfg, s);
      ForwardSame(cfg, s1, lag, b.value, i.ev, TokensFor(b.value, i.tokens));
      CanPrepareSame(cfg, s1, lag, b.value, i.ev);
    }
  }

  lemma {:induction false} ScheduleGrows(cfg: Config, s: Sched)
    requires Ctrl(s)
    ensures s.reqs.Keys <= Schedule(cfg, s).0.reqs.Keys
  {
    hide Schedule, Ctrl;
    ScheduleIs(cfg, s);
  }

  lemma {:induction false} CaughtCtrl(s: Sched, lag: map<int, int>)
    requires Ctrl(s)
    ensures Ctrl(Caught(s, lag))
  {
    hide DistinctUids, PendingUids;
    assert Later(s.reqs, lag).Keys == s.reqs.Keys;
  }

  /** Who is in other hands may be told in other ways. */
  lemma {:induction false} Reshape(cfg: Config, t: Sched, busy: set<int>, busy': set<int>)
    requires LInv(cfg, t, t.pending, busy) && t.cache.held.Keys == t.running + ChunkUids(t.pending) + busy'
    requires forall u | u in busy && u in t.running :: u in busy'
    ensures LInv(cfg, t, t.pending, busy')
  {
    hide RInv, QueueOk, HeadOk, RunOk, DoneOk, ChunkUids;
  }

  lemma {:induction false} LaunchAway(cfg: Config, t: Sched, t2: Sched, f: Option<Flight>, others: set<int>)
    requires Launching(cfg, t, t2, f, others)
    ensures var fes := LastEntries(f);
            && LInv(cfg, t2, t2.pending, Away(t2, fes)) && AllLanding(cfg, t2, fes, {})
            && Waiting(fes) <= t2.cache.held.Keys && Idle(t2) <= Waiting(fes) + others
  {
    hide LInv, WaitOk, Waiting, Uids, ChunkUids, DistinctEntries;
    var fes := LastEntries(f);
    HeldOf(cfg, t2, Waiting(fes) + others);
    Reshape(cfg, t2, Waiting(fes) + others, Away(t2, fes));
    forall i | 0 <= i < |fes|
      ensures Landing(cfg, t2, fes[i], {})
    {
      InUids(fes, i);
    }
  }

  /** A token to append after the launch: the request still waits for it, or was finished before. */
  lemma {:induction false} LaunchToGo(cfg: Config, s: Sched, s2: Sched, lag: map<int, int>, f: Option<Flight>, e: Entry,
                                      prefill: bool)
    requires Launching(cfg, Caught(s, lag), Caught(s2, lag), f, Idle(s)) && Launched(s, s2, f)
    requires Flying(cfg, s, e, prefill) && !e.chunked && e.uid in lag && e.uid in s.reqs
             && e.uid !in PendingUids(s.pending)
    requires s.running <= s.cache.held.Keys
    ensures ToGo(s2, Caught(s2, lag), e, prefill)
  {
    hide LInv, WaitsOk, Waiting, Uids, Later, DistinctUids, DistinctEntries, PlainIdle;
    var u := e.uid;
    ChunksQueuedUids(s2.pending, u);
    ChunksQueuedUids(s.pending, u);
    LaterGet(s.reqs, lag, u);
    LaterGet(s2.reqs, lag, u);
    hide ChunkUids, PendingUids;
    var t2 := Caught(s2, lag);
    assert if u in LastUids(f) then u in s.running && Get(t2.reqs, u) == Get(Caught(s, lag).reqs, u).CompleteOne()
           else Get(t2.reqs, u) == Get(Caught(s, lag).reqs, u);
  }

  lemma {:induction false} ChunksQueuedUids(ps: seq<Pending>, u: int)
    ensures u in ChunkUids(ps) ==> u in PendingUids(ps)
  {
  }

  /** A request whose abort is deferred is left alone by the launch. */
  lemma {:induction false} LaunchParked(cfg: Config, s: Sched, s2: Sched, lag: map<int, int>, f: Option<Flight>, u: int)
    requires Launching(cfg, Caught(s, lag), Caught(s2, lag), f, Idle(s)) && Launched(s, s2, f)
    requires if u in s.cache.held then Parked(s, u) else Over(cfg, s, u)
    requires u !in lag && u !in PendingUids(s.pending) && s.running <= s.cache.held.Keys
    ensures if u in s2.cache.held then Parked(s2, u) else Over(cfg, s2, u)
    ensures u !in Waiting(LastEntries(f))
  {
    WaitingUids(LastEntries(f));
    ChunksQueuedUids(s2.pending, u);
    hide LInv, WaitsOk, Waiting, Uids, Later, ChunkUids, PendingUids, DistinctUids, DistinctEntries, PlainIdle;
    LaterGet(s.reqs, lag, u);
    LaterGet(s2.reqs, lag, u);
    assert u in s.cache.held ==> u in Idle(s);
    assert Get(Caught(s2, lag).reqs, u) == Get(Caught(s, lag).reqs, u);
  }

  /** An admitted request is queued only as a chunk. */
  lemma {:induction false} KnownUnqueued(cfg: Config, s: Sched, busy: set<int>, u: int)
    requires LInv(cfg, s, s.pending, busy) && u in s.reqs && u !in ChunkUids(s.pending)
    ensures u !in PendingUids(s.pending)
  {
    hide RInv, HeadOk, RunningOk, DoneOk, PendOk, DistinctUids;
    forall p | p in s.pending
      ensures p.uid != u
    {
      var i :| 0 <= i < |s.pending| && s.pending[i] == p;
    }
  }

  lemma {:induction false} HeldReq(cfg: Config, s: Sched, busy: set<int>, u: int)
    requires LInv(cfg, s, s.pending, busy) && u in s.cache.held
    ensures u in s.reqs
  {
    hide Shapes, Owned, QueueOk, HeadOk, RunningOk, DoneOk, ChunkUids, Whole, Segment;
    assert ReqInv(cfg, s, {}, u);
  }

  lemma {:induction false} UnqueuedUids(queue: seq<Pending>, lag: map<int, int>, u: int)
    requires Unqueued(queue, lag) && u in lag
    ensures u !in PendingUids(queue)
  {
  }

  /** After the launch post-processing may start. */
  lemma {:induction false} StartProcessing(cfg: Config, s: Sched, i: Input, es: seq<Entry>, tokens: seq<int>,
                                           prefill: bool)
    requires Hearing(cfg, s, es, prefill) && Ctrl(s) && CanLaunch(cfg, s, i) && DistinctEntries(es) && |tokens| == |es|
    ensures var (s2, f) := Launch(cfg, s, i);
            && Processing(cfg, Post(s2, [], {}), es, tokens, LastEntries(f), prefill)
            && (f.Some? && f.value.batch.prefill ==> Uids(LastEntries(f)) !! Waiting(es) - s.deferred)
  {
    hide Launch, LInv, Waiting, Uids, Later, ChunkUids, PendingUids, LagOf, Ctrl, CanLaunch, DistinctEntries, Aside,
      Flying, Launched, Launching, Unqueued, ToGo, AllLanding;
    var lag := LagOf(es, tokens, s.deferred);
    var t := Caught(s, lag);
    var (s2, f) := Launch(cfg, s, i);
    HeardCaught(cfg, s, es, tokens, prefill);
    LaunchSame(cfg, s, lag, i);
    CaughtCtrl(s, lag);
    LaunchLive(cfg, t, i, Idle(t));
    LaunchIs(cfg, s, i);
    LaunchKept(s, s2, f);
    var t2 := Caught(s2, lag);
    LaunchAway(cfg, t, t2, f, Idle(s));
    HeldOf(cfg, Outside(s), Busy(s, es));
    forall j | 0 <= j < |es| && !es[j].chunked && es[j].uid !in s2.deferred
      ensures ToGo(s2, t2, es[j], prefill)
    {
      InUids(es, j);
      assert Flying(cfg, s, es[j], prefill);
      UnqueuedUids(s.pending, lag, es[j].uid);
      LaunchToGo(cfg, s, s2, lag, f, es[j], prefill);
    }
    forall u {:trigger u in s2.deferred} | u in s2.deferred
      ensures if u in s2.cache.held then Parked(s2, u) else Over(cfg, s2, u)
      ensures u !in Waiting(LastEntries(f))
    {
      DeferredUnqueued(cfg, s, Busy(s, es), u);
      LaunchParked(cfg, s, s2, lag, f, u);
    }
    NoneDone(t2);
    PrefillApart(cfg, t, t2, f, Idle(s), lag);
  }

  lemma {:induction false} DeferredUnqueued(cfg: Config, s: Sched, busy: set<int>, u: int)
    requires LInv(cfg, Outside(s), s.pending, busy) && AllParked(cfg, s) && u in s.deferred
    ensures u !in PendingUids(s.pending)
    ensures if u in s.cache.held then Parked(s, u) else Over(cfg, s, u)
  {
    hide LInv, ChunkUids, PendingUids;
    HeldOf(cfg, Outside(s), busy);
    if u in s.cache.held {
      HeldReq(cfg, Outside(s), busy, u);
    }
    KnownUnqueued(cfg, Outside(s), busy, u);
  }

  lemma {:induction false} LaunchKept(s: Sched, s2: Sched, f: Option<Flight>)
    requires Launched(s, s2, f)
    ensures s2.deferred == s.deferred && s2.finished == s.finished
  {
  }

  lemma {:induction false} PrefillApart(cfg: Config, t: Sched, t2: Sched, f: Option<Flight>, others: set<int>,
                                        lag: map<int, int>)
    requires Launching(cfg, t, t2, f, others) && Unqueued(t.pending, lag)
    ensures f.Some? && f.value.batch.prefill ==> LastUids(f) !! lag.Keys
  {
    hide LInv, WaitsOk, Waiting, Uids, ChunkUids, PendingUids;
    forall u | u in lag
      ensures u !in PendingUids(t.pending)
    {
      UnqueuedUids(t.pending, lag, u);
    }
  }

  // ---- deferred aborts

  /** The deferred aborts with the entries `es` still to go. */
  ghost predicate Applying(cfg: Config, s: Sched, es: seq<Entry>, done: set<int>, fes: seq<Entry>) {
    && Landed(cfg, Outside(s), fes, s.finished) && Idle(s) <= Waiting(fes) + (s.deferred * Uids(es) - done)
    && (forall u {:trigger u in s.deferred} | u in s.deferred && u in Uids(es) && u !in done :: Parked(s, u))
    && s.deferred !! Waiting(fes)
  }

  /** The new finished set. */
  lemma {:induction false} RenewFinished(cfg: Config, t: Sched, fes: seq<Entry>, done: set<int>)
    requires Landed(cfg, t, fes, done)
    ensures Landed(cfg, t.(finished := done), fes, done)
  {
    hide RInv, ChunkUids, PendOk, DistinctUids, RunOk, Waiting;
    var t' := t.(finished := done);
    RInvSameOf(cfg, t, t');
    QueueMoved(cfg, t, t');
    RunningSame(cfg, t, t', Away(t, fes));
    forall i | 0 <= i < |fes|
      ensures Landing(cfg, t', fes[i], done)
    {
      assert Landing(cfg, t, fes[i], done);
    }
  }

  lemma {:induction false} LandedAck(cfg: Config, t: Sched, fes: seq<Entry>, done: set<int>, u: int)
    requires Landed(cfg, t, fes, done)
    ensures Landed(cfg, t.(acks := t.acks + [u]), fes, done)
  {
    hide LInv, AllLanding, Waiting, ChunkUids;
    AckLive(cfg, t, u, Away(t, fes));
    LandingSame(cfg, t, t.(acks := t.acks + [u]), fes, done);
  }

  lemma {:induction false} ReleasedOutside(cfg: Config, s: Sched, u: int)
    requires u !in s.running
    ensures var s1 := Release(cfg, s, u);
            Outside(s1.(acks := s1.acks + [u])) == Dropped(cfg, Outside(s), u).(acks := s1.acks + [u])
              && s1.acks == s.acks
  {
    hide HandOver;
    assert s.running - {u} == s.running;
  }

  lemma {:induction false} ApplyStep(cfg: Config, s: Sched, es: seq<Entry>, done: set<int>, fes: seq<Entry>)
    requires Applying(cfg, s, es, done, fes) && es != [] && es[0].uid in s.deferred && es[0].uid !in done
    ensures var s1 := Release(cfg, s, es[0].uid);
            && Applying(cfg, s1.(acks := s1.acks + [es[0].uid]), es[1..], done + {es[0].uid}, fes)
            && Avail(s1.cache) >= Avail(s.cache)
  {
    hide Avail, Landed, Waiting, ChunkUids, Release, Uids, Dropped;
    var u := es[0].uid;
    UidsSplit(es);
    assert Parked(s, u);
    var s1 := Release(cfg, s, u);
    var s2 := s1.(acks := s1.acks + [u]);
    ReleaseFrame(cfg, s, u);
    ReleasedOutside(cfg, s, u);
    LandedReq(cfg, Outside(s), fes, s.finished, u);
    EndLanded(cfg, Outside(s), fes, s.finished, s.finished, u);
    EndFields(cfg, Outside(s), u);
    LandedAck(cfg, Dropped(cfg, Outside(s), u), fes, s.finished, u);
    EndAcks(cfg, Outside(s), u);
    forall v | v in s2.deferred && v in Uids(es[1..]) && v !in done + {u}
      ensures Parked(s2, v)
    {
      assert Parked(s, v);
    }
  }

  lemma {:induction false} EndAcks(cfg: Config, t: Sched, u: int)
    ensures Dropped(cfg, t, u).acks == t.acks
  {
    hide HandOver;
  }

  lemma {:induction false} LandedReq(cfg: Config, t: Sched, fes: seq<Entry>, done: set<int>, u: int)
    requires Landed(cfg, t, fes, done) && u in t.cache.held
    ensures u in t.reqs
  {
    hide LInv, Away, AllLanding, DoneOk;
    HeldReq(cfg, t, Away(t, fes), u);
  }

  lemma {:induction false} ApplyAll(cfg: Config, s: Sched, es: seq<Entry>, done: set<int>, fes: seq<Entry>)
    requires Applying(cfg, s, es, done, fes)
    ensures var s' := ApplyEntries(cfg, s, es, done);
            && Landed(cfg, Outside(s'), fes, s'.finished) && Idle(s') <= Waiting(fes)
            && Avail(s'.cache) >= Avail(s.cache)
    decreases |es|
  {
    hide Avail, Landed, Waiting, ChunkUids, Release, Uids, Parked, Idle;
    if es == [] {
      NoUids();
    } else {
      UidsSplit(es);
      var u := es[0].uid;
      if u in s.deferred && u !in done {
        var s1 := Release(cfg, s, u);
        ApplyStep(cfg, s, es, done, fes);
        ApplyAll(cfg, s1.(acks := s1.acks + [u]), es[1..], done + {u}, fes);
      } else {
        ApplyAll(cfg, s, es[1..], done, fes);
      }
    }
  }

  // ---- a whole tick

  /** The overlap loop between two ticks, with the batch `last` in flight: every page and every row has one owner, and
  the requests that hold some are the running ones, the queued chunk and those waiting for their token. */
  ghost predicate OwnInv(cfg: Config, s: Sched, last: Option<Flight>) {
    var es := LastEntries(last);
    && LInv(cfg, s, s.pending, Waiting(es) * s.cache.held.Keys)
    && AllFlying(cfg, s, es, last.Some? && last.value.batch.prefill)
  }

  ghost function Tokens(last: Option<Flight>): seq<int> {
    if last.None? then [] else last.value.tokens
  }

  ghost predicate IsPrefill(last: Option<Flight>) {
    last.Some? && last.value.batch.prefill
  }

  lemma {:induction false} StartHearing(cfg: Config, s: Sched, last: Option<Flight>)
    requires OwnInv(cfg, s, last)
    ensures Hearing(cfg, s.(inflight := LastUids(last)), LastEntries(last), IsPrefill(last))
  {
    hide RInv, QueueOk, HeadOk, RunningOk, DoneOk, Flying, Uids, Waiting, ChunkUids;
    var s0, es := s.(inflight := LastUids(last)), LastEntries(last);
    assert Outside(s0) == s;
    assert Busy(s0, es) == Waiting(es) * s.cache.held.Keys;
    forall i | 0 <= i < |es|
      ensures Flying(cfg, s0, es[i], IsPrefill(last))
    {
      assert Flying(cfg, s, es[i], IsPrefill(last));
      FlyingInflight(cfg, s, s0, es[i], IsPrefill(last));
    }
  }

  lemma {:induction false} FlyingInflight(cfg: Config, s: Sched, s0: Sched, e: Entry, prefill: bool)
    requires Flying(cfg, s, e, prefill) && s0 == s.(inflight := s0.inflight)
    ensures Flying(cfg, s0, e, prefill)
  {
    hide ChunkUids;
  }

  /** The last step of a tick: acknowledgements and overlap window are cleared. */
  lemma {:induction false} EndTick(cfg: Config, s: Sched, f: Option<Flight>)
    requires Landed(cfg, Outside(s), LastEntries(f), s.finished) && Idle(s) <= Waiting(LastEntries(f))
    requires IsPrefill(f) ==> Waiting(LastEntries(f)) !! s.finished
    ensures OwnInv(cfg, s.(deferred := {}, acks := [], inflight := {}), f)
  {
    hide LInv, Waiting, ChunkUids, Uids, WaitOk;
    var s', fes := s.(deferred := {}, acks := [], inflight := {}), LastEntries(f);
    EndAway(cfg, s, s', fes);
    assert Away(Outside(s), fes) == Waiting(fes) * s.cache.held.Keys;
    LandingSame(cfg, Outside(s), s', fes, s.finished);
    forall i | 0 <= i < |fes|
      ensures Flying(cfg, s', fes[i], IsPrefill(f))
    {
      assert Landing(cfg, s', fes[i], s.finished);
      InUids(fes, i);
    }
  }

  lemma {:induction false} EndAway(cfg: Config, s: Sched, s': Sched, fes: seq<Entry>)
    requires LInv(cfg, Outside(s), s.pending, Away(Outside(s), fes)) && s' == Outside(s).(acks := [])
    ensures LInv(cfg, s', s'.pending, Away(Outside(s), fes))
  {
    hide RInv, QueueOk, RunningOk, HeadOk, ChunkUids, Away;
    RInvSameOf(cfg, Outside(s), s');
    LiveSame(cfg, Outside(s), s', Away(Outside(s), fes), Away(Outside(s), fes));
  }

  /** The state between post-processing and the release of what was aborted. */
  ghost predicate Settling(cfg: Config, s: Sched, done: set<int>, f: Option<Flight>) {
    var fes := LastEntries(f);
    && Landed(cfg, Outside(s), fes, done) && AllParked(cfg, s)
    && Idle(s) <= s.deferred + Waiting(fes) && s.deferred !! Waiting(fes)
    && (IsPrefill(f) ==> Waiting(fes) !! done)
  }

  lemma {:induction false} ProcessingEnds(cfg: Config, p: Post, f: Option<Flight>, prefill: bool)
    requires Processing(cfg, p, [], [], LastEntries(f), prefill)
             && (IsPrefill(f) ==> Waiting(LastEntries(f)) !! p.finished)
    ensures Settling(cfg, p.s, p.finished, f)
  {
    hide Landed, AllParked, Waiting, ChunkUids;
    LagEmpty(p.s.deferred);
    CaughtNone(p.s);
    NoWaiting();
  }

  /** With no batch to process the finished requests stay those of before. */
  lemma {:induction false} NothingProcessed(cfg: Config, s: Sched, f: Option<Flight>)
    requires Settling(cfg, s, {}, f)
    ensures Settling(cfg, s, s.finished, f)
  {
    hide RInv, QueueOk, RunningOk, HeadOk, ChunkUids, AllParked, WaitOk, Waiting;
    var fes := LastEntries(f);
    forall i | 0 <= i < |fes|
      ensures Landing(cfg, Outside(s), fes[i], s.finished)
    {
      assert Landing(cfg, Outside(s), fes[i], {});
    }
    forall u | u in Waiting(fes)
      ensures u !in s.finished
    {
      var i := WaitingOf(fes, u);
      assert Landing(cfg, Outside(s), fes[i], {});
    }
  }

  lemma {:induction false} HeardDeferred(s: Sched, last: Option<Flight>, i: Input, g: Stages)
    requires FInv(s, last) && StagesOk(s, last, i, g)
    ensures g.heard.deferred == Aborts(i.msgs) * LastUids(last) == g.post.s.deferred
    ensures g.heard.finished == s.finished == g.post.s.finished == g.launched.finished
            && g.launched.deferred == g.heard.deferred
    ensures last.Some? ==> g.post.finished <= Waiting(LastEntries(last)) - g.heard.deferred
  {
    hide Count, Aborts, Uids, Ctrl, Released, Waiting, PendingUids, Gone;
    assert {} + Aborts(i.msgs) * LastUids(last) == Aborts(i.msgs) * LastUids(last);
    assert last.Some? ==> g.post.finished - {} == g.post.finished;
  }

  lemma {:induction false} OnTime(s: Sched, last: Option<Flight>, msgs: seq<Msg>)
    requires !LateAbort(s, last, msgs)
    ensures Aborts(msgs) * LastUids(last) !! s.finished
  {
    hide Uids;
    forall u | u in Aborts(msgs) * LastUids(last)
      ensures u !in s.finished
    {
      assert u in Aborts(msgs) && u in LastUids(last);
    }
  }

  /** Messages, launch and post-processing of a tick. */
  lemma {:induction false} TickProcessed(cfg: Config, s: Sched, last: Option<Flight>, i: Input)
    requires FInv(s, last) && OwnInv(cfg, s, last) && OFresh(cfg, s, last, i.msgs)
    requires CanLaunch(cfg, StagesOf(cfg, s, last, i).heard, i)
    ensures var g := StagesOf(cfg, s, last, i); Settling(cfg, g.post.s, g.post.finished, g.flight)
  {
    hide OwnInv, Hearing, Processing, Settling, CanLaunch, StagesOk, Ctrl, Uids, Waiting, Launch, ProcessMsgs,
      ProcessEntries, ApplyEntries, AllFresh, Released, PlainIdle, DistinctEntries;
    var es, prefill, g := LastEntries(last), IsPrefill(last), StagesOf(cfg, s, last, i);
    TickIs(cfg, s, last, i);
    StartHearing(cfg, s, last);
    WithInflight(s, last);
    MsgsHear(cfg, s.(inflight := LastUids(last)), i.msgs, es, prefill);
    HeardOf(cfg, s, last, i);
    HeardCtrl(s, last, i, g);
    StartProcessing(cfg, g.heard, i, es, Tokens(last), prefill);
    HeardDeferred(s, last, i, g);
    var p := Post(g.launched, [], {});
    if last.Some? {
      EntriesProcessing(cfg, p, es, Tokens(last), LastEntries(g.flight), prefill);
      WaitingUids(LastEntries(g.flight));
      ProcessingEnds(cfg, g.post, g.flight, prefill);
    } else {
      ProcessingEnds(cfg, p, g.flight, prefill);
      NothingProcessed(cfg, g.launched, g.flight);
    }
  }

  lemma {:induction false} StartApplying(cfg: Config, s: Sched, done: set<int>, f: Option<Flight>, es: seq<Entry>)
    requires Settling(cfg, s, done, f) && s.deferred <= Uids(es) && s.deferred !! s.finished
    ensures Applying(cfg, s.(finished := done), es, {}, LastEntries(f))
  {
    hide Landed, Waiting, Uids, ChunkUids;
    RenewFinished(cfg, Outside(s), LastEntries(f), done);
    assert Outside(s).(finished := done) == Outside(s.(finished := done));
    assert s.deferred * Uids(es) - {} == s.deferred;
    forall u | u in s.deferred
      ensures Parked(s.(finished := done), u)
    {
      assert Parked(s, u);
    }
  }

  /** A tick whose aborts come in time keeps every page and every row with its one owner. */
  lemma {:induction false} OwnKeeps(cfg: Config, s: Sched, last: Option<Flight>, i: Input)
    requires FInv(s, last) && OwnInv(cfg, s, last) && OFresh(cfg, s, last, i.msgs) && !LateAbort(s, last, i.msgs)
    requires CanLaunch(cfg, StagesOf(cfg, s, last, i).heard, i)
    ensures var (s', f, replies) := OverlapTick(cfg, s, last, i); OwnInv(cfg, s', f)
  {
    hide OwnInv, Settling, CanLaunch, StagesOk, Ctrl, Uids, Waiting, Landed, Idle, OverlapTick, StagesOf, Released,
      PlainIdle, DistinctEntries, Aborts, OFresh, Applying;
    var g := StagesOf(cfg, s, last, i);
    TickStages(cfg, s, last, i);
    TickIs(cfg, s, last, i);
    TickProcessed(cfg, s, last, i);
    HeardDeferred(s, last, i, g);
    OnTime(s, last, i.msgs);
    StartApplying(cfg, g.post.s, g.post.finished, g.flight, LastEntries(last));
    StagesApply(cfg, s, last, i);
    ApplyAll(cfg, g.post.s.(finished := g.post.finished), LastEntries(last), {}, LastEntries(g.flight));
    StagesKeys(s, last, i, g);
    PrefillDone(cfg, g.post.s, g.post.finished, g.flight);
    EndTick(cfg, g.applied, g.flight);
  }

  lemma {:induction false} PrefillDone(cfg: Config, s: Sched, done: set<int>, f: Option<Flight>)
    requires Settling(cfg, s, done, f)
    ensures IsPrefill(f) ==> Waiting(LastEntries(f)) !! done
  {
    hide Landed, Waiting, Idle;
  }
}
