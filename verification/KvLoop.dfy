/** What attention reads under the overlap loop: the same as in KvRuns, with the tokens of the batch in flight appended
one tick later. */
module KvLoop {
  import opened Paging
  import opened CacheSpec
  import opened Requests
  import opened SchedSpec
  import opened SchedInv
  import opened SchedAdmit
  import opened SchedRound
  import opened SchedBatch
  import opened SchedForward
  import opened SchedPost
  import opened SchedRun
  import opened SchedMirror
  import opened Overlap
  import opened OverlapRun
  import opened OverlapLag
  import opened OverlapOwn
  import opened OverlapPages
  import opened OverlapSound
  import opened OverlapStream
  import opened OverlapMirror
  import opened SchedChunks
  import opened SchedReplies
  import SampledTokens
  import KvSlots
  import opened CachedPrefixes
  import opened KvCells
  import opened KvSteps
  import opened KvRuns

  // ---- messages

  lemma {:induction false} BusyInflight(cfg: Config, s: Sched, es: seq<Entry>, prefill: bool, u: int)
    requires Hearing(cfg, s, es, prefill) && u !in s.inflight
    ensures u !in Busy(s, es) && LInv(cfg, Outside(s), s.pending, Busy(s, es))
  {
    WaitingUids(es);
    hide LInv, AllFlying, AllParked, Waiting, Uids;
  }

  lemma {:induction false} HearRight(cfg: Config, s: Sched, m: Msg, es: seq<Entry>, prefill: bool, kv: Kv)
    requires Hearing(cfg, s, es, prefill) && KvRight(cfg, s, kv)
    ensures KvRight(cfg, ProcessMsg(cfg, s, m), kv)
  {
    hide Hearing, LInv, KvRight, Clamp, HandOver, DropPending, FindPending, Busy;
    var s' := ProcessMsg(cfg, s, m);
    if m.UserMsg? {
      KvSame(cfg, s, s', kv);
    } else if m.uid in s.inflight {
      DeferIs(cfg, s, m.uid);
      KvSame(cfg, s, s', kv);
    } else {
      BusyInflight(cfg, s, es, prefill, m.uid);
      AbortOutside(cfg, s, m.uid);
      KvSame(cfg, s, Outside(s), kv);
      AbortRight(cfg, Outside(s), m.uid, Busy(s, es), kv);
      KvSame(cfg, Outside(s'), s', kv);
    }
  }

  lemma {:induction false} HearAllRight(cfg: Config, s: Sched, msgs: seq<Msg>, es: seq<Entry>, prefill: bool, kv: Kv)
    requires Hearing(cfg, s, es, prefill) && Ctrl(s) && AllFresh(cfg, s, msgs) && KvRight(cfg, s, kv)
    ensures KvRight(cfg, ProcessMsgs(cfg, s, msgs), kv)
    decreases |msgs|
  {
    hide Hearing, Ctrl, Fresh, ProcessMsg, KvRight;
    if msgs != [] {
      OneCtrl(cfg, s, msgs[0]);
      MsgHears(cfg, s, msgs[0], es, prefill);
      HearRight(cfg, s, msgs[0], es, prefill, kv);
      HearAllRight(cfg, ProcessMsg(cfg, s, msgs[0]), msgs[1..], es, prefill, kv);
    }
  }

  // ---- launching

  lemma {:induction false} CaughtRight(cfg: Config, s: Sched, lag: map<int, int>, kv: Kv)
    requires KvRight(cfg, s, kv)
    ensures KvRight(cfg, Caught(s, lag), kv)
  {
    hide StoreRight, Right, Later;
    var t := Caught(s, lag);
    forall v | v in t.cache.held
      ensures RowRight(t, kv, v)
    {
      assert RowRight(s, kv, v);
      LaterGet(s.reqs, lag, v);
      var n := Get(s.reqs, v).cachedLen;
      assert Get(t.reqs, v).ids[..n] == Get(s.reqs, v).ids[..n];
    }
  }

  lemma {:induction false} ComputeSame(s: Sched, lag: map<int, int>, es: seq<Entry>, kv: Kv)
    ensures ComputeBatch(kv, Caught(s, lag), es) == ComputeBatch(kv, s, es)
    decreases |es|
  {
    hide ComputeRow, Later;
    if es != [] {
      LaterGet(s.reqs, lag, es[0].uid);
      var r := Get(s.reqs, es[0].uid);
      ComputeSame(s, lag, es[1..], ComputeRow(kv, RowOf(s, es[0].uid), PoolRow(s, es[0].uid), r.cachedLen,
        r.deviceLen));
    }
  }

  lemma {:induction false} KvLaunchSame(cfg: Config, s: Sched, lag: map<int, int>, i: Input, kv: Kv)
    requires Ctrl(s) && Unqueued(s.pending, lag) && lag.Keys <= s.reqs.Keys
    ensures KvLaunch(cfg, Caught(s, lag), i, kv) == KvLaunch(cfg, s, i, kv)
  {
    hide Caught, Schedule, Prepare, Ctrl, Unqueued, ComputeBatch;
    ScheduleSame(cfg, s, lag);
    var (s1, b) := Schedule(cfg, s);
    if b.Some? {
      PrepareSame(cfg, s1, lag, b.value, i.ev);
      ComputeSame(Prepare(cfg, s1, b.value, i.ev), lag, b.value.entries, kv);
    }
  }

  /** Launching from the state after the messages, whose lagging tokens are not appended yet. */
  lemma {:induction false} HeardRight(cfg: Config, s: Sched, es: seq<Entry>, tokens: seq<int>, prefill: bool, i: Input,
                                      kv: Kv)
    requires Hearing(cfg, s, es, prefill) && Ctrl(s) && DistinctEntries(es) && |tokens| == |es| && CanLaunch(cfg, s, i)
    requires Mirrors(Caught(s, LagOf(es, tokens, s.deferred)), SchedMirror.Active(s)) && KvRight(cfg, s, kv)
    ensures var lag, (s2, f) := LagOf(es, tokens, s.deferred), Launch(cfg, s, i);
            && KvRight(cfg, Caught(s2, lag), KvLaunch(cfg, s, i, kv))
            && var (s1, b) := Schedule(cfg, s);
               b.Some? ==> AllAttend(Prepare(cfg, s1, b.value, i.ev), b.value.entries, KvLaunch(cfg, s, i, kv))
  {
    hide Hearing, Launch, LInv, Waiting, Later, LagOf, Ctrl, CanPrepare, DistinctEntries, Aside, Unqueued, Mirrors,
      KvRight, KvLaunch, Schedule, Prepare, AllAttend, Live, Uids;
    var lag := LagOf(es, tokens, s.deferred);
    var t := Caught(s, lag);
    HeardCaught(cfg, s, es, tokens, prefill);
    CaughtRight(cfg, s, lag, kv);
    LaunchSame(cfg, s, lag, i);
    KvLaunchSame(cfg, s, lag, i, kv);
    ActiveLive(cfg, t, OverlapOwn.Idle(t));
    ActiveInflight(s, t);
    ScheduleSame(cfg, s, lag);
    LaunchRight(cfg, t, i, OverlapOwn.Idle(t), kv);
    var (s1, b) := Schedule(cfg, s);
    if b.Some? {
      PrepareSame(cfg, s1, lag, b.value, i.ev);
      AttendSame(Prepare(cfg, s1, b.value, i.ev), lag, b.value.entries, KvLaunch(cfg, s, i, kv));
    }
  }

  /** What a batch reads does not depend on the tokens on the host. */
  lemma {:induction false} AttendSame(s: Sched, lag: map<int, int>, es: seq<Entry>, kv: Kv)
    requires AllAttend(Caught(s, lag), es, kv)
    ensures AllAttend(s, es, kv)
  {
    hide Right, Later, RowAt;
    forall k | 0 <= k < |es|
      ensures Attends(s, kv, es[k].uid)
    {
      LaterGet(s.reqs, lag, es[k].uid);
      assert Attends(Caught(s, lag), kv, es[k].uid);
    }
  }

  // ---- post-processing

  /** An entry whose token is appended: the caught-up state stays right unless its hand-over is overtaken. */
  lemma {:induction false} TokenLoopRight(cfg: Config, p: Post, es: seq<Entry>, tokens: seq<int>, fes: seq<Entry>,
                                          prefill: bool, kv: Kv)
    requires |tokens| == |es| && Processing(cfg, p, es, tokens, fes, prefill) && es != [] && Handled(p.s, es[0])
    requires KvRight(cfg, Caught(p.s, LagOf(es, tokens, p.s.deferred)), kv)
    requires !Overtakes(cfg, p, prefill, es[0], tokens[0])
    ensures var s' := ProcessEntry(cfg, p, prefill, es[0], tokens[0]).s;
            KvRight(cfg, Caught(s', LagOf(es[1..], tokens[1..], s'.deferred)), kv)
  {
    hide LInv, AllLanding, DoneOk, Away, DistinctEntries, AllParked, AllToGo, Waiting, LagOf, Later, Release,
      KeepCached, ChunkUids, Uids, IsFinished, KvRight, OverlapOwn.Idle;
    var s, u, token := p.s, es[0].uid, tokens[0];
    var lag, rest := LagOf(es, tokens, s.deferred), LagOf(es[1..], tokens[1..], s.deferred);
    var t, s1 := Caught(s, lag), Appended(s, u, token);
    LagSplit(es, tokens, s.deferred);
    DistinctRest(es);
    LagKeys(es[1..], tokens[1..], s.deferred);
    WaitingUids(es[1..]);
    FirstToGo(s, t, es, prefill);
    LaterGet(s.reqs, lag, u);
    CaughtAppended(s, rest, u, token);
    HeldCache(cfg, t, Away(t, fes));
    var r := Get(t.reqs, u);
    if IsFinished(cfg, r, token) && u !in s.finished {
      EndCaught(cfg, s1, rest, u);
      EndFields(cfg, s1, u);
      var t1 := t.(running := t.running - {u});
      RInvSameOf(cfg, t, t1);
      KvSame(cfg, t, t1, kv);
      ReleaseRight(cfg, t1, kv, u);
    } else if prefill {
      KeepCaught(cfg, s1, rest, u);
      KeepFrame(cfg, s1, u);
      OvertakenSame(cfg, s1, t, u);
      KeepRight(cfg, t, kv, u);
    }
  }

  lemma {:induction false} OvertakenSame(cfg: Config, s: Sched, t: Sched, u: int)
    requires t.cache == s.cache && Get(t.reqs, u) == Get(s.reqs, u)
    ensures Overtaken(cfg, t, u) <==> Overtaken(cfg, s, u)
  {
  }

  lemma {:induction false} EntriesLoopRight(cfg: Config, p: Post, es: seq<Entry>, tokens: seq<int>, fes: seq<Entry>,
                                            prefill: bool, kv: Kv)
    requires |tokens| == |es| && Processing(cfg, p, es, tokens, fes, prefill)
    requires KvRight(cfg, Caught(p.s, LagOf(es, tokens, p.s.deferred)), kv)
    requires !Overtaking(cfg, p, prefill, es, tokens)
    ensures KvRight(cfg, Outside(ProcessEntries(cfg, p, prefill, es, tokens).s), kv)
    decreases |es|
  {
    hide Processing, ProcessEntry, KvRight, Overtakes, LagOf, Caught;
    if es == [] {
      LagEmpty(p.s.deferred);
      CaughtNone(p.s);
    } else {
      EntryProcessing(cfg, p, es, tokens, fes, prefill);
      if Handled(p.s, es[0]) {
        TokenLoopRight(cfg, p, es, tokens, fes, prefill, kv);
      } else {
        SkipIs(cfg, p, prefill, es[0], tokens[0]);
        LagSplit(es, tokens, p.s.deferred);
      }
      EntriesLoopRight(cfg, ProcessEntry(cfg, p, prefill, es[0], tokens[0]), es[1..], tokens[1..], fes, prefill, kv);
    }
  }

  // ---- deferred aborts

  lemma {:induction false} ApplyOneRight(cfg: Config, s: Sched, es: seq<Entry>, done: set<int>, fes: seq<Entry>, kv: Kv)
    requires Applying(cfg, s, es, done, fes) && es != [] && es[0].uid in s.deferred && es[0].uid !in done
    requires KvRight(cfg, Outside(s), kv)
    ensures var s1 := Release(cfg, s, es[0].uid);
            KvRight(cfg, Outside(s1.(acks := s1.acks + [es[0].uid])), kv)
  {
    hide LInv, Waiting, ChunkUids, Release, Uids, KvRight, Away, AllLanding, DoneOk, OverlapOwn.Idle;
    var u := es[0].uid;
    UidsSplit(es);
    assert Parked(s, u);
    HeldCache(cfg, Outside(s), Away(Outside(s), fes));
    ReleaseRight(cfg, Outside(s), kv, u);
    ReleasedOutside(cfg, s, u);
    var s1 := Release(cfg, s, u);
    DropNothing(cfg, s, u);
    KvSame(cfg, Release(cfg, Outside(s), u), Outside(s1.(acks := s1.acks + [u])), kv);
  }

  lemma {:induction false} DropNothing(cfg: Config, s: Sched, u: int)
    requires u !in s.running
    ensures Dropped(cfg, Outside(s), u) == Release(cfg, Outside(s), u)
  {
    hide HandOver;
    assert s.running - {u} == s.running;
    assert Outside(s).(running := s.running) == Outside(s);
  }

  lemma {:induction false} ApplyRight(cfg: Config, s: Sched, es: seq<Entry>, done: set<int>, fes: seq<Entry>, kv: Kv)
    requires Applying(cfg, s, es, done, fes) && KvRight(cfg, Outside(s), kv)
    ensures KvRight(cfg, Outside(ApplyEntries(cfg, s, es, done)), kv)
    decreases |es|
  {
    hide Landed, Waiting, ChunkUids, Release, Uids, Parked, OverlapOwn.Idle, KvRight;
    if es != [] {
      UidsSplit(es);
      var u := es[0].uid;
      if u in s.deferred && u !in done {
        var s1 := Release(cfg, s, u);
        ApplyStep(cfg, s, es, done, fes);
        ApplyOneRight(cfg, s, es, done, fes, kv);
        ApplyRight(cfg, s1.(acks := s1.acks + [u]), es[1..], done + {u}, fes, kv);
      } else {
        ApplyRight(cfg, s, es[1..], done, fes, kv);
      }
    }
  }

  // ---- ticks

  /** The memory after a tick. */
  ghost function KvLoopTick(cfg: Config, s: Sched, last: Option<Flight>, i: Input, kv: Kv): Kv {
    KvLaunch(cfg, ProcessMsgs(cfg, s.(inflight := LastUids(last)), i.msgs), i, kv)
  }

  /** A hand-over of the batch processed in the tick is overtaken. */
  ghost predicate LoopOvertakes(cfg: Config, s: Sched, last: Option<Flight>, i: Input) {
    && last.Some? && |last.value.tokens| == |last.value.batch.entries|
    && Overtaking(cfg, Post(Launch(cfg, ProcessMsgs(cfg, s.(inflight := LastUids(last)), i.msgs), i).0, [], {}),
                  last.value.batch.prefill, last.value.batch.entries, last.value.tokens)
  }

  /** The state after the messages: its rows are right, and the pool mirrors it once it has caught up. */
  lemma {:induction false} HeardState(cfg: Config, s: Sched, last: Option<Flight>, i: Input, kv: Kv)
    requires FInv(s, last) && OwnInv(cfg, s, last) && Fits(cfg, s, last, i) && LoopMirrors(s, last)
    requires KvRight(cfg, s, kv)
    ensures var h := ProcessMsgs(cfg, s.(inflight := LastUids(last)), i.msgs);
            && DistinctEntries(LastEntries(last)) && |OverlapOwn.Tokens(last)| == |LastEntries(last)|
            && Hearing(cfg, h, LastEntries(last), IsPrefill(last)) && Ctrl(h) && CanLaunch(cfg, h, i)
            && Mirrors(Caught(h, LagOf(LastEntries(last), OverlapOwn.Tokens(last), h.deferred)), SchedMirror.Active(h))
            && KvRight(cfg, h, kv)
  {
    hide FInv, OwnInv, Hearing, CanLaunch, OFresh, ProcessMsgs, Uids, DistinctEntries, DistinctUids, Ctrl, StagesOk,
      SchedMirror.Active, LagOf, Later, Mirrors, KvRight, StagesOf, AllFresh;
    var s0 := s.(inflight := LastUids(last));
    FlightShape(s, last);
    WithInflight(s, last);
    HeardOf(cfg, s, last, i);
    HeardReady(cfg, s, last, i);
    TickIs(cfg, s, last, i);
    FreshNow(cfg, s, last, i);
    MsgsActive(cfg, s0, i.msgs);
    ActiveInflight(s, s0);
    DeferredInactive(s, last, i, StagesOf(cfg, s, last, i));
    HeardMirrors(s, StagesOf(cfg, s, last, i).heard, last);
    StartHearing(cfg, s, last);
    KvSame(cfg, s, s0, kv);
    HearAllRight(cfg, s0, i.msgs, LastEntries(last), IsPrefill(last), kv);
  }

  /** Launch and post-processing of a tick. */
  lemma {:induction false} ProcessedRight(cfg: Config, s: Sched, last: Option<Flight>, i: Input, kv: Kv)
    requires FInv(s, last) && OwnInv(cfg, s, last) && Fits(cfg, s, last, i) && LoopMirrors(s, last)
    requires KvRight(cfg, s, kv) && !LoopOvertakes(cfg, s, last, i)
    requires last.Some? ==> |last.value.tokens| == |last.value.batch.entries|
    ensures KvRight(cfg, Outside(StagesOf(cfg, s, last, i).post.s), KvLoopTick(cfg, s, last, i, kv))
  {
    hide FInv, OwnInv, Hearing, CanLaunch, OFresh, ProcessMsgs, Launch, ProcessEntries, ApplyEntries, Uids,
      DistinctEntries, Ctrl, LagOf, Later, Mirrors, KvRight, KvLaunch, Processing, Overtaking, Waiting, LoopMirrors,
      Fits, SchedMirror.Active, Schedule, Prepare, AllAttend;
    var h, kv' := ProcessMsgs(cfg, s.(inflight := LastUids(last)), i.msgs), KvLoopTick(cfg, s, last, i, kv);
    var es, tokens, prefill := LastEntries(last), OverlapOwn.Tokens(last), IsPrefill(last);
    HeardState(cfg, s, last, i, kv);
    HeardRight(cfg, h, es, tokens, prefill, i, kv);
    StartProcessing(cfg, h, i, es, tokens, prefill);
    var (s2, f) := Launch(cfg, h, i);
    LaunchIs(cfg, h, i);
    LaunchKept(h, s2, f);
    if last.Some? {
      EntriesLoopRight(cfg, Post(s2, [], {}), es, tokens, LastEntries(f), prefill, kv');
    } else {
      LagEmpty(h.deferred);
      CaughtNone(s2);
    }
  }

  /** A tick whose aborts come in time and whose hand-overs are not overtaken keeps the cells right. */
  lemma {:induction false} LoopTickRight(cfg: Config, s: Sched, last: Option<Flight>, i: Input, kv: Kv)
    requires FInv(s, last) && OwnInv(cfg, s, last) && Fits(cfg, s, last, i) && !LateAbort(s, last, i.msgs)
    requires LoopMirrors(s, last) && KvRight(cfg, s, kv) && !LoopOvertakes(cfg, s, last, i)
    ensures KvRight(cfg, OverlapTick(cfg, s, last, i).0, KvLoopTick(cfg, s, last, i, kv))
  {
    hide FInv, OwnInv, Settling, CanLaunch, StagesOk, Ctrl, Uids, Waiting, Landed, OverlapOwn.Idle, OverlapTick,
      StagesOf, Released, PlainIdle, DistinctEntries, Aborts, OFresh, Applying, KvRight, KvLoopTick, LoopOvertakes,
      LoopMirrors, ProcessMsgs, ApplyEntries, LateAbort;
    FlightShape(s, last);
    var g, kv' := StagesOf(cfg, s, last, i), KvLoopTick(cfg, s, last, i, kv);
    FitsFresh(cfg, s, last, i);
    TickStages(cfg, s, last, i);
    HeardOf(cfg, s, last, i);
    TickIs(cfg, s, last, i);
    TickProcessed(cfg, s, last, i);
    HeardDeferred(s, last, i, g);
    OnTime(s, last, i.msgs);
    StartApplying(cfg, g.post.s, g.post.finished, g.flight, LastEntries(last));
    StagesApply(cfg, s, last, i);
    ProcessedRight(cfg, s, last, i, kv);
    var s3 := g.post.s.(finished := g.post.finished);
    KvSame(cfg, Outside(g.post.s), Outside(s3), kv');
    ApplyRight(cfg, s3, LastEntries(last), {}, LastEntries(g.flight), kv');
    KvSame(cfg, Outside(g.applied), OverlapTick(cfg, s, last, i).0, kv');
  }

  // ---- runs

  ghost function KvLoopAfter(cfg: Config, ins: seq<Input>): Kv
    decreases |ins|
  {
    if ins == [] then map[]
    else
      var l := LoopAfter(cfg, ins[..|ins| - 1]);
      KvLoopTick(cfg, l.s, l.last, ins[|ins| - 1], KvLoopAfter(cfg, ins[..|ins| - 1]))
  }

  ghost predicate LoopNeverOvertaken(cfg: Config, ins: seq<Input>)
    decreases |ins|
  {
    ins != [] ==>
      var l := LoopAfter(cfg, ins[..|ins| - 1]);
      LoopNeverOvertaken(cfg, ins[..|ins| - 1]) && !LoopOvertakes(cfg, l.s, l.last, ins[|ins| - 1])
  }

  lemma {:induction false} KvStep(cfg: Config, ins: seq<Input>, i: Input)
    ensures var l := LoopAfter(cfg, ins);
            && KvLoopAfter(cfg, ins + [i]) == KvLoopTick(cfg, l.s, l.last, i, KvLoopAfter(cfg, ins))
            && (LoopNeverOvertaken(cfg, ins + [i]) <==>
                  LoopNeverOvertaken(cfg, ins) && !LoopOvertakes(cfg, l.s, l.last, i))
  {
    hide KvLoopTick, LoopOvertakes, LoopAfter;
    var all := ins + [i];
    assert all[..|all| - 1] == ins && all[|all| - 1] == i;
  }

  lemma {:induction false} LoopRight(cfg: Config, ins: seq<Input>)
    requires IsServed(cfg, ins) && Timely(cfg, ins) && LoopNeverOvertaken(cfg, ins)
    ensures KvRight(cfg, LoopAfter(cfg, ins).s, KvLoopAfter(cfg, ins))
    decreases |ins|
  {
    hide FInv, OwnInv, Fits, LateAbort, OverlapTick, IsServed, Timely, LoopAfter, KvRight, KvLoopTick, LoopOvertakes,
      LoopMirrors, InitState, StagesOf, ProcessMsgs;
    if ins == [] {
      StartRight(cfg);
      LoopStart(cfg);
    } else {
      var was, i := ins[..|ins| - 1], ins[|ins| - 1];
      var l := LoopAfter(cfg, was);
      assert was + [i] == ins;
      LoopStep(cfg, was, i);
      KvStep(cfg, was, i);
      TickFits(cfg, was, i);
      RunMirrors(cfg, was);
      LoopRight(cfg, was);
      LoopTickRight(cfg, l.s, l.last, i, KvLoopAfter(cfg, was));
    }
  }

  lemma {:induction false} LoopStart(cfg: Config)
    ensures LoopAfter(cfg, []).s == InitState(cfg) && LoopAfter(cfg, []).last == None
  {
    hide InitState;
  }

  /** How far a running request is between ticks: all its host tokens but the last, and that too while it is in flight.
  */
  lemma {:induction false} RunningLength(cfg: Config, s: Sched, last: Option<Flight>, u: int)
    requires FInv(s, last) && OwnInv(cfg, s, last) && u in s.running
    ensures var r := Get(s.reqs, u);
            && u in s.cache.held && u in s.reqs && !r.chunked && r.cachedLen + 1 == |r.ids| + InFlight(last, u)
  {
    hide RInv, QueueOk, HeadOk, DoneOk, ChunkUids, Waiting, Uids, DistinctEntries, Ctrl, PlainIdle;
    if u in Waiting(LastEntries(last)) {
      var k := WaitingOf(LastEntries(last), u);
      assert Flying(cfg, s, LastEntries(last)[k], IsPrefill(last));
      assert WaitOk(cfg, s, LastEntries(last)[k]);
    } else {
      assert RunOk(cfg, s, u);
    }
  }

  /** Over every run of the overlap loop whose aborts came in time, without an overtaken hand-over: each stored prefix
  holds the cells of its tokens computed alone, and so does the computed part of every running request's row, for its
  prompt and replies. */
  lemma {:induction false} LoopTransparent(cfg: Config, ins: seq<Input>, u: int)
    requires IsServed(cfg, ins) && Timely(cfg, ins) && LoopNeverOvertaken(cfg, ins)
    ensures var l, kv := LoopAfter(cfg, ins), KvLoopAfter(cfg, ins);
            var host, n := PromptOf(cfg, ins, u) + SaidTokens(LoopStream(cfg, ins, u)), Get(l.s.reqs, u).cachedLen;
            && (forall p | p in l.s.cache.store :: ReadSlots(kv, l.s.cache.store[p]) == Alone(p))
            && (u in l.s.running ==>
                  && n == |host| - 1 + InFlight(l.last, u) && n <= |host|
                  && ReadSlots(kv, Upto(RowOf(l.s, u), n)) == Alone(host[..n]))
  {
    hide FInv, OwnInv, LoopAfter, KvLoopAfter, LoopNeverOvertaken, PromptOf, LoopStream, IsServed, Timely, IsLoop,
      Alone, ReadSlots, KvSlots.Attached, RowOf, KvSlots.PagesWhole, InFlight, Marks, Relaunched, Lined, Closing;
    LoopRight(cfg, ins);
    ServedLoop(cfg, ins);
    LoopControl(cfg, ins);
    LoopOwns(cfg, ins);
    var l, kv := LoopAfter(cfg, ins), KvLoopAfter(cfg, ins);
    forall p | p in l.s.cache.store
      ensures ReadSlots(kv, l.s.cache.store[p]) == Alone(p)
    {
      assert EntryRight(kv, l.s.cache.store, p);
    }
    if u in l.s.running {
      RunningLength(cfg, l.s, l.last, u);
      StreamRun(cfg, ins, u);
      assert RowRight(l.s, kv, u);
    }
  }

  /** And in every tick, each request of the launched batch attends to the cells of its own tokens. */
  lemma {:induction false} LoopBatchTransparent(cfg: Config, ins: seq<Input>, i: Input, k: nat)
    requires IsServed(cfg, ins + [i]) && Timely(cfg, ins) && LoopNeverOvertaken(cfg, ins)
    requires var l := LoopAfter(cfg, ins);
             var b := SampledTokens.NextBatch(cfg, l.s.(inflight := LastUids(l.last)), i.msgs);
             b.Some? && k < |b.value.entries|
    ensures var l := LoopAfter(cfg, ins);
            var (s1, b) := Schedule(cfg, ProcessMsgs(cfg, l.s.(inflight := LastUids(l.last)), i.msgs));
            Attends(Prepare(cfg, s1, b.value, i.ev), KvLoopAfter(cfg, ins + [i]), b.value.entries[k].uid)
  {
    hide FInv, OwnInv, Fits, LoopAfter, KvLoopAfter, LoopNeverOvertaken, IsServed, Timely, KvRight, LoopMirrors,
      Hearing, CanLaunch, ProcessMsgs, Schedule, Prepare, Ctrl, Mirrors, SchedMirror.Active, LagOf, Later,
      DistinctEntries, KvLaunch, Attends, StagesOf, Uids, LoopOvertakes;
    var l := LoopAfter(cfg, ins);
    TickFits(cfg, ins, i);
    RunMirrors(cfg, ins);
    LoopRight(cfg, ins);
    KvStep(cfg, ins, i);
    HeardState(cfg, l.s, l.last, i, KvLoopAfter(cfg, ins));
    HeardRight(cfg, ProcessMsgs(cfg, l.s.(inflight := LastUids(l.last)), i.msgs), LastEntries(l.last),
      OverlapOwn.Tokens(l.last), IsPrefill(l.last), i, KvLoopAfter(cfg, ins));
  }

  // ---- pages that are read though they are free

  lemma {:induction false} EntryLoopReads(cfg: Config, p: Post, es: seq<Entry>, tokens: seq<int>, fes: seq<Entry>)
    returns (j: nat)
    requires |tokens| == |es| && Processing(cfg, p, es, tokens, fes, true) && es != []
    requires Overtakes(cfg, p, true, es[0], tokens[0])
    ensures ReadsFree(cfg, ProcessEntry(cfg, p, true, es[0], tokens[0]).s, es[0].uid, j)
  {
    hide LInv, AllLanding, DoneOk, Away, DistinctEntries, AllParked, AllToGo, Waiting, LagOf, Later, HandOver,
      ChunkUids, Uids, IsFinished, OverlapOwn.Idle, Overtaken, Locked, RowAt;
    var s, u, token := p.s, es[0].uid, tokens[0];
    var lag, rest := LagOf(es, tokens, s.deferred), LagOf(es[1..], tokens[1..], s.deferred);
    var t, s1 := Caught(s, lag), Appended(s, u, token);
    LagSplit(es, tokens, s.deferred);
    DistinctRest(es);
    LagKeys(es[1..], tokens[1..], s.deferred);
    WaitingUids(es[1..]);
    FirstToGo(s, t, es, true);
    LaterGet(s.reqs, lag, u);
    CaughtAppended(s, rest, u, token);
    HeldCache(cfg, t, Away(t, fes));
    Unfinished(cfg, Get(t.reqs, u), token);
    OvertakenSame(cfg, s1, t, u);
    OvertakenFrees(cfg, t, u);
    j := |Locked(t.cache, u)|;
  }

  lemma {:induction false} ProcessingCache(cfg: Config, p: Post, es: seq<Entry>, tokens: seq<int>, fes: seq<Entry>,
                                           prefill: bool)
    requires |tokens| == |es| && Processing(cfg, p, es, tokens, fes, prefill)
    ensures CacheOk(p.s.cache, cfg.ps) && DistinctEntries(es)
  {
    hide LInv, AllLanding, DoneOk, Away, AllParked, AllToGo, Waiting, LagOf, Later, OverlapOwn.Idle, CacheOk,
      DistinctEntries;
    var t := Caught(p.s, LagOf(es, tokens, p.s.deferred));
    HeldCache(cfg, t, Away(t, fes));
  }

  lemma {:induction false} OvertakingLoopReads(cfg: Config, p: Post, prefill: bool, es: seq<Entry>, tokens: seq<int>,
                                               fes: seq<Entry>)
    returns (u: int, j: nat)
    requires |tokens| == |es| && Processing(cfg, p, es, tokens, fes, prefill) && Named(p.s.reqs)
    requires Overtaking(cfg, p, prefill, es, tokens)
    ensures ReadsFree(cfg, ProcessEntries(cfg, p, prefill, es, tokens).s, u, j) && u !in p.s.deferred
    decreases |es|
  {
    hide Processing, ProcessEntry, Named, DistinctEntries, Waiting, Uids, ReadsFree, Grown, Overtaken;
    var p1 := ProcessEntry(cfg, p, prefill, es[0], tokens[0]);
    ProcessingCache(cfg, p, es, tokens, fes, prefill);
    DistinctRest(es);
    EntryProcessing(cfg, p, es, tokens, fes, prefill);
    EntryGrows(cfg, p, prefill, es[0], tokens[0]);
    PostSame(cfg, p.s, p1.s, if Handled(p.s, es[0]) then {es[0].uid} else {});
    if Overtakes(cfg, p, prefill, es[0], tokens[0]) {
      u := es[0].uid;
      j := EntryLoopReads(cfg, p, es, tokens, fes);
      EntriesGrow(cfg, p1, prefill, es[1..], tokens[1..]);
      WaitingUids(es[1..]);
      ReadsOn(cfg, p1.s, ProcessEntries(cfg, p, prefill, es, tokens).s, Waiting(es[1..]) - p1.s.deferred, u, j);
    } else {
      u, j := OvertakingLoopReads(cfg, p1, prefill, es[1..], tokens[1..], fes);
    }
  }

  lemma {:induction false} LoopTickReads(cfg: Config, s: Sched, last: Option<Flight>, i: Input)
    requires FInv(s, last) && OwnInv(cfg, s, last) && Fits(cfg, s, last, i) && Named(s.reqs)
    requires LoopOvertakes(cfg, s, last, i)
    ensures !SafeReads(cfg, OverlapTick(cfg, s, last, i).0)
  {
    hide OwnInv, Hearing, CanLaunch, StagesOk, Ctrl, Uids, Launch, ProcessMsgs, ProcessEntries, ApplyEntries, AllFresh,
      Named, DistinctEntries, Processing, Overtaking, ReadsFree, Waiting, Grown, OverlapTick, PlainIdle, CacheOk;
    FlightShape(s, last);
    var es, prefill, g := LastEntries(last), IsPrefill(last), StagesOf(cfg, s, last, i);
    var s0 := s.(inflight := LastUids(last));
    TickStages(cfg, s, last, i);
    TickIs(cfg, s, last, i);
    StartHearing(cfg, s, last);
    WithInflight(s, last);
    MsgsHear(cfg, s0, i.msgs, es, prefill);
    MsgsActive(cfg, s0, i.msgs);
    HeardOf(cfg, s, last, i);
    HeardCtrl(s, last, i, g);
    StartProcessing(cfg, g.heard, i, es, OverlapOwn.Tokens(last), prefill);
    LaunchNames(cfg, g.heard, i);
    var p := Post(g.launched, [], {});
    var u, j := OvertakingLoopReads(cfg, p, prefill, es, OverlapOwn.Tokens(last), LastEntries(g.flight));
    ProcessingCache(cfg, p, es, OverlapOwn.Tokens(last), LastEntries(g.flight), prefill);
    EntriesGrow(cfg, p, prefill, es, OverlapOwn.Tokens(last));
    PostSame(cfg, g.launched, g.post.s, Waiting(es) - g.launched.deferred);
    StagesApply(cfg, s, last, i);
    var s3 := g.post.s.(finished := g.post.finished);
    StillReads(cfg, g.post.s, s3, u, j);
    ApplyGrows(cfg, s3, es, {});
    ReadsOn(cfg, s3, g.applied, s3.deferred, u, j);
    StillReads(cfg, g.applied, OverlapTick(cfg, s, last, i).0, u, j);
  }

  ghost predicate LoopAlwaysSafe(cfg: Config, ins: seq<Input>) {
    forall n: nat {:trigger ins[..n]} | n <= |ins| :: SafeReads(cfg, LoopAfter(cfg, ins[..n]).s)
  }

  lemma {:induction false} LoopSafeStep(cfg: Config, ins: seq<Input>, i: Input)
    ensures LoopAlwaysSafe(cfg, ins + [i]) <==> LoopAlwaysSafe(cfg, ins) && SafeReads(cfg, LoopAfter(cfg, ins + [i]).s)
  {
    hide LoopAfter, SafeReads;
    var all := ins + [i];
    assert all[..|all|] == all;
    forall n: nat | n <= |ins|
      ensures all[..n] == ins[..n]
    {
    }
  }

  lemma {:induction false} LoopSafe(cfg: Config, ins: seq<Input>)
    requires IsServed(cfg, ins) && Timely(cfg, ins) && LoopNeverOvertaken(cfg, ins)
    ensures SafeReads(cfg, LoopAfter(cfg, ins).s)
  {
    hide FInv, OwnInv, LoopAfter, KvRight, SafeReads, IsServed, Timely, LoopNeverOvertaken, RInv;
    var l := LoopAfter(cfg, ins);
    ServedLoop(cfg, ins);
    LoopControl(cfg, ins);
    LoopOwns(cfg, ins);
    LoopRight(cfg, ins);
    OwnRes(cfg, l.s, l.last);
    forall u | u in l.s.running
      ensures u in l.s.cache.held
    {
      RunningLength(cfg, l.s, l.last, u);
    }
    RightSafe(cfg, l.s, KvLoopAfter(cfg, ins));
  }

  /** Over runs of the overlap loop whose aborts come in time: no running request ever reads a free page exactly when no
  hand-over of a request that goes on was overtaken. */
  lemma {:induction false} LoopSafeExactly(cfg: Config, ins: seq<Input>)
    requires IsServed(cfg, ins) && Timely(cfg, ins)
    ensures LoopAlwaysSafe(cfg, ins) <==> LoopNeverOvertaken(cfg, ins)
    decreases |ins|
  {
    hide FInv, OwnInv, Fits, LateAbort, OverlapTick, IsServed, IsLoop, Timely, LoopAfter, LoopOvertakes, SafeReads,
      Named, LoopAlwaysSafe, StagesOf, ProcessMsgs;
    if ins == [] {
      LoopSafe(cfg, ins);
      OnlyStart(cfg);
    } else {
      var was, i := ins[..|ins| - 1], ins[|ins| - 1];
      var l := LoopAfter(cfg, was);
      assert ins == was + [i];
      LoopStep(cfg, was, i);
      KvStep(cfg, was, i);
      TickFits(cfg, was, i);
      LoopSafeExactly(cfg, was);
      LoopSafeStep(cfg, was, i);
      ServedLoop(cfg, was);
      LoopNamed(cfg, was);
      if LoopOvertakes(cfg, l.s, l.last, i) {
        LoopTickReads(cfg, l.s, l.last, i);
      }
      if LoopNeverOvertaken(cfg, ins) {
        LoopSafe(cfg, ins);
      }
    }
  }

  lemma {:induction false} OnlyStart(cfg: Config)
    requires SafeReads(cfg, LoopAfter(cfg, []).s)
    ensures LoopAlwaysSafe(cfg, [])
  {
    hide SafeReads, LoopAfter;
    var none: seq<Input> := [];
    forall n: nat | n <= |none|
      ensures SafeReads(cfg, LoopAfter(cfg, none[..n]).s)
    {
      assert none[..n] == none;
    }
  }
}
