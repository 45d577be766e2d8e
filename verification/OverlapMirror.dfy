/** The device mirror under the overlap loop: between ticks the pool row of a running request starts with its host
tokens followed, for a request in flight, by the sampled token that is still to be appended on the host. */
module OverlapMirror {
  import opened Paging
  import opened Requests
  import opened SchedSpec
  import opened SchedInv
  import opened SchedAdmit
  import opened SchedRound
  import opened SchedBatch
  import opened SchedForward
  import opened SchedPost
  import opened SchedRun
  import opened SchedMirror
  import opened Overlap
  import opened OverlapRun
  import opened OverlapLag
  import opened OverlapOwn
  import opened OverlapPages
  import opened OverlapSound

  /** The tokens of the batch in flight that are still to be appended. */
  ghost function LastLag(last: Option<Flight>): map<int, int> {
    if last.Some? && |last.value.tokens| == |last.value.batch.entries|
    then LagOf(last.value.batch.entries, last.value.tokens, {})
    else map[]
  }

  /** The pool mirrors the requests with these tokens appended. */
  ghost predicate LoopMirrors(s: Sched, last: Option<Flight>) {
    Mirrors(Caught(s, LastLag(last)), Active(s))
  }

  // ---- messages

  lemma {:induction false} MsgActive(cfg: Config, s: Sched, m: Msg)
    requires Ctrl(s)
    ensures var s' := ProcessMsg(cfg, s, m); s'.reqs == s.reqs && s'.pool == s.pool && Active(s') <= Active(s)
  {
    hide HandOver, DropPending, FindPending, ChunkUids, Clamp, DistinctUids, PendingUids;
    if m.UserMsg? {
      var params := if |m.ids| < cfg.maxSeqLen then Clamp(cfg, m.params, |m.ids|) else m.params;
      ChunkUidsAppend(s.pending, Pending(m.uid, m.ids, params, false));
    } else {
      DropChunks(s.pending, m.uid);
    }
  }

  lemma {:induction false} MsgsActive(cfg: Config, s: Sched, msgs: seq<Msg>)
    requires Ctrl(s) && AllFresh(cfg, s, msgs)
    ensures var s' := ProcessMsgs(cfg, s, msgs); s'.reqs == s.reqs && s'.pool == s.pool && Active(s') <= Active(s)
    decreases |msgs|
  {
    hide Ctrl, Fresh, ProcessMsg, Active;
    if msgs != [] {
      OneCtrl(cfg, s, msgs[0]);
      MsgActive(cfg, s, msgs[0]);
      MsgsActive(cfg, ProcessMsg(cfg, s, msgs[0]), msgs[1..]);
    }
  }

  /** A request whose abort was deferred is neither running nor queued. */
  lemma {:induction false} DeferredInactive(s: Sched, last: Option<Flight>, i: Input, g: Stages)
    requires FInv(s, last) && StagesOk(s, last, i, g)
    ensures Active(g.heard) !! g.heard.deferred
  {
    hide Aborts, Uids, Ctrl, Released, Waiting, PendingUids, Launched, Processed, Applied, DistinctEntries,
      DistinctUids, ChunkUids;
    forall u | u in g.heard.deferred
      ensures u !in Active(g.heard)
    {
      assert u in Aborts(i.msgs) && Gone(g.heard, u);
      ChunksQueuedUids(g.heard.pending, u);
    }
  }

  lemma {:induction false} Undropped(es: seq<Entry>, tokens: seq<int>, dropped: set<int>, u: int)
    requires |tokens| == |es| && u !in dropped
    ensures var a, b := LagOf(es, tokens, dropped), LagOf(es, tokens, {});
            (u in a <==> u in b) && (u in a ==> a[u] == b[u])
    decreases |es|
  {
    if es != [] {
      Undropped(es[1..], tokens[1..], dropped, u);
    }
  }

  lemma {:induction false} HeardMirrors(s: Sched, s0: Sched, last: Option<Flight>)
    requires LoopMirrors(s, last) && s0.reqs == s.reqs && s0.pool == s.pool && Active(s0) <= Active(s)
    requires Active(s0) !! s0.deferred && |Tokens(last)| == |LastEntries(last)|
    ensures Mirrors(Caught(s0, LagOf(LastEntries(last), Tokens(last), s0.deferred)), Active(s0))
  {
    hide Active, LagOf, Later, Mirror;
    var es, tokens := LastEntries(last), Tokens(last);
    LagEmpty({});
    forall u | u in Active(s0)
      ensures Mirror(Caught(s0, LagOf(es, tokens, s0.deferred)), u)
    {
      Undropped(es, tokens, s0.deferred, u);
      SameLater(s.reqs, LagOf(es, tokens, {}), LagOf(es, tokens, s0.deferred), u);
      assert Mirror(Caught(s, LastLag(last)), u);
      MirrorSame(Caught(s, LastLag(last)), Caught(s0, LagOf(es, tokens, s0.deferred)), u);
    }
  }

  lemma {:induction false} SameLater(reqs: map<int, Req>, a: map<int, int>, b: map<int, int>, u: int)
    requires (u in a <==> u in b) && (u in a ==> a[u] == b[u])
    ensures Get(Later(reqs, a), u) == Get(Later(reqs, b), u)
  {
  }

  // ---- launching

  lemma {:induction false} LagAt(es: seq<Entry>, tokens: seq<int>, i: nat)
    requires |tokens| == |es| && DistinctEntries(es) && i < |es| && !es[i].chunked
    ensures var lag := LagOf(es, tokens, {}); es[i].uid in lag && lag[es[i].uid] == tokens[i]
    decreases |es|
  {
    hide Uids, Waiting, DistinctEntries;
    DistinctRest(es);
    if i > 0 {
      InUids(es[1..], i - 1);
      LagAt(es[1..], tokens[1..], i - 1);
    }
  }

  lemma {:induction false} AheadCaught(s: Sched, lag: map<int, int>, u: int)
    requires if u in lag then u in s.reqs && Ahead(s, u, lag[u]) else Mirror(s, u)
    ensures Mirror(Caught(s, lag), u)
  {
    LaterGet(s.reqs, lag, u);
  }

  lemma {:induction false} LaunchedMirrors(cfg: Config, t: Sched, t2: Sched, f: Option<Flight>, others: set<int>)
    requires f.Some? && Launching(cfg, t, t2, f, others) && DistinctEntries(LastEntries(f))
    requires Awaiting(t2, LastEntries(f), Tokens(f), others)
    ensures LoopMirrors(t2, f)
  {
    hide RInv, QueueOk, HeadOk, RunningOk, DoneOk, LagOf, Later, Mirror, Ahead, Waiting, Uids, DistinctEntries,
      ChunkUids;
    var es, tokens := LastEntries(f), Tokens(f);
    LagKeys(es, tokens, {});
    forall u | u in Active(t2)
      ensures Mirror(Caught(t2, LastLag(f)), u)
    {
      if u in Waiting(es) {
        var i := WaitingOf(es, u);
        assert WaitOk(cfg, t2, es[i]);
        LagAt(es, tokens, i);
      } else {
        assert u in Live(t2) - Waiting(es) - others;
      }
      AheadCaught(t2, LastLag(f), u);
    }
  }

  lemma {:induction false} LaunchMirrors(cfg: Config, t: Sched, i: Input, others: set<int>)
    requires LInv(cfg, t, t.pending, others) && Aside(t, others) && Ctrl(t) && CanLaunch(cfg, t, i)
    requires Mirrors(t, Live(t) - others)
    ensures var (t2, f) := Launch(cfg, t, i); LoopMirrors(t2, f)
  {
    hide LInv, Aside, Schedule, Prepare, Forward, CanPrepare, Ctrl, Mirrors, Awaiting, Launching, DistinctEntries,
      Launched;
    var (t1, b) := Schedule(cfg, t);
    var (t2, f) := Launch(cfg, t, i);
    LaunchLive(cfg, t, i, others);
    if b.Some? {
      LaunchIs(cfg, t, i);
      LaunchDistinct(t, t2, f);
      BatchMirrors(cfg, t, i, others);
      LaunchedMirrors(cfg, t, t2, f, others);
    } else {
      ScheduleLive(cfg, t, others);
      ActiveLive(cfg, t, others);
      CaughtNone(t);
      MirrorsSame(t, Caught(t, map[]), Live(t) - others, Active(t));
    }
  }

  lemma {:induction false} LaunchDistinct(t: Sched, t2: Sched, f: Option<Flight>)
    requires Launched(t, t2, f)
    ensures DistinctEntries(LastEntries(f))
  {
    hide DistinctEntries, DistinctUids, Uids, PendingUids;
  }

  lemma {:induction false} ActiveLive(cfg: Config, t: Sched, others: set<int>)
    requires LInv(cfg, t, t.pending, others) && Aside(t, others)
    ensures Active(t) == Live(t) - others
  {
    hide RInv, QueueOk, HeadOk, RunningOk, DoneOk, ChunkUids;
  }

  /** The scheduler after the messages launches: its pool mirrors what it will hold on the host. */
  lemma {:induction false} HeardLaunches(cfg: Config, s: Sched, es: seq<Entry>, tokens: seq<int>, prefill: bool,
                                         i: Input)
    requires Hearing(cfg, s, es, prefill) && Ctrl(s) && DistinctEntries(es) && |tokens| == |es| && CanLaunch(cfg, s, i)
    requires Mirrors(Caught(s, LagOf(es, tokens, s.deferred)), Active(s))
    ensures var (s2, f) := Launch(cfg, s, i); LoopMirrors(Caught(s2, LagOf(es, tokens, s.deferred)), f)
  {
    hide Hearing, Launch, LInv, Waiting, Later, LagOf, Ctrl, CanLaunch, DistinctEntries, Aside, Unqueued, Mirrors,
      LoopMirrors;
    var lag := LagOf(es, tokens, s.deferred);
    var t := Caught(s, lag);
    HeardCaught(cfg, s, es, tokens, prefill);
    LaunchSame(cfg, s, lag, i);
    CaughtCtrl(s, lag);
    ActiveLive(cfg, t, OverlapOwn.Idle(t));
    assert Active(t) == Active(s);
    LaunchMirrors(cfg, t, i, OverlapOwn.Idle(t));
  }

  // ---- post-processing

  lemma {:induction false} EntryAppends(cfg: Config, p: Post, prefill: bool, e: Entry, token: int)
    ensures var s, s' := p.s, ProcessEntry(cfg, p, prefill, e, token).s;
            && s'.pool == s.pool && s'.pending == s.pending && s'.deferred == s.deferred && s'.running <= s.running
            && s'.reqs == if e.chunked || e.uid in s.deferred then s.reqs
                          else s.reqs[e.uid := Get(s.reqs, e.uid).AppendHost(token)]
  {
    hide HandOver, IsFinished;
  }

  lemma {:induction false} LaterFirst(reqs: map<int, Req>, lag: map<int, int>, u: int, token: int)
    requires u !in lag && u in reqs
    ensures Later(reqs[u := Get(reqs, u).AppendHost(token)], lag) == Later(reqs, lag[u := token])
  {
  }

  /** Post-processing appends exactly the tokens that lagged. */
  lemma {:induction false} EntriesAppend(cfg: Config, p: Post, prefill: bool, es: seq<Entry>, tokens: seq<int>)
    requires |tokens| == |es| && DistinctEntries(es) && Uids(es) <= p.s.reqs.Keys
    ensures var s, s' := p.s, ProcessEntries(cfg, p, prefill, es, tokens).s;
            && s'.pool == s.pool && s'.pending == s.pending && s'.running <= s.running
            && s'.reqs == Later(s.reqs, LagOf(es, tokens, s.deferred))
    decreases |es|
  {
    hide ProcessEntry, Later, LagOf, Uids, DistinctEntries, Waiting;
    if es == [] {
      LagEmpty(p.s.deferred);
      LaterNone(p.s.reqs);
    } else {
      DistinctRest(es);
      UidsSplit(es);
      LagSplit(es, tokens, p.s.deferred);
      LagKeys(es[1..], tokens[1..], p.s.deferred);
      WaitingUids(es[1..]);
      EntryAppends(cfg, p, prefill, es[0], tokens[0]);
      if !es[0].chunked && es[0].uid !in p.s.deferred {
        LaterFirst(p.s.reqs, LagOf(es[1..], tokens[1..], p.s.deferred), es[0].uid, tokens[0]);
      }
      EntriesAppend(cfg, ProcessEntry(cfg, p, prefill, es[0], tokens[0]), prefill, es[1..], tokens[1..]);
    }
  }

  lemma {:induction false} LaterNone(reqs: map<int, Req>)
    ensures Later(reqs, map[]) == reqs
  {
  }

  lemma {:induction false} ApplyPool(cfg: Config, s: Sched, es: seq<Entry>, done: set<int>)
    ensures ApplyEntries(cfg, s, es, done).pool == s.pool
    decreases |es|
  {
    hide Release;
    if es != [] {
      var u := es[0].uid;
      if u in s.deferred && u !in done {
        var s1 := Release(cfg, s, u);
        ReleasePool(cfg, s, u);
        ApplyPool(cfg, s1.(acks := s1.acks + [u]), es[1..], done + {u});
      } else {
        ApplyPool(cfg, s, es[1..], done);
      }
    }
  }

  /** What the tick does after the launch: it appends the lagging tokens. */
  lemma {:induction false} TailAppends(cfg: Config, s: Sched, last: Option<Flight>, i: Input)
    requires FInv(s, last) && OFresh(cfg, s, last, i.msgs)
    ensures var g, s' := StagesOf(cfg, s, last, i), OverlapTick(cfg, s, last, i).0;
            && |Tokens(last)| == |LastEntries(last)|
            && s'.reqs == Later(g.launched.reqs, LagOf(LastEntries(last), Tokens(last), g.heard.deferred))
            && s'.pool == g.launched.pool && Active(s') <= Active(g.launched)
  {
    hide FInv, OverlapTick, StagesOk, OFresh, ProcessMsgs, Launch, ProcessEntries, ApplyEntries, Uids, DistinctEntries,
      DistinctUids, Later, LagOf, ChunkUids;
    FlightShape(s, last);
    TickStages(cfg, s, last, i);
    TickIs(cfg, s, last, i);
    StagesApply(cfg, s, last, i);
    var g := StagesOf(cfg, s, last, i);
    StagesKeys(s, last, i, g);
    HeardDeferred(s, last, i, g);
    if last.Some? {
      EntriesAppend(cfg, Post(g.launched, [], {}), last.value.batch.prefill, last.value.batch.entries,
        last.value.tokens);
    } else {
      LagEmpty(g.heard.deferred);
      LaterNone(g.launched.reqs);
    }
    var s3 := g.post.s.(finished := g.post.finished);
    ApplyPool(cfg, s3, LastEntries(last), {});
    ApplyIs(cfg, s3, LastEntries(last), {});
    AppliedKeeps(s3, g.applied, LastEntries(last));
  }

  // ---- ticks and runs

  lemma {:induction false} LoopTickMirrors(cfg: Config, s: Sched, last: Option<Flight>, i: Input)
    requires FInv(s, last) && OwnInv(cfg, s, last) && Fits(cfg, s, last, i) && LoopMirrors(s, last)
    ensures var (s', f, replies) := OverlapTick(cfg, s, last, i); LoopMirrors(s', f)
  {
    hide FInv, OwnInv, Hearing, CanLaunch, OverlapTick, OFresh, ProcessMsgs, Launch, ProcessEntries, ApplyEntries,
      Uids, DistinctEntries, DistinctUids, Ctrl, StagesOk, Active, LagOf, Later, Mirrors;
    var s0 := s.(inflight := LastUids(last));
    FlightShape(s, last);
    WithInflight(s, last);
    HeardOf(cfg, s, last, i);
    HeardReady(cfg, s, last, i);
    var g := StagesOf(cfg, s, last, i);
    TickStages(cfg, s, last, i);
    TickIs(cfg, s, last, i);
    assert AllFresh(cfg, s0, i.msgs) by { FreshNow(cfg, s, last, i); }
    MsgsActive(cfg, s0, i.msgs);
    assert Active(s0) == Active(s) by { ActiveInflight(s, s0); }
    DeferredInactive(s, last, i, g);
    HeardMirrors(s, g.heard, last);
    HeardLaunches(cfg, g.heard, LastEntries(last), Tokens(last), IsPrefill(last), i);
    TailAppends(cfg, s, last, i);
    var t2 := Caught(g.launched, LagOf(LastEntries(last), Tokens(last), g.heard.deferred));
    var s' := OverlapTick(cfg, s, last, i).0;
    assert Active(t2) == Active(g.launched) by { ActiveInflight(g.launched, t2); }
    MirrorsSame(Caught(t2, LastLag(g.flight)), Caught(s', LastLag(g.flight)), Active(t2), Active(s'));
  }

  lemma {:induction false} FreshNow(cfg: Config, s: Sched, last: Option<Flight>, i: Input)
    requires OFresh(cfg, s, last, i.msgs)
    ensures AllFresh(cfg, s.(inflight := LastUids(last)), i.msgs)
  {
    hide AllFresh;
  }

  lemma {:induction false} ActiveInflight(s: Sched, s': Sched)
    requires s'.running == s.running && s'.pending == s.pending
    ensures Active(s') == Active(s)
  {
  }

  lemma {:induction false} RunMirrors(cfg: Config, ins: seq<Input>)
    requires IsServed(cfg, ins) && Timely(cfg, ins)
    ensures LoopMirrors(LoopAfter(cfg, ins).s, LoopAfter(cfg, ins).last)
    decreases |ins|
  {
    hide FInv, OwnInv, OverlapTick, Fits, LateAbort, StagesOf, InitState, LoopMirrors, ProcessMsgs, Uids, IsServed;
    if ins == [] {
      StartMirrors(cfg);
    } else {
      var was, i := ins[..|ins| - 1], ins[|ins| - 1];
      var l := LoopAfter(cfg, was);
      assert was + [i] == ins;
      TickFits(cfg, was, i);
      RunMirrors(cfg, was);
      LoopTickMirrors(cfg, l.s, l.last, i);
    }
  }

  lemma {:induction false} StartMirrors(cfg: Config)
    ensures LoopMirrors(InitState(cfg), None)
  {
    hide Range;
    assert Active(InitState(cfg)) == {};
  }

  /** Device mirror of the overlap loop: in every state of a run whose aborts came in time, the first `deviceLen`
  entries of a running request's pool row are its host tokens, followed by its sampled token if that is still to be
  appended; a queued chunk's row starts with the tokens computed so far. */
  lemma {:induction false} LoopDeviceMirror(cfg: Config, ins: seq<Input>)
    requires IsServed(cfg, ins) && Timely(cfg, ins)
    ensures var l := LoopAfter(cfg, ins);
            var s, lag := l.s, LastLag(l.last);
            && lag.Keys == Waiting(LastEntries(l.last))
            && (forall u {:trigger Get(s.reqs, u)} | u in s.running ::
                  var host := Get(s.reqs, u).ids + (if u in lag then [lag[u]] else []);
                  |host| == Get(s.reqs, u).deviceLen && Upto(PoolRow(s, u), Get(s.reqs, u).deviceLen) == host)
            && (s.pending != [] && s.pending[0].chunk ==>
                  Upto(PoolRow(s, s.pending[0].uid), Get(s.reqs, s.pending[0].uid).cachedLen)
                  == Get(s.reqs, s.pending[0].uid).ids <= s.pending[0].ids)
  {
    hide IsServed, Timely, LoopAfter, PoolRow, LInv, Later, LagOf, OwnInv, FInv, Mirrors, Waiting, DistinctEntries,
      Uids, Aside;
    LoopOwns(cfg, ins);
    ServedLoop(cfg, ins);
    LoopControl(cfg, ins);
    RunMirrors(cfg, ins);
    var l := LoopAfter(cfg, ins);
    FlightShape(l.s, l.last);
    NowCaught(cfg, l.s, l.last);
    var t := Caught(l.s, LastLag(l.last));
    ActiveInflight(l.s, t);
    MirrorsMean(cfg, t, OverlapOwn.Idle(t));
    MeansNow(l.s, LastLag(l.last));
  }

  /** Between ticks the state with its lagging tokens appended is one of the normal loop, but for the idle requests. */
  lemma {:induction false} NowCaught(cfg: Config, s: Sched, last: Option<Flight>)
    requires FInv(s, last) && OwnInv(cfg, s, last)
    ensures var t := Caught(s, LastLag(last));
            && LInv(cfg, t, t.pending, OverlapOwn.Idle(t)) && Aside(t, OverlapOwn.Idle(t))
            && LastLag(last).Keys == Waiting(LastEntries(last)) && LastLag(last).Keys <= s.reqs.Keys
            && Unqueued(s.pending, LastLag(last))
  {
    hide LInv, AllFlying, Hearing, LagOf, Later, Waiting, Uids, DistinctEntries, DistinctUids, Ctrl, Aside, PlainIdle,
      Unqueued;
    var s0 := s.(inflight := LastUids(last));
    StartHearing(cfg, s, last);
    HeardCaught(cfg, s0, LastEntries(last), Tokens(last), IsPrefill(last));
    LagEmpty({});
    assert Caught(s0, LastLag(last)) == Caught(s, LastLag(last));
  }

  lemma {:induction false} MeansNow(s: Sched, lag: map<int, int>)
    requires lag.Keys <= s.reqs.Keys && Unqueued(s.pending, lag)
    requires var t := Caught(s, lag);
             && (forall u {:trigger Get(t.reqs, u)} | u in t.running ::
                   |Get(t.reqs, u).ids| == Get(t.reqs, u).deviceLen
                   && Upto(PoolRow(t, u), Get(t.reqs, u).deviceLen) == Get(t.reqs, u).ids)
             && (t.pending != [] && t.pending[0].chunk ==>
                   Upto(PoolRow(t, t.pending[0].uid), Get(t.reqs, t.pending[0].uid).cachedLen)
                   == Get(t.reqs, t.pending[0].uid).ids <= t.pending[0].ids)
    ensures forall u {:trigger Get(s.reqs, u)} | u in s.running ::
              var host := Get(s.reqs, u).ids + (if u in lag then [lag[u]] else []);
              |host| == Get(s.reqs, u).deviceLen && Upto(PoolRow(s, u), Get(s.reqs, u).deviceLen) == host
    ensures s.pending != [] && s.pending[0].chunk ==>
              Upto(PoolRow(s, s.pending[0].uid), Get(s.reqs, s.pending[0].uid).cachedLen)
              == Get(s.reqs, s.pending[0].uid).ids <= s.pending[0].ids
  {
    hide Later;
    var t := Caught(s, lag);
    forall u | u in s.running
      ensures var host := Get(s.reqs, u).ids + (if u in lag then [lag[u]] else []);
              |host| == Get(s.reqs, u).deviceLen && Upto(PoolRow(s, u), Get(s.reqs, u).deviceLen) == host
    {
      LaterGet(s.reqs, lag, u);
      assert Get(s.reqs, u).ids + [] == Get(s.reqs, u).ids;
    }
    if s.pending != [] && s.pending[0].chunk {
      LaterGet(s.reqs, lag, s.pending[0].uid);
    }
  }
}
