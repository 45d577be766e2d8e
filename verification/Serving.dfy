/** Serving a whole sequence of ticks with the scheduler in place: as long as the runs on the arrivals stay within the
pages there are, which they always do when a page holds one slot, no check of the scheduler, the cache manager or the
prefix cache ever fails. */
module Serving {
  import opened CacheSpec
  import opened Requests
  import opened SchedSpec
  import opened SchedInv
  import opened SchedAdmit
  import opened SchedPost
  import opened SchedRun
  import opened SchedSound
  import opened Overlap
  import opened OverlapRun
  import opened OverlapOwn
  import opened OverlapPages
  import opened OverlapSound
  import opened Arrivals
  import opened CacheManagement
  import opened Scheduling

  // ---- newcomers

  ghost function AllSubmitted(arrivals: seq<seq<Msg>>): set<int> {
    if arrivals == [] then {} else AllSubmitted(arrivals[..|arrivals| - 1]) + Submitted(arrivals[|arrivals| - 1])
  }

  /** The same for the messages of all ticks. */
  ghost predicate AllNew(arrivals: seq<seq<Msg>>)
    decreases |arrivals|
  {
    arrivals != [] ==>
      && AllNew(arrivals[..|arrivals| - 1])
      && Newcomers(AllSubmitted(arrivals[..|arrivals| - 1]), arrivals[|arrivals| - 1])
  }

  /** Scheduling and running a batch adds no uid the scheduler did not know. */
  lemma {:induction false} TickNew(cfg: Config, s: Sched, i: Input, known: set<int>)
    requires NInv(cfg, s) && Known(s) <= known && Newcomers(known, i.msgs)
    ensures Known(NormalTick(cfg, s, i).0) <= known + Submitted(i.msgs)
  {
    hide NInv, Ctrl, Hearing, ProcessMsgs, Launch, ProcessEntries, Newcomers, Submitted, PendingUids, Uids,
      DistinctEntries;
    PlainHearing(cfg, s);
    MsgsNew(cfg, s, i.msgs, known);
    var s0 := ProcessMsgs(cfg, s, i.msgs);
    LaunchIs(cfg, s0, i);
    var (s2, f) := Launch(cfg, s0, i);
    if f.Some? {
      EntriesProcessed(cfg, Post(s2, [], {}), f.value.batch.prefill, f.value.batch.entries, f.value.tokens);
    }
    RunningKnown(s0);
  }

  lemma {:induction false} RunNew(cfg: Config, ins: seq<Input>)
    requires IsRun(cfg, ins) && AllNew(ArrivalsOf(ins))
    ensures Known(StateAfter(cfg, ins)) <= AllSubmitted(ArrivalsOf(ins))
    decreases |ins|
  {
    hide NormalTick, Admissible, Known, Newcomers, Submitted, CfgOk, InitState;
    if ins == [] {
      StartKnown(cfg);
    } else {
      var was := ins[..|ins| - 1];
      assert ArrivalsOf(ins)[..|ins| - 1] == ArrivalsOf(was);
      RunNew(cfg, was);
      Reachable(cfg, was);
      TickNew(cfg, StateAfter(cfg, was), ins[|ins| - 1], AllSubmitted(ArrivalsOf(was)));
    }
  }

  ghost function ArrivalsOf(ins: seq<Input>): seq<seq<Msg>> {
    seq(|ins|, k requires 0 <= k < |ins| => ins[k].msgs)
  }

  // ---- the idle check

  lemma {:induction false} IdleStarts(cfg: Config, s: Sched)
    requires NInv(cfg, s)
    ensures PageStarts(s.cache.free, cfg.ps)
  {
    hide RInv;
    forall x | x in s.cache.free
      ensures x % cfg.ps == 0
    {
      FreeAligned(cfg, s, x);
    }
  }

  /** The check the scheduler makes before it blocks for messages. */
  method RunWhenIdle(s: Scheduler) returns (ok: bool)
    requires s.Valid() && !s.cache.lazy && NInv(s.cfg, s.View())
    requires s.pendingList == [] && s.runningReqs == {}
    ensures ok
  {
    hide CacheManager.Valid, NInv;
    s.ViewReqs();
    IdleTotals(s.cfg, s.View());
    IdleStarts(s.cfg, s.View());
    ok := s.cache.CheckIntegrity();
  }

  // ---- serving

  /** The inputs are those of the arrivals and sampled tokens so far. */
  ghost predicate OnArrivals(ins: seq<Input>, arrivals: seq<seq<Msg>>, sampled: seq<seq<int>>) {
    && |ins| <= |arrivals| && |ins| <= |sampled| && ArrivalsOf(ins) == arrivals[..|ins|]
    && forall k {:trigger ins[k]} | 0 <= k < |ins| :: ins[k].tokens == sampled[k]
  }

  /** In no run on these arrivals and tokens does a batch need more pages than are available. */
  ghost predicate AllAfforded(cfg: Config, arrivals: seq<seq<Msg>>, sampled: seq<seq<int>>) {
    forall ins: seq<Input> {:trigger OnArrivals(ins, arrivals, sampled)} ::
      IsRun(cfg, ins) && OnArrivals(ins, arrivals, sampled) && |ins| < |arrivals| ==>
        Affordable(cfg, StateAfter(cfg, ins), arrivals[|ins|])
  }

  /** When a page holds one slot nothing has to be asked. */
  lemma {:induction false} OneSlotAfforded(cfg: Config, arrivals: seq<seq<Msg>>, sampled: seq<seq<int>>)
    requires cfg.ps == 1 && AllNew(arrivals)
    ensures AllAfforded(cfg, arrivals, sampled)
  {
    hide NInv, AllFresh, AllNew, Newcomers, AllSubmitted, StateAfter, IsRun, Schedule, ProcessMsgs, PagesFor, Avail,
      CacheOk, ArrivalsOf;
    forall ins: seq<Input> | IsRun(cfg, ins) && OnArrivals(ins, arrivals, sampled) && |ins| < |arrivals|
      ensures Affordable(cfg, StateAfter(cfg, ins), arrivals[|ins|])
    {
      PrefixNew(arrivals, |ins|);
      TickReady(cfg, ins, arrivals[|ins|]);
      AdmissionSound(cfg, ins, arrivals[|ins|]);
    }
  }

  /** One more tick of a run that took only new requests. */
  lemma {:induction false} TickReady(cfg: Config, ins: seq<Input>, msgs: seq<Msg>)
    requires IsRun(cfg, ins) && AllNew(ArrivalsOf(ins)) && Newcomers(AllSubmitted(ArrivalsOf(ins)), msgs)
    ensures var s := StateAfter(cfg, ins); NInv(cfg, s) && AllFresh(cfg, s, msgs)
  {
    hide NInv, Hearing, AllFresh, Newcomers, Known, StateAfter, IsRun;
    Reachable(cfg, ins);
    RunNew(cfg, ins);
    PlainHearing(cfg, StateAfter(cfg, ins));
    MsgsNew(cfg, StateAfter(cfg, ins), msgs, AllSubmitted(ArrivalsOf(ins)));
  }

  lemma {:induction false} RunGrows(cfg: Config, ins: seq<Input>, i: Input)
    requires IsRun(cfg, ins) && Admissible(cfg, StateAfter(cfg, ins), i)
    ensures IsRun(cfg, ins + [i]) && StateAfter(cfg, ins + [i]) == NormalTick(cfg, StateAfter(cfg, ins), i).0
    ensures ArrivalsOf(ins + [i]) == ArrivalsOf(ins) + [i.msgs]
  {
    hide NormalTick, Admissible;
    assert (ins + [i])[..|ins|] == ins;
  }

  lemma {:induction false} MoreArrivals(ins: seq<Input>, i: Input, arrivals: seq<seq<Msg>>, sampled: seq<seq<int>>)
    requires OnArrivals(ins, arrivals, sampled) && |ins| < |arrivals| && |ins| < |sampled|
    requires i.msgs == arrivals[|ins|] && i.tokens == sampled[|ins|]
    ensures OnArrivals(ins + [i], arrivals, sampled)
  {
    assert ArrivalsOf(ins + [i]) == ArrivalsOf(ins) + [i.msgs];
    assert arrivals[..|ins| + 1] == arrivals[..|ins|] + [arrivals[|ins|]];
  }

  /** What serving did so far: a run of the scheduler's specification on these arrivals, answered tick by tick. */
  ghost predicate Served(cfg: Config, arrivals: seq<seq<Msg>>, sampled: seq<seq<int>>, ins: seq<Input>,
                         replies: seq<seq<Reply>>) {
    && IsRun(cfg, ins) && OnArrivals(ins, arrivals, sampled) && |replies| == |ins|
    && forall k {:trigger replies[k]} | 0 <= k < |ins| ::
      replies[k] == NormalTick(cfg, StateAfter(cfg, ins[..k]), ins[k]).1
  }

  lemma {:induction false} ServedMore(cfg: Config, arrivals: seq<seq<Msg>>, sampled: seq<seq<int>>, ins: seq<Input>,
                                      replies: seq<seq<Reply>>, i: Input, reply: seq<Reply>)
    requires Served(cfg, arrivals, sampled, ins, replies) && |ins| < |arrivals| && |ins| < |sampled|
    requires i.msgs == arrivals[|ins|] && i.tokens == sampled[|ins|] && Admissible(cfg, StateAfter(cfg, ins), i)
    requires reply == NormalTick(cfg, StateAfter(cfg, ins), i).1
    ensures Served(cfg, arrivals, sampled, ins + [i], replies + [reply])
  {
    hide IsRun, NormalTick, Admissible, StateAfter;
    RunGrows(cfg, ins, i);
    MoreArrivals(ins, i, arrivals, sampled);
    var ins', replies' := ins + [i], replies + [reply];
    forall k | 0 <= k < |ins'|
      ensures replies'[k] == NormalTick(cfg, StateAfter(cfg, ins'[..k]), ins'[k]).1
    {
      assert ins'[..k] == ins[..k];
      if k < |ins| {
        assert replies'[k] == replies[k];
      } else {
        assert ins[..k] == ins;
      }
    }
  }

  lemma {:induction false} PrefixNew(arrivals: seq<seq<Msg>>, n: nat)
    requires AllNew(arrivals) && n < |arrivals|
    ensures AllNew(arrivals[..n]) && Newcomers(AllSubmitted(arrivals[..n]), arrivals[n])
    decreases |arrivals|
  {
    hide Newcomers, AllSubmitted;
    var was := arrivals[..|arrivals| - 1];
    if n < |was| {
      PrefixNew(was, n);
      assert was[..n] == arrivals[..n];
    } else {
      assert was == arrivals[..n];
    }
  }

  /** Starts a scheduler and serves tick after tick. For any arrivals with uids of their own and any sampled tokens
  whose runs stay within the pages there are, no check fails on the way, and the replies are those of a run of the
  specification. */
  method Serve(cfg: Config, arrivals: seq<seq<Msg>>, sampled: seq<seq<int>>)
    returns (s: Scheduler, replies: seq<seq<Reply>>, ghost ins: seq<Input>)
    requires CfgOk(cfg) && |arrivals| == |sampled| && AllNew(arrivals) && AllAfforded(cfg, arrivals, sampled)
    ensures s.Valid() && |ins| == |arrivals| && Served(cfg, arrivals, sampled, ins, replies)
    ensures s.View() == StateAfter(cfg, ins)
  {
    hide CacheManager.Valid, Scheduler.Valid, Scheduler.View, NInv, AllFresh, Affordable, Admissible, NormalTick,
      IsRun, InitState, Newcomers, AllNew, AllSubmitted, ArrivalsOf;
    s := new Scheduler(cfg);
    replies, ins := [], [];
    NothingServed(cfg, arrivals, sampled);
    for k := 0 to |arrivals|
      invariant |ins| == k && s.cfg == cfg && s.Valid() && !s.cache.lazy && fresh(s.Repr())
      invariant Served(cfg, arrivals, sampled, ins, replies) && s.View() == StateAfter(cfg, ins)
    {
      PrefixNew(arrivals, k);
      TickReady(cfg, ins, arrivals[k]);
      if s.pendingList == [] && s.runningReqs == {} {
        var ok := RunWhenIdle(s);
        assert ok;
      }
      var reply;
      ghost var ev;
      reply, ev := s.NormalLoop(arrivals[k], sampled[k]);
      ghost var i := Input(arrivals[k], ev, sampled[k]);
      RunGrows(cfg, ins, i);
      ServedMore(cfg, arrivals, sampled, ins, replies, i, reply);
      ins, replies := ins + [i], replies + [reply];
    }
  }

  lemma {:induction false} NothingServed(cfg: Config, arrivals: seq<seq<Msg>>, sampled: seq<seq<int>>)
    requires CfgOk(cfg)
    ensures Served(cfg, arrivals, sampled, [], []) && StateAfter(cfg, []) == InitState(cfg)
  {
    hide InitState, CfgOk;
  }

  // ---- serving with overlap

  /** In no run on these arrivals and tokens does an abort come too late. */
  ghost predicate NoLate(cfg: Config, arrivals: seq<seq<Msg>>, sampled: seq<seq<int>>) {
    forall ins: seq<Input> {:trigger OnArrivals(ins, arrivals, sampled)} ::
      IsServed(cfg, ins) && OnArrivals(ins, arrivals, sampled) ==> Timely(cfg, ins)
  }

  /** For one, where nothing is aborted at all. */
  lemma {:induction false} NothingAborted(cfg: Config, arrivals: seq<seq<Msg>>, sampled: seq<seq<int>>)
    requires forall k, m | 0 <= k < |arrivals| && m in arrivals[k] :: m.UserMsg?
    ensures NoLate(cfg, arrivals, sampled)
  {
    hide IsServed, Timely;
    forall ins: seq<Input> | OnArrivals(ins, arrivals, sampled)
      ensures Timely(cfg, ins)
    {
      forall k | 0 <= k < |ins|
        ensures Aborts(ins[k].msgs) == {}
      {
        assert arrivals[..|ins|][k] == arrivals[k] && ArrivalsOf(ins)[k] == ins[k].msgs;
        NoAborts(ins[k].msgs);
      }
      UnabortedTimely(cfg, ins);
    }
  }

  lemma {:induction false} NoAborts(msgs: seq<Msg>)
    requires forall m | m in msgs :: m.UserMsg?
    ensures Aborts(msgs) == {}
  {
  }

  lemma {:induction false} UnabortedTimely(cfg: Config, ins: seq<Input>)
    requires forall k | 0 <= k < |ins| :: Aborts(ins[k].msgs) == {}
    ensures Timely(cfg, ins)
    decreases |ins|
  {
    hide LoopAfter, Aborts;
    if ins != [] {
      UnabortedTimely(cfg, ins[..|ins| - 1]);
    }
  }

  /** In no such run does a batch need more pages than are available. */
  ghost predicate AllFitting(cfg: Config, arrivals: seq<seq<Msg>>, sampled: seq<seq<int>>) {
    forall ins: seq<Input> {:trigger OnArrivals(ins, arrivals, sampled)} ::
      IsServed(cfg, ins) && Timely(cfg, ins) && OnArrivals(ins, arrivals, sampled) && |ins| < |arrivals| ==>
        var l := LoopAfter(cfg, ins);
        Fitting(cfg, ProcessMsgs(cfg, l.s.(inflight := LastUids(l.last)), arrivals[|ins|]))
  }

  /** When a page holds one slot nothing has to be asked here either. */
  lemma {:induction false} OneSlotFitting(cfg: Config, arrivals: seq<seq<Msg>>, sampled: seq<seq<int>>)
    requires cfg.ps == 1 && AllNew(arrivals)
    ensures AllFitting(cfg, arrivals, sampled)
  {
    hide AllNew, Newcomers, AllSubmitted, LoopAfter, IsServed, Timely, Schedule, ProcessMsgs, PagesFor, Avail, CacheOk,
      ArrivalsOf, OFresh, Uids;
    forall ins: seq<Input> | IsServed(cfg, ins) && Timely(cfg, ins) && OnArrivals(ins, arrivals, sampled)
                             && |ins| < |arrivals|
      ensures var l := LoopAfter(cfg, ins);
              Fitting(cfg, ProcessMsgs(cfg, l.s.(inflight := LastUids(l.last)), arrivals[|ins|]))
    {
      NextFresh(cfg, ins, arrivals, sampled);
      OverlapAdmission(cfg, ins, arrivals[|ins|]);
    }
  }

  lemma {:induction false} NextFresh(cfg: Config, ins: seq<Input>, arrivals: seq<seq<Msg>>, sampled: seq<seq<int>>)
    requires IsServed(cfg, ins) && OnArrivals(ins, arrivals, sampled) && |ins| < |arrivals| && AllNew(arrivals)
    ensures var l := LoopAfter(cfg, ins); FInv(l.s, l.last) && OFresh(cfg, l.s, l.last, arrivals[|ins|])
  {
    hide FInv, LoopAfter, IsServed, ProcessMsgs, Newcomers, AllNew, AllSubmitted, Known, Ctrl, AllFresh, ArrivalsOf,
      Uids, Released;
    var l, msgs := LoopAfter(cfg, ins), arrivals[|ins|];
    PrefixNew(arrivals, |ins|);
    LoopNew(cfg, ins);
    ServedLoop(cfg, ins);
    LoopControl(cfg, ins);
    WithInflightOf(l.s, l.last);
    KnownInflight(l.s, LastUids(l.last));
    MsgsNew(cfg, l.s.(inflight := LastUids(l.last)), msgs, AllSubmitted(ArrivalsOf(ins)));
  }

  lemma {:induction false} LoopNew(cfg: Config, ins: seq<Input>)
    requires IsServed(cfg, ins) && AllNew(ArrivalsOf(ins))
    ensures Known(LoopAfter(cfg, ins).s) <= AllSubmitted(ArrivalsOf(ins))
    decreases |ins|
  {
    hide OverlapTick, OFresh, CanLaunch, FInv, Known, Newcomers, Submitted, CfgOk, InitState, ProcessMsgs, Ctrl, Uids,
      Released;
    if ins == [] {
      StartKnown(cfg);
    } else {
      var was, i := ins[..|ins| - 1], ins[|ins| - 1];
      var l := LoopAfter(cfg, was);
      assert ArrivalsOf(ins)[..|ins| - 1] == ArrivalsOf(was);
      LoopNew(cfg, was);
      ServedLoop(cfg, was);
      LoopControl(cfg, was);
      WithInflight(l.s, l.last);
      KnownInflight(l.s, LastUids(l.last));
      MsgsNew(cfg, l.s.(inflight := LastUids(l.last)), i.msgs, AllSubmitted(ArrivalsOf(was)));
      TickKnown(cfg, l.s, l.last, i, AllSubmitted(ArrivalsOf(ins)));
    }
  }

  /** One more tick of a run that took only new requests and no late abort. */
  lemma {:induction false} LoopReady(cfg: Config, ins: seq<Input>, arrivals: seq<seq<Msg>>, sampled: seq<seq<int>>)
    requires IsServed(cfg, ins) && OnArrivals(ins, arrivals, sampled) && |ins| < |arrivals| == |sampled|
    requires AllNew(arrivals) && NoLate(cfg, arrivals, sampled) && AllFitting(cfg, arrivals, sampled)
    ensures var l, msgs := LoopAfter(cfg, ins), arrivals[|ins|];
            && FInv(l.s, l.last) && OwnInv(cfg, l.s, l.last) && OFresh(cfg, l.s, l.last, msgs)
            && !LateAbort(l.s, l.last, msgs)
            && Fitting(cfg, ProcessMsgs(cfg, l.s.(inflight := LastUids(l.last)), msgs))
  {
    hide FInv, OwnInv, LoopAfter, IsServed, Timely, LateAbort, Fitting, ProcessMsgs, OFresh, AllNew, ArrivalsOf, Uids;
    var l, msgs, n := LoopAfter(cfg, ins), arrivals[|ins|], |ins|;
    assert Timely(cfg, ins);
    NextFresh(cfg, ins, arrivals, sampled);
    LoopOwns(cfg, ins);
    var ev := FittingGoesOn(cfg, ins, msgs, sampled[n]);
    MoreArrivals(ins, Input(msgs, ev, sampled[n]), arrivals, sampled);
    LoopStep(cfg, ins, Input(msgs, ev, sampled[n]));
  }

  lemma {:induction false} WithInflightOf(s: Sched, last: Option<Flight>)
    requires FInv(s, last)
    ensures Ctrl(s.(inflight := LastUids(last)))
  {
    hide Ctrl, Uids, Released, PlainIdle, DistinctEntries;
    WithInflight(s, last);
  }

  /** The replies are those of the run, tick by tick. */
  ghost predicate Answered(cfg: Config, ins: seq<Input>, replies: seq<seq<Reply>>) {
    |replies| == |ins| && forall k {:trigger replies[k]} | 0 <= k < |ins| ::
      replies[k] == LoopAfter(cfg, ins[..k + 1]).replies
  }

  lemma {:induction false} AnsweredMore(cfg: Config, ins: seq<Input>, replies: seq<seq<Reply>>, i: Input,
                                        reply: seq<Reply>)
    requires Answered(cfg, ins, replies) && reply == LoopAfter(cfg, ins + [i]).replies
    ensures Answered(cfg, ins + [i], replies + [reply])
  {
    hide LoopAfter;
    var ins', replies' := ins + [i], replies + [reply];
    forall k | 0 <= k < |ins'|
      ensures replies'[k] == LoopAfter(cfg, ins'[..k + 1]).replies
    {
      if k < |ins| {
        assert replies'[k] == replies[k] && ins'[..k + 1] == ins[..k + 1];
      } else {
        assert ins'[..k + 1] == ins';
      }
    }
  }

  lemma {:induction false} NothingInFlight(cfg: Config, s: Sched)
    requires OwnInv(cfg, s, None)
    ensures NInv(cfg, s)
  {
    hide RInv, QueueOk, HeadOk, RunningOk, DoneOk;
    NoWaiting();
    assert {} * s.cache.held.Keys == {};
  }

  /** Starts a scheduler and serves tick after tick with overlap. For any arrivals with uids of their own and any
  sampled tokens for which no abort comes too late and the pages suffice, no check fails on the way, and the replies are
  those of a run of the specification. */
  method ServeOverlap(cfg: Config, arrivals: seq<seq<Msg>>, sampled: seq<seq<int>>)
    returns (s: Scheduler, last: Option<Flight>, replies: seq<seq<Reply>>, ghost ins: seq<Input>)
    requires CfgOk(cfg) && |arrivals| == |sampled| && AllNew(arrivals)
    requires NoLate(cfg, arrivals, sampled) && AllFitting(cfg, arrivals, sampled)
    ensures s.Valid() && |ins| == |arrivals| && IsServed(cfg, ins) && OnArrivals(ins, arrivals, sampled)
    ensures Answered(cfg, ins, replies) && s.View() == LoopAfter(cfg, ins).s && last == LoopAfter(cfg, ins).last
  {
    hide CacheManager.Valid, Scheduler.Valid, Scheduler.View, FInv, OwnInv, OFresh, LateAbort, Fits, Fitting, IsServed,
      InitState, AllNew, NoLate, AllFitting, OnArrivals, Answered, OverlapTick, NInv, CfgOk;
    s := new Scheduler(cfg);
    last, replies, ins := None, [], [];
    NothingAnswered(cfg, arrivals, sampled);
    for k := 0 to |arrivals|
      invariant |ins| == k && s.cfg == cfg && s.Valid() && !s.cache.lazy && fresh(s.Repr())
      invariant IsServed(cfg, ins) && OnArrivals(ins, arrivals, sampled) && Answered(cfg, ins, replies)
      invariant s.View() == LoopAfter(cfg, ins).s && last == LoopAfter(cfg, ins).last
    {
      LoopReady(cfg, ins, arrivals, sampled);
      if last.None? && s.pendingList == [] && s.runningReqs == {} {
        NothingInFlight(cfg, s.View());
        var ok := RunWhenIdle(s);
        assert ok;
      }
      var reply;
      ghost var ev;
      last, reply, ev := s.OverlapLoop(arrivals[k], sampled[k], last);
      ghost var i := Input(arrivals[k], ev, sampled[k]);
      LoopStep(cfg, ins, i);
      ServedStep(cfg, ins, i);
      MoreArrivals(ins, i, arrivals, sampled);
      AnsweredMore(cfg, ins, replies, i, reply);
      ins, replies := ins + [i], replies + [reply];
    }
  }

  lemma {:induction false} NothingAnswered(cfg: Config, arrivals: seq<seq<Msg>>, sampled: seq<seq<int>>)
    requires CfgOk(cfg)
    ensures IsServed(cfg, []) && OnArrivals([], arrivals, sampled) && Answered(cfg, [], [])
    ensures LoopAfter(cfg, []).s == InitState(cfg) && LoopAfter(cfg, []).last == None
  {
    hide InitState, CfgOk;
  }
}
