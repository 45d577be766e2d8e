/** Where a batch of the overlap loop writes its keys and values. */
module OverlapIsolation {
  import opened Requests
  import opened SchedSpec
  import opened SchedInv
  import opened SchedAdmit
  import opened SchedBatch
  import opened SchedForward
  import opened SchedPost
  import opened SchedIsolation
  import opened Overlap
  import opened OverlapRun
  import opened OverlapLag
  import opened OverlapOwn
  import opened OverlapPages
  import opened OverlapSound

  lemma {:induction false} SlotsSame(s: Sched, lag: map<int, int>, u: int)
    ensures WriteSlots(Caught(s, lag), u) == WriteSlots(s, u)
    ensures forall cfg, prep :: Segment(cfg, Caught(s, lag), prep, u) == Segment(cfg, s, prep, u)
  {
    hide Later;
    LaterGet(s.reqs, lag, u);
  }

  lemma {:induction false} OutLocSame(s: Sched, lag: map<int, int>, es: seq<Entry>)
    ensures OutLoc(Caught(s, lag), es) == OutLoc(s, es)
    decreases |es|
  {
    hide WriteSlots, Caught;
    if es != [] {
      SlotsSame(s, lag, es[0].uid);
      OutLocSame(s, lag, es[1..]);
    }
  }

  lemma {:induction false} IsolatedSame(cfg: Config, s: Sched, lag: map<int, int>, es: seq<Entry>)
    requires Isolated(cfg, Caught(s, lag), es)
    ensures Isolated(cfg, s, es)
  {
    hide WriteSlots, OutLoc, Later, Segment, Uids;
    OutLocSame(s, lag, es);
    forall j, x | 0 <= j < |es| && x in WriteSlots(s, es[j].uid)
      ensures x >= 0 && x in Segment(cfg, s, Uids(es), es[j].uid)
    {
      SlotsSame(s, lag, es[j].uid);
      assert x in WriteSlots(Caught(s, lag), es[j].uid);
    }
  }

  lemma {:induction false} PreparedLive(cfg: Config, t: Sched, i: Input, others: set<int>)
    requires LInv(cfg, t, t.pending, others) && Aside(t, others) && CanLaunch(cfg, t, i)
    ensures var (t1, b) := Schedule(cfg, t);
            b.Some? ==> Isolated(cfg, Prepare(cfg, t1, b.value, i.ev), b.value.entries)
  {
    hide LInv, Aside, Schedule, Prepare, CanPrepare, Planned, RInv, Isolated, DistinctEntries, Uids;
    ScheduleLive(cfg, t, others);
    var (t1, b) := Schedule(cfg, t);
    if b.Some? {
      PrepareKeeps(cfg, t1, b.value, i.ev, others);
      PlannedEntries(cfg, t1, b.value, others);
      IsolatedOf(cfg, Prepare(cfg, t1, b.value, i.ev), b.value.entries);
    }
  }

  /** KV write isolation over the overlap loop: in every run whose aborts came in time so far, whenever a batch is about
  to run, it writes only slots of its own requests, each once, although other requests are still in flight. */
  lemma {:induction false} OverlapIsolated(cfg: Config, ins: seq<Input>, i: Input)
    requires IsServed(cfg, ins + [i]) && Timely(cfg, ins)
    ensures var l := LoopAfter(cfg, ins);
            var (s1, b) := Schedule(cfg, ProcessMsgs(cfg, l.s.(inflight := LastUids(l.last)), i.msgs));
            b.Some? ==> Isolated(cfg, Prepare(cfg, s1, b.value, i.ev), b.value.entries)
  {
    hide OwnInv, Hearing, Ctrl, IsServed, Timely, LoopAfter, ProcessMsgs, CanLaunch, OFresh, Uids, StagesOf,
      DistinctEntries, PlainIdle, Schedule, Prepare, Isolated;
    var l := LoopAfter(cfg, ins);
    TickFits(cfg, ins, i);
    FlightShape(l.s, l.last);
    HeardReady(cfg, l.s, l.last, i);
    HeardIsolated(cfg, StagesOf(cfg, l.s, l.last, i).heard, LastEntries(l.last), Tokens(l.last), IsPrefill(l.last), i);
  }

  lemma {:induction false} HeardIsolated(cfg: Config, s: Sched, es: seq<Entry>, tokens: seq<int>, prefill: bool,
                                         i: Input)
    requires Hearing(cfg, s, es, prefill) && Ctrl(s) && DistinctEntries(es) && |tokens| == |es| && CanLaunch(cfg, s, i)
    ensures var (s1, b) := Schedule(cfg, s);
            b.Some? ==> Isolated(cfg, Prepare(cfg, s1, b.value, i.ev), b.value.entries)
  {
    hide Hearing, LInv, Waiting, Later, LagOf, Ctrl, CanLaunch, DistinctEntries, Aside, Unqueued, Schedule, Prepare,
      Isolated;
    var lag := LagOf(es, tokens, s.deferred);
    var t := Caught(s, lag);
    HeardCaught(cfg, s, es, tokens, prefill);
    LaunchSame(cfg, s, lag, i);
    PreparedLive(cfg, t, i, Idle(t));
    ScheduleSame(cfg, s, lag);
    var (s1, b) := Schedule(cfg, s);
    if b.Some? {
      PrepareSame(cfg, s1, lag, b.value, i.ev);
      IsolatedSame(cfg, Prepare(cfg, s1, b.value, i.ev), lag, b.value.entries);
    }
  }
}
