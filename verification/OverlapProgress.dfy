/** Termination of the overlap loop: a tick without new messages that finds a batch in flight or any work leaves
strictly less of it, and so within finitely many such ticks everything accepted is finished and given back. */
module OverlapProgress {
  import opened Requests
  import opened SchedSpec
  import opened SchedInv
  import opened SchedAdmit
  import opened SchedBatch
  import opened SchedForward
  import opened SchedPost
  import opened SchedSound
  import opened SchedProgress
  import opened Overlap
  import opened OverlapRun
  import opened OverlapLag
  import opened OverlapOwn
  import opened OverlapPages
  import opened OverlapSound

  // ---- the measure

  /** The work left, twice, and a tick to process the batch in flight. */
  ghost function LoopWork(s: Sched, last: Option<Flight>): nat {
    2 * Measure(s) + (if last.Some? then 1 else 0)
  }

  /** Nothing is queued, running or in flight. */
  ghost predicate Rests(s: Sched, last: Option<Flight>) {
    s.pending == [] && s.running == {} && last.None?
  }

  /** Catching up leaves the same work. */
  lemma {:induction false} CaughtMeasure(s: Sched, lag: map<int, int>)
    ensures Measure(Caught(s, lag)) == Measure(s)
  {
    hide Later;
    forall u
      ensures Get(Later(s.reqs, lag), u).RemainLen() == Get(s.reqs, u).RemainLen()
      ensures Get(Later(s.reqs, lag), u).cachedLen == Get(s.reqs, u).cachedLen
    {
      LaterGet(s.reqs, lag, u);
    }
    RemSame(s.reqs, Later(s.reqs, lag), s.running);
    QueueWorkSame(s, Caught(s, lag), s.pending);
  }

  lemma {:induction false} SameMeasure(s: Sched, s': Sched)
    requires s'.reqs == s.reqs && s'.pending == s.pending && s'.running == s.running
    ensures Measure(s') == Measure(s)
  {
    QueueWorkSame(s, s', s.pending);
  }

  // ---- one tick

  lemma {:induction false} LaunchShrinks(cfg: Config, t: Sched, i: Input, others: set<int>)
    requires LInv(cfg, t, t.pending, others) && Aside(t, others) && CanLaunch(cfg, t, i)
    ensures var (t2, f) := Launch(cfg, t, i);
            if f.Some? then Measure(t2) < Measure(t) else t2 == t && t.running == {}
  {
    hide LInv, Aside, Schedule, Prepare, Forward, CanPrepare, Planned, RInv, Forwarded, Measure;
    ScheduleLive(cfg, t, others);
    var (t1, b) := Schedule(cfg, t);
    if b.Some? {
      var tokens := TokensFor(b.value, i.tokens);
      ForwardIs(cfg, t1, b.value, i.ev, tokens, others);
      ScheduleShrinks(cfg, t, Forward(cfg, Prepare(cfg, t1, b.value, i.ev), b.value, tokens), others);
    }
  }

  lemma {:induction false} HeardShrinks(cfg: Config, s: Sched, es: seq<Entry>, tokens: seq<int>, prefill: bool,
                                        i: Input)
    requires Hearing(cfg, s, es, prefill) && Ctrl(s) && DistinctEntries(es) && |tokens| == |es| && CanLaunch(cfg, s, i)
    ensures var (s2, f) := Launch(cfg, s, i);
            if f.Some? then Measure(s2) < Measure(s) else Measure(s2) == Measure(s)
  {
    hide Hearing, Launch, LInv, Waiting, Later, LagOf, Ctrl, CanLaunch, DistinctEntries, Aside, Unqueued, Measure;
    var lag := LagOf(es, tokens, s.deferred);
    var t := Caught(s, lag);
    HeardCaught(cfg, s, es, tokens, prefill);
    CaughtMeasure(s, lag);
    LaunchSame(cfg, s, lag, i);
    LaunchShrinks(cfg, t, i, OverlapOwn.Idle(t));
    CaughtMeasure(Launch(cfg, s, i).0, lag);
  }

  /** Post-processing and the release of aborted requests add no work. */
  lemma {:induction false} TailMeasure(cfg: Config, s: Sched, last: Option<Flight>, i: Input)
    requires FInv(s, last) && OFresh(cfg, s, last, i.msgs)
    ensures Measure(OverlapTick(cfg, s, last, i).0) <= Measure(StagesOf(cfg, s, last, i).launched)
  {
    hide Uids, OverlapTick, StagesOk, Ctrl, PlainIdle, DistinctEntries, OFresh, ProcessMsgs, Launch, ProcessEntries,
      ApplyEntries, Measure, Lighter;
    TickStages(cfg, s, last, i);
    TickIs(cfg, s, last, i);
    StagesApply(cfg, s, last, i);
    var g := StagesOf(cfg, s, last, i);
    if last.Some? {
      EntriesLighter(cfg, Post(g.launched, [], {}), last.value.batch.prefill, last.value.batch.entries,
        last.value.tokens);
      LighterMeasure(g.launched, g.post.s);
    }
    var s3 := g.post.s.(finished := g.post.finished);
    ApplyIs(cfg, s3, LastEntries(last), {});
    AppliedKeeps(s3, g.applied, LastEntries(last));
    SameMeasure(g.post.s, g.applied.(deferred := {}, acks := [], inflight := {}));
  }

  /** With nothing in flight any work at all is launched. */
  lemma {:induction false} WorkLaunched(cfg: Config, s: Sched, i: Input)
    requires Roomy(cfg) && OwnInv(cfg, s, None) && (s.pending != [] || s.running != {})
    ensures Launch(cfg, s, i).1.Some?
  {
    hide RInv, QueueOk, HeadOk, RunningOk, DoneOk, Roomy, Schedule, Prepare, Forward;
    NoWaiting();
    assert {} * s.cache.held.Keys == {};
    assert NInv(cfg, s);
    if s.running == {} {
      HeadAdmitted(cfg, s);
    } else {
      ScheduleKeeps(cfg, s);
    }
  }

  /** Without new messages, a tick that finds a batch in flight or any work leaves strictly less to do. */
  lemma {:induction false} OverlapShrinks(cfg: Config, s: Sched, last: Option<Flight>, i: Input)
    requires Roomy(cfg) && FInv(s, last) && OwnInv(cfg, s, last) && i.msgs == [] && !Rests(s, last)
    requires CanLaunch(cfg, StagesOf(cfg, s, last, i).heard, i)
    ensures var (s', f, replies) := OverlapTick(cfg, s, last, i); LoopWork(s', f) < LoopWork(s, last)
  {
    hide OwnInv, Hearing, Uids, OverlapTick, StagesOk, Ctrl, PlainIdle, DistinctEntries, Launch, ProcessEntries,
      ApplyEntries, Measure, Roomy, CanLaunch;
    TickStages(cfg, s, last, i);
    TailMeasure(cfg, s, last, i);
    HeardReady(cfg, s, last, i);
    var g := StagesOf(cfg, s, last, i);
    assert g.heard == s.(inflight := LastUids(last)) by { HeardOf(cfg, s, last, i); }
    HeardShrinks(cfg, g.heard, LastEntries(last), Tokens(last), IsPrefill(last), i);
    SameMeasure(s, g.heard);
    if last.None? {
      NoFlight(cfg, s);
      WorkLaunched(cfg, s, i);
    }
  }

  lemma {:induction false} NoFlight(cfg: Config, s: Sched)
    requires OwnInv(cfg, s, None)
    ensures s.(inflight := LastUids(None)) == s
  {
    hide RInv, QueueOk, HeadOk, RunningOk, DoneOk;
    NoUids();
  }

  lemma {:induction false} RestStays(cfg: Config, s: Sched, last: Option<Flight>, i: Input)
    requires Rests(s, last) && i.msgs == []
    ensures var (s', f, replies) := OverlapTick(cfg, s, last, i); Rests(s', f)
  {
    assert AddAll(cfg, s, Adder(cfg.budget, InflightTokens(cfg, s)), []).added == [];
  }

  // ---- every accepted request finishes

  lemma {:induction false} LoopRunsDown(cfg: Config, ins: seq<Input>, more: seq<Input>)
    requires Roomy(cfg) && IsServed(cfg, ins + more) && Timely(cfg, ins) && Quiet(more)
    ensures Timely(cfg, ins + more)
    ensures var l, l' := LoopAfter(cfg, ins), LoopAfter(cfg, ins + more);
            Rests(l'.s, l'.last) || LoopWork(l'.s, l'.last) + |more| <= LoopWork(l.s, l.last)
    decreases |more|
  {
    hide FInv, OwnInv, OverlapTick, LoopAfter, IsServed, Timely, LoopWork, Rests, Roomy, CanLaunch, OFresh, StagesOf,
      ProcessMsgs;
    if more == [] {
      assert ins + more == ins;
    } else {
      var front, x := more[..|more| - 1], more[|more| - 1];
      var was := ins + front;
      assert ins + more == was + [x];
      ServedStep(cfg, was, x);
      LoopRunsDown(cfg, ins, front);
      TickFits(cfg, was, x);
      LoopStep(cfg, was, x);
      assert Aborts([]) == {};
      var l := LoopAfter(cfg, was);
      if Rests(l.s, l.last) {
        RestStays(cfg, l.s, l.last, x);
      } else {
        OverlapShrinks(cfg, l.s, l.last, x);
      }
    }
  }

  /** Termination of the overlap loop: after any run without a late abort, a tick for each unit of the measure, without
  new messages, leaves nothing queued, running or in flight, every row free and every page free or cached. */
  lemma {:induction false} LoopFinishes(cfg: Config, ins: seq<Input>, more: seq<Input>)
    requires Roomy(cfg) && IsServed(cfg, ins + more) && Timely(cfg, ins) && Quiet(more)
    requires |more| > LoopWork(LoopAfter(cfg, ins).s, LoopAfter(cfg, ins).last)
    ensures var l := LoopAfter(cfg, ins + more);
            && l.last.None? && l.s.pending == [] && l.s.running == {} && l.s.cache.held == map[]
            && |l.s.rows| == cfg.numRows && |l.s.cache.free| + |l.s.cache.store.Keys| == cfg.numPages
  {
    hide IsServed, Timely, LoopAfter, LoopWork, Roomy;
    LoopRunsDown(cfg, ins, more);
    LoopIdleIntegrity(cfg, ins + more);
  }
}
