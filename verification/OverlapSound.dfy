/** Admission under the overlap loop: while no abort comes too late and a page holds one slot, no batch asks for more
pages than are free or evictable, although requests of the batch in flight hold pages and lack their last token. */
module OverlapSound {
  import opened CacheSpec
  import opened Requests
  import opened SchedSpec
  import opened SchedInv
  import opened SchedAdmit
  import opened SchedBatch
  import opened SchedForward
  import opened SchedPost
  import opened SchedRun
  import opened SchedSound
  import opened Overlap
  import opened OverlapRun
  import opened OverlapLag
  import opened OverlapOwn
  import opened OverlapPages

  // ---- messages

  lemma {:induction false} QueueOutside(cfg: Config, s: Sched, busy: set<int>)
    requires LInv(cfg, Outside(s), s.pending, busy)
    ensures QueueOk(cfg, s, s.pending)
  {
    hide RInv, HeadOk, RunningOk, DoneOk, PendOk, DistinctUids, ChunkUids;
  }

  lemma {:induction false} AbortCovers(cfg: Config, s: Sched, u: int, es: seq<Entry>, prefill: bool)
    requires Hearing(cfg, s, es, prefill) && Covered(s)
    ensures Covered(ProcessMsg(cfg, s, AbortMsg(u)))
  {
    hide LInv, AllFlying, AllParked, Uids, Waiting, Avail, Need, ProcessMsg;
    QueueOutside(cfg, s, Busy(s, es));
    AbortNeed(cfg, s, u);
    if u in s.inflight {
      DeferIs(cfg, s, u);
    } else {
      WaitingUids(es);
      AbortOutside(cfg, s, u);
      AbortLive(cfg, Outside(s), u, Busy(s, es));
    }
  }

  lemma {:induction false} MsgsCover(cfg: Config, s: Sched, msgs: seq<Msg>, es: seq<Entry>, prefill: bool)
    requires Hearing(cfg, s, es, prefill) && Ctrl(s) && AllFresh(cfg, s, msgs) && Covered(s)
    ensures Covered(ProcessMsgs(cfg, s, msgs))
    decreases |msgs|
  {
    hide Hearing, Ctrl, Fresh, ProcessMsg, Covered;
    if msgs != [] {
      var m, s1 := msgs[0], ProcessMsg(cfg, s, msgs[0]);
      OneCtrl(cfg, s, m);
      MsgHears(cfg, s, m, es, prefill);
      if m.UserMsg? {
        UserCovered(cfg, s, m);
      } else {
        AbortCovers(cfg, s, m.uid, es, prefill);
      }
      MsgsCover(cfg, s1, msgs[1..], es, prefill);
    }
  }

  // ---- launching

  /** Catching up changes nothing of what is still needed. */
  lemma {:induction false} CaughtNeed(s: Sched, lag: map<int, int>)
    ensures Need(Caught(s, lag)) == Need(s)
  {
    hide Later;
    forall u
      ensures Get(Later(s.reqs, lag), u).RemainLen() == Get(s.reqs, u).RemainLen()
      ensures Get(Later(s.reqs, lag), u).cachedLen == Get(s.reqs, u).cachedLen
    {
      LaterGet(s.reqs, lag, u);
    }
    RemSame(s.reqs, Later(s.reqs, lag), s.running);
  }

  /** The batch launched and all that is needed after it are within what can be handed out. */
  lemma {:induction false} LaunchCovers(cfg: Config, t: Sched, i: Input, others: set<int>)
    requires cfg.ps == 1 && LInv(cfg, t, t.pending, others) && Aside(t, others) && Covered(t)
    requires CanLaunch(cfg, t, i)
    ensures Covered(Launch(cfg, t, i).0)
  {
    hide LInv, Aside, Schedule, Prepare, Forward, CanPrepare, Planned, RInv, Avail, Need, PagesFor, Forwarded;
    ScheduleLive(cfg, t, others);
    var (t1, b) := Schedule(cfg, t);
    if b.Some? {
      var tokens := TokensFor(b.value, i.tokens);
      ForwardIs(cfg, t1, b.value, i.ev, tokens, others);
      BatchCovered(cfg, t, Forward(cfg, Prepare(cfg, t1, b.value, i.ev), b.value, tokens), others);
      PrepareAvail(cfg, t1, b.value, i.ev);
    }
  }

  lemma {:induction false} BatchFits(cfg: Config, t: Sched, others: set<int>)
    requires cfg.ps == 1 && LInv(cfg, t, t.pending, others) && Aside(t, others) && Covered(t)
    ensures Fitting(cfg, t)
  {
    hide LInv, Aside, Schedule, Forward, Planned, RInv, Avail, Need, PagesFor, Forwarded;
    ScheduleLive(cfg, t, others);
    var (t1, b) := Schedule(cfg, t);
    if b.Some? {
      PlainForward(cfg, t1, b.value, others);
      BatchCovered(cfg, t, Forward(cfg, t1, b.value, TokensFor(b.value, [])), others);
    }
  }

  /** The cache a batch is scheduled on is well-formed, whatever the page size. */
  lemma {:induction false} BatchCache(cfg: Config, t: Sched, others: set<int>)
    requires LInv(cfg, t, t.pending, others) && Aside(t, others)
    ensures CacheOk(Schedule(cfg, t).0.cache, cfg.ps)
  {
    hide LInv, Aside, Schedule, Planned, RInv, CacheOk;
    ScheduleLive(cfg, t, others);
    var (t1, b) := Schedule(cfg, t);
    if b.Some? {
      CacheOf(cfg, t1);
    } else {
      RInvOf(cfg, t, others);
      CacheOf(cfg, t);
    }
  }

  lemma {:induction false} HeardCache(cfg: Config, s: Sched, es: seq<Entry>, tokens: seq<int>, prefill: bool)
    requires Hearing(cfg, s, es, prefill) && DistinctEntries(es) && |tokens| == |es|
    ensures CacheOk(Schedule(cfg, s).0.cache, cfg.ps)
  {
    hide Hearing, LInv, Later, LagOf, Waiting, DistinctEntries, Aside, Unqueued, Schedule, CacheOk;
    var lag := LagOf(es, tokens, s.deferred);
    HeardCaught(cfg, s, es, tokens, prefill);
    BatchCache(cfg, Caught(s, lag), Idle(Caught(s, lag)));
    ScheduleSame(cfg, s, lag);
  }

  // ---- a whole tick

  /** The scheduler after the messages of a tick, ready to launch. */
  lemma {:induction false} HeardReady(cfg: Config, s: Sched, last: Option<Flight>, i: Input)
    requires FInv(s, last) && OwnInv(cfg, s, last) && OFresh(cfg, s, last, i.msgs)
    ensures Hearing(cfg, StagesOf(cfg, s, last, i).heard, LastEntries(last), IsPrefill(last))
    ensures Ctrl(StagesOf(cfg, s, last, i).heard)
    ensures Covered(s) ==> Covered(StagesOf(cfg, s, last, i).heard)
  {
    hide OwnInv, Hearing, StagesOk, Ctrl, Uids, ProcessMsgs, AllFresh, Released, PlainIdle, DistinctEntries, Avail,
      Need, StagesOf;
    var s0 := s.(inflight := LastUids(last));
    StartHearing(cfg, s, last);
    WithInflight(s, last);
    HeardOf(cfg, s, last, i);
    MsgsHear(cfg, s0, i.msgs, LastEntries(last), IsPrefill(last));
    TickIs(cfg, s, last, i);
    HeardCtrl(s, last, i, StagesOf(cfg, s, last, i));
    if Covered(s) {
      NeedInflight(s, s0);
      MsgsCover(cfg, s0, i.msgs, LastEntries(last), IsPrefill(last));
    }
  }

  lemma {:induction false} NeedInflight(s: Sched, s0: Sched)
    requires s0 == s.(inflight := s0.inflight)
    ensures Need(s0) == Need(s)
  {
  }

  lemma {:induction false} HeardCovers(cfg: Config, s: Sched, es: seq<Entry>, tokens: seq<int>, prefill: bool, i: Input)
    requires cfg.ps == 1 && Hearing(cfg, s, es, prefill) && Ctrl(s) && Covered(s) && DistinctEntries(es)
    requires |tokens| == |es|
    ensures CanLaunch(cfg, s, i) ==> Covered(Launch(cfg, s, i).0)
    ensures Fitting(cfg, s)
  {
    hide Hearing, Launch, LInv, Waiting, Later, LagOf, Ctrl, CanLaunch, DistinctEntries, Aside, Unqueued, Avail, Need,
      Schedule, PagesFor;
    var lag := LagOf(es, tokens, s.deferred);
    var t := Caught(s, lag);
    HeardCaught(cfg, s, es, tokens, prefill);
    CaughtNeed(s, lag);
    LaunchSame(cfg, s, lag, i);
    if CanLaunch(cfg, s, i) {
      LaunchCovers(cfg, t, i, Idle(t));
      CaughtNeed(Launch(cfg, s, i).0, lag);
    }
    BatchFits(cfg, t, Idle(t));
    ScheduleSame(cfg, s, lag);
    var (s1, b) := Schedule(cfg, s);
    if b.Some? {
      PagesSame(cfg, s1.reqs, lag, b.value.entries);
    }
  }

  lemma {:induction false} ProcessCovers(cfg: Config, p: Post, es: seq<Entry>, tokens: seq<int>, fes: seq<Entry>,
                                         prefill: bool)
    requires |tokens| == |es| && Processing(cfg, p, es, tokens, fes, prefill) && Covered(p.s)
    ensures Covered(ProcessEntries(cfg, p, prefill, es, tokens).s)
  {
    hide Processing, ProcessEntries, Avail, Need, Lighter;
    EntriesProcessing(cfg, p, es, tokens, fes, prefill);
    EntriesLighter(cfg, p, prefill, es, tokens);
    LighterNeed(p.s, ProcessEntries(cfg, p, prefill, es, tokens).s);
  }

  lemma {:induction false} ApplyCovers(cfg: Config, s: Sched, es: seq<Entry>, fes: seq<Entry>)
    requires Applying(cfg, s, es, {}, fes) && Covered(s)
    ensures var s' := ApplyEntries(cfg, s, es, {}); Covered(s'.(deferred := {}, acks := [], inflight := {}))
  {
    hide Applying, ApplyEntries, Avail, Landed, Idle, Waiting;
    ApplyAll(cfg, s, es, {}, fes);
    ApplyIs(cfg, s, es, {});
    ApplyNeed(s, ApplyEntries(cfg, s, es, {}), es);
  }

  lemma {:induction false} ApplyNeed(s: Sched, s': Sched, es: seq<Entry>)
    requires Applied(s, s', es, {})
    ensures Need(s'.(deferred := {}, acks := [], inflight := {})) == Need(s)
  {
    hide Uids;
  }

  lemma {:induction false} PostCovered(cfg: Config, s: Sched, last: Option<Flight>, i: Input)
    requires cfg.ps == 1 && FInv(s, last) && OwnInv(cfg, s, last) && OFresh(cfg, s, last, i.msgs) && Covered(s)
    requires CanLaunch(cfg, StagesOf(cfg, s, last, i).heard, i)
    ensures Covered(StagesOf(cfg, s, last, i).post.s)
  {
    hide OwnInv, Hearing, Processing, CanLaunch, Ctrl, Uids, Waiting, Launch, ProcessMsgs, ProcessEntries,
      ApplyEntries, AllFresh, PlainIdle, DistinctEntries, Covered;
    var es, prefill, g := LastEntries(last), IsPrefill(last), StagesOf(cfg, s, last, i);
    HeardReady(cfg, s, last, i);
    HeardCovers(cfg, g.heard, es, Tokens(last), prefill, i);
    if last.Some? {
      StartProcessing(cfg, g.heard, i, es, Tokens(last), prefill);
      ProcessCovers(cfg, Post(g.launched, [], {}), es, Tokens(last), LastEntries(g.flight), prefill);
    }
  }

  /** A tick whose aborts come in time keeps what is needed within what can be handed out. */
  lemma {:induction false} OverlapCovered(cfg: Config, s: Sched, last: Option<Flight>, i: Input)
    requires cfg.ps == 1 && FInv(s, last) && OwnInv(cfg, s, last) && OFresh(cfg, s, last, i.msgs) && Covered(s)
    requires CanLaunch(cfg, StagesOf(cfg, s, last, i).heard, i) && !LateAbort(s, last, i.msgs)
    ensures Covered(OverlapTick(cfg, s, last, i).0)
  {
    hide OwnInv, Settling, CanLaunch, StagesOk, Ctrl, Uids, OverlapTick, StagesOf, Released, PlainIdle,
      DistinctEntries, Aborts, OFresh, Applying, Covered;
    var g := StagesOf(cfg, s, last, i);
    var s3 := g.post.s.(finished := g.post.finished);
    TickStages(cfg, s, last, i);
    TickIs(cfg, s, last, i);
    TickProcessed(cfg, s, last, i);
    HeardDeferred(s, last, i, g);
    OnTime(s, last, i.msgs);
    StartApplying(cfg, g.post.s, g.post.finished, g.flight, LastEntries(last));
    StagesApply(cfg, s, last, i);
    PostCovered(cfg, s, last, i);
    FinishedNeed(g.post.s, g.post.finished);
    ApplyCovers(cfg, s3, LastEntries(last), LastEntries(g.flight));
  }

  lemma {:induction false} FinishedNeed(s: Sched, done: set<int>)
    ensures Covered(s.(finished := done)) == Covered(s)
  {
    hide Avail;
  }

  // ---- whole runs

  lemma {:induction false} LoopCovered(cfg: Config, ins: seq<Input>)
    requires cfg.ps == 1 && IsServed(cfg, ins) && Timely(cfg, ins)
    ensures Covered(LoopAfter(cfg, ins).s)
    decreases |ins|
  {
    hide FInv, OwnInv, OverlapTick, LateAbort, InitState, CfgOk, Covered, CanLaunch, OFresh, ProcessMsgs;
    if ins == [] {
      InitCovered(cfg);
    } else {
      var was, i := ins[..|ins| - 1], ins[|ins| - 1];
      var l := LoopAfter(cfg, was);
      LoopCovered(cfg, was);
      LoopOwns(cfg, was);
      ServedLoop(cfg, was);
      LoopControl(cfg, was);
      StagesShape(l.s, l.last);
      HeardOf(cfg, l.s, l.last, i);
      OverlapCovered(cfg, l.s, l.last, i);
    }
  }

  /** Over every run of the overlap loop without a late abort, whatever fresh messages come next: the batch scheduled
  asks for no more pages than are free or evictable. */
  lemma {:induction false} OverlapAdmission(cfg: Config, ins: seq<Input>, msgs: seq<Msg>)
    requires cfg.ps == 1 && IsServed(cfg, ins) && Timely(cfg, ins)
    requires var l := LoopAfter(cfg, ins); OFresh(cfg, l.s, l.last, msgs)
    ensures var l := LoopAfter(cfg, ins);
            var (s1, b) := Schedule(cfg, ProcessMsgs(cfg, l.s.(inflight := LastUids(l.last)), msgs));
            && CacheOk(s1.cache, cfg.ps)
            && (b.Some? ==> PagesFor(cfg, s1.reqs, b.value.entries) <= Avail(s1.cache))
  {
    hide OwnInv, Hearing, Ctrl, Covered, IsServed, Timely, LoopAfter, Schedule, ProcessMsgs, PagesFor, Avail, CacheOk,
      PlainIdle, OFresh, Uids, StagesOf, DistinctEntries;
    var l := LoopAfter(cfg, ins);
    var i := Input(msgs, Eviction(map[], []), []);
    LoopCovered(cfg, ins);
    LoopOwns(cfg, ins);
    ServedLoop(cfg, ins);
    LoopControl(cfg, ins);
    HeardReady(cfg, l.s, l.last, i);
    HeardOf(cfg, l.s, l.last, i);
    var s := StagesOf(cfg, l.s, l.last, i).heard;
    HeardCovers(cfg, s, LastEntries(l.last), Tokens(l.last), IsPrefill(l.last), i);
    HeardCache(cfg, s, LastEntries(l.last), Tokens(l.last), IsPrefill(l.last));
  }

  /** Whatever the page size: when the next batch fits, the eviction it needs exists. */
  lemma {:induction false} FittingGoesOn(cfg: Config, ins: seq<Input>, msgs: seq<Msg>, tokens: seq<int>)
    returns (ev: Eviction)
    requires IsServed(cfg, ins) && Timely(cfg, ins)
    requires var l := LoopAfter(cfg, ins);
             OFresh(cfg, l.s, l.last, msgs) && Fitting(cfg, ProcessMsgs(cfg, l.s.(inflight := LastUids(l.last)), msgs))
    ensures IsServed(cfg, ins + [Input(msgs, ev, tokens)])
  {
    hide OwnInv, Hearing, Ctrl, IsServed, Timely, LoopAfter, Schedule, ProcessMsgs, PagesFor, Avail, CacheOk,
      PlainIdle, OFresh, Uids, StagesOf, DistinctEntries, LegalEviction;
    var l := LoopAfter(cfg, ins);
    LoopOwns(cfg, ins);
    ServedLoop(cfg, ins);
    LoopControl(cfg, ins);
    HeardReady(cfg, l.s, l.last, Input(msgs, Eviction(map[], []), []));
    HeardOf(cfg, l.s, l.last, Input(msgs, Eviction(map[], []), []));
    var s := StagesOf(cfg, l.s, l.last, Input(msgs, Eviction(map[], []), [])).heard;
    HeardCache(cfg, s, LastEntries(l.last), Tokens(l.last), IsPrefill(l.last));
    var (s1, b) := Schedule(cfg, s);
    ev := Eviction(s1.cache.store, []);
    if b.Some? {
      ev := CanAllocate(s1.cache, PagesFor(cfg, s1.reqs, b.value.entries), cfg.ps);
    }
    ServedStep(cfg, ins, Input(msgs, ev, tokens));
  }

  /** Hence the overlap loop never gets stuck: whatever fresh messages come next, the eviction its batch needs exists.
  */
  lemma {:induction false} OverlapGoesOn(cfg: Config, ins: seq<Input>, msgs: seq<Msg>, tokens: seq<int>)
    returns (ev: Eviction)
    requires cfg.ps == 1 && IsServed(cfg, ins) && Timely(cfg, ins)
    requires var l := LoopAfter(cfg, ins); OFresh(cfg, l.s, l.last, msgs)
    ensures IsServed(cfg, ins + [Input(msgs, ev, tokens)])
  {
    hide ProcessMsgs, Schedule, Avail, PagesFor, LoopAfter, CacheOk, OFresh, Uids, IsServed, Timely;
    OverlapAdmission(cfg, ins, msgs);
    ev := FittingGoesOn(cfg, ins, msgs, tokens);
  }
}
