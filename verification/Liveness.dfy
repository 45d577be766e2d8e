/** Every request that is accepted and never aborted is answered to its end: it stays queued, running or in flight until
a reply of its stream is marked finished. */
module Liveness {
  import opened Requests
  import opened SchedSpec
  import opened SchedInv
  import opened SchedAdmit
  import opened SchedRound
  import opened SchedForward
  import opened SchedPost
  import opened SchedRun
  import opened SchedEntries
  import opened SchedSettings
  import opened SchedReplies
  import opened SchedProgress
  import opened Overlap
  import opened OverlapRun
  import opened OverlapPages
  import opened OverlapStream
  import opened OverlapProgress
  import opened SampledTokens
  import Sums

  // ---- what was accepted

  /** These messages submit `u` with a prompt short enough to be accepted. */
  ghost predicate Accepts(cfg: Config, msgs: seq<Msg>, u: int) {
    exists m :: m in msgs && m.UserMsg? && m.uid == u && |m.ids| < cfg.maxSeqLen
  }

  ghost predicate WasAccepted(cfg: Config, ins: seq<Input>, u: int) {
    exists k :: 0 <= k < |ins| && Accepts(cfg, ins[k].msgs, u)
  }

  ghost predicate NeverAborted(ins: seq<Input>, u: int) {
    forall k {:trigger ins[k]} | 0 <= k < |ins| :: AbortMsg(u) !in ins[k].msgs
  }

  /** A reply of the stream is marked finished. */
  ghost predicate Ended(l: seq<Reply>) {
    exists k :: 0 <= k < |l| && l[k].Detok? && l[k].finished
  }

  /** The scheduler still has to do with `u`: it is queued, it runs, or its last token is on the way. */
  ghost predicate Owed(s: Sched, u: int, flying: set<int>) {
    u in PendingUids(s.pending) || u in s.running || (u in flying && !Get(s.reqs, u).CanDecode())
  }

  /** A running request has tokens to come. */
  ghost predicate RunCan(s: Sched, u: int) {
    u in s.running ==> Get(s.reqs, u).CanDecode()
  }

  lemma {:induction false} EndedMore(a: seq<Reply>, b: seq<Reply>)
    ensures Ended(a) || Ended(b) ==> Ended(a + b)
  {
    if Ended(a) {
      var k :| 0 <= k < |a| && a[k].Detok? && a[k].finished;
      assert (a + b)[k] == a[k];
    }
    if Ended(b) {
      var k :| 0 <= k < |b| && b[k].Detok? && b[k].finished;
      assert (a + b)[|a| + k] == b[k];
    }
  }

  // ---- messages

  lemma {:induction false} MsgOwes(cfg: Config, s: Sched, m: Msg, u: int, flying: set<int>)
    requires Ctrl(s) && m != AbortMsg(u)
    ensures Owed(s, u, flying) ==> Owed(ProcessMsg(cfg, s, m), u, flying)
    ensures Accepts(cfg, [m], u) ==> Owed(ProcessMsg(cfg, s, m), u, flying)
    ensures RunCan(s, u) ==> RunCan(ProcessMsg(cfg, s, m), u)
  {
    hide HandOver, DropPending, FindPending, Clamp, DistinctUids;
    var s' := ProcessMsg(cfg, s, m);
    if m.UserMsg? {
      if |m.ids| < cfg.maxSeqLen {
        var p := Pending(m.uid, m.ids, Clamp(cfg, m.params, |m.ids|), false);
        assert p in s'.pending && forall q | q in s.pending :: q in s'.pending;
      }
    } else {
      DropMembers(s.pending, m.uid);
      assert forall q | q in s.pending && q.uid == u :: q in DropPending(s.pending, m.uid);
    }
  }

  lemma {:induction false} AcceptsSplit(cfg: Config, msgs: seq<Msg>, u: int)
    requires msgs != []
    ensures Accepts(cfg, msgs, u) <==> Accepts(cfg, [msgs[0]], u) || Accepts(cfg, msgs[1..], u)
  {
    forall m
      ensures m in msgs <==> m in [msgs[0]] || m in msgs[1..]
    {
      assert msgs == [msgs[0]] + msgs[1..];
    }
  }

  lemma {:induction false} MsgsOwe(cfg: Config, s: Sched, msgs: seq<Msg>, u: int, flying: set<int>)
    requires Ctrl(s) && AllFresh(cfg, s, msgs) && AbortMsg(u) !in msgs
    ensures Owed(s, u, flying) || Accepts(cfg, msgs, u) ==> Owed(ProcessMsgs(cfg, s, msgs), u, flying)
    ensures RunCan(s, u) ==> RunCan(ProcessMsgs(cfg, s, msgs), u)
    decreases |msgs|
  {
    hide Ctrl, Fresh, ProcessMsg, Owed, RunCan;
    if msgs != [] {
      assert msgs[0] in msgs;
      OneCtrl(cfg, s, msgs[0]);
      MsgOwes(cfg, s, msgs[0], u, flying);
      AcceptsSplit(cfg, msgs, u);
      hide Accepts;
      MsgsOwe(cfg, ProcessMsg(cfg, s, msgs[0]), msgs[1..], u, flying);
    }
  }

  // ---- the batch

  /** A cut prompt comes back to the queue. */
  lemma {:induction false} CutBack(todo: seq<Pending>, added: seq<Req>, i: nat)
    requires |added| <= |todo| && i < |added| && added[i].chunked
    ensures todo[i].(chunk := true) in ChunkList(todo, added)
    decreases |added|
  {
    if i > 0 {
      CutBack(todo[1..], added[1..], i - 1);
    }
  }

  /** A queued request that is not taken, or cut, is still queued. */
  lemma {:induction false} RoundOwes(cfg: Config, s: Sched, a: Adder, u: int)
    requires Ctrl(s) && u in PendingUids(s.pending)
    ensures var r := AddAll(cfg, s, a, s.pending);
            u in PendingUids(ChunkList(s.pending, r.added) + s.pending[|r.added|..]) || u in Waiting(EntriesOf(r.added))
  {
    hide AddAll, ChunkList, Waiting, DistinctUids;
    var r := AddAll(cfg, s, a, s.pending);
    var p :| p in s.pending && p.uid == u;
    var k :| 0 <= k < |s.pending| && s.pending[k] == p;
    RoundIs(cfg, s, a, s.pending);
    EntriesAre(r.added);
    if k >= |r.added| {
      assert s.pending[|r.added|..][k - |r.added|] == p;
      assert p in ChunkList(s.pending, r.added) + s.pending[|r.added|..];
    } else {
      AddedUids(cfg, s, a, s.pending, k);
      if r.added[k].chunked {
        CutBack(s.pending, r.added, k);
        assert p.(chunk := true) in ChunkList(s.pending, r.added) + s.pending[|r.added|..];
      } else {
        assert EntriesOf(r.added)[k] == Entry(u, false);
        TakenWaits(EntriesOf(r.added), k, u);
      }
    }
  }

  lemma {:induction false} TakenWaits(es: seq<Entry>, k: nat, u: int)
    requires k < |es| && es[k] == Entry(u, false)
    ensures u in Waiting(es)
  {
  }

  lemma {:induction false} ScheduleOwes(cfg: Config, s: Sched, u: int)
    requires Ctrl(s) && u in PendingUids(s.pending)
    ensures var (s1, b) := Schedule(cfg, s);
            u in PendingUids(s1.pending) || (b.Some? && u in Waiting(b.value.entries))
  {
    hide AddAll, ChunkList, InflightTokens, Sorted, Ctrl, Waiting, PendingUids;
    RoundOwes(cfg, s, Adder(cfg.budget, InflightTokens(cfg, s)), u);
  }

  /** Launching a batch forgets nobody. */
  lemma {:induction false} LaunchOwes(cfg: Config, s: Sched, i: Input, u: int, flying: set<int>)
    requires Ctrl(s) && RunCan(s, u)
    ensures var (s2, f) := Launch(cfg, s, i);
            && (Owed(s, u, flying) ==> Owed(s2, u, flying + Waiting(LastEntries(f)))) && RunCan(s2, u)
  {
    hide Ctrl, Schedule, Prepare, Forward, Uids, Waiting, DistinctEntries, MadeFrom, PendingUids;
    SchedulePicks(cfg, s, u);
    var (s1, b) := Schedule(cfg, s);
    if u in PendingUids(s.pending) {
      ScheduleOwes(cfg, s, u);
    }
    if b.None? {
      NoWaiting();
    } else {
      WaitingUids(b.value.entries);
      ForwardOne(cfg, s1, b.value, i.ev, TokensFor(b.value, i.tokens), u);
    }
  }

  // ---- post-processing

  /** A request stops running only with a finished reply. */
  ghost predicate GoesOn(p: Post, u: int) {
    u in p.s.running || Ended(Said(p.replies, u))
  }

  lemma {:induction false} EntryGoesOn(cfg: Config, p: Post, prefill: bool, e: Entry, token: int, u: int)
    requires GoesOn(p, u)
    ensures GoesOn(ProcessEntry(cfg, p, prefill, e, token), u)
  {
    hide HandOver, IsFinished, Said, Ended;
    if !e.chunked && e.uid !in p.s.deferred {
      var r := Detok(e.uid, token, IsFinished(cfg, Get(p.s.reqs, e.uid).AppendHost(token), token));
      SaidConcat(p.replies, [r], u);
      SaidOne(r, u);
      EndedMore(Said(p.replies, u), SaidBy(r, u));
      EndedOne(r, u);
    }
  }

  lemma {:induction false} EndedOne(r: Reply, u: int)
    ensures r.Detok? && r.uid == u && r.finished ==> Ended(SaidBy(r, u))
  {
    if r.Detok? && r.uid == u && r.finished {
      assert SaidBy(r, u)[0] == r;
    }
  }

  lemma {:induction false} EntriesGoOn(cfg: Config, p: Post, prefill: bool, es: seq<Entry>, tokens: seq<int>, u: int)
    requires |tokens| == |es| && GoesOn(p, u)
    ensures GoesOn(ProcessEntries(cfg, p, prefill, es, tokens), u)
    decreases |es|
  {
    hide ProcessEntry, GoesOn;
    if es != [] {
      EntryGoesOn(cfg, p, prefill, es[0], tokens[0], u);
      EntriesGoOn(cfg, ProcessEntry(cfg, p, prefill, es[0], tokens[0]), prefill, es[1..], tokens[1..], u);
    }
  }

  /** Processing the batch in flight answers whoever had its last token there. */
  lemma {:induction false} BatchOwes(cfg: Config, s: Sched, b: Batch, tokens: seq<int>, u: int, flying: set<int>)
    requires |tokens| == |b.entries| && DistinctEntries(b.entries) && u !in s.deferred && RunCan(s, u)
    requires Owed(s, u, Waiting(b.entries) + flying)
    ensures var p := ProcessEntries(cfg, Post(s, [], {}), b.prefill, b.entries, tokens);
            (Owed(p.s, u, flying) || Ended(Said(p.replies, u))) && RunCan(p.s, u)
  {
    hide ProcessEntries, Waiting, Said, DistinctEntries, PendingUids, Ended;
    var p0 := Post(s, [], {});
    if u in s.running {
      EntriesGoOn(cfg, p0, b.prefill, b.entries, tokens, u);
    }
    if u in Waiting(b.entries) {
      var k := EntriesHit(cfg, p0, b.prefill, b.entries, tokens, u);
      var x := Detok(u, tokens[k], IsFinished(cfg, Get(s.reqs, u).AppendHost(tokens[k]), tokens[k]));
      EndedMore(Said([], u), [x]);
      EndedOne(x, u);
    } else {
      EntriesSkip(cfg, p0, b.prefill, b.entries, tokens, u);
    }
  }

  // ---- ticks

  /** What is kept of `u` between ticks, `l` being its stream so far. */
  ghost predicate Minded(s: Sched, u: int, l: seq<Reply>, flying: set<int>) {
    Owed(s, u, flying) || Ended(l)
  }

  lemma {:induction false} NormalOwes(cfg: Config, s: Sched, i: Input, u: int, l: seq<Reply>)
    requires NInv(cfg, s) && AllFresh(cfg, s, i.msgs) && AbortMsg(u) !in i.msgs && RunCan(s, u)
    ensures var (s', replies) := NormalTick(cfg, s, i);
            RunCan(s', u) && (Minded(s, u, l, {}) || Accepts(cfg, i.msgs, u) ==>
              Minded(s', u, l + Said(replies, u), {}))
  {
    hide NInv, Ctrl, AllFresh, ProcessMsgs, Launch, ProcessEntries, Uids, Waiting, DistinctEntries, Launched, Accepts,
      Ended, PendingUids, Said;
    PlainCtrl(cfg, s);
    MsgsOwe(cfg, s, i.msgs, u, {});
    MsgsKeep(cfg, s, i.msgs);
    var s0 := ProcessMsgs(cfg, s, i.msgs);
    PlainCtrl(cfg, s0);
    LaunchOwes(cfg, s0, i, u, {});
    LaunchIs(cfg, s0, i);
    var (s2, f) := Launch(cfg, s0, i);
    NoDeferred(cfg, s0, s2, f);
    if f.Some? {
      LaunchKeys(s0, s2, f);
    }
    var p := if f.None? then Post(s2, [], {})
             else ProcessEntries(cfg, Post(s2, [], {}), f.value.batch.prefill, f.value.batch.entries, f.value.tokens);
    SaidConcat(p.replies, AckReplies(p.s.acks), u);
    NothingSaid(p.s.acks, u);
    assert Said(p.replies, u) + [] == Said(p.replies, u);
    EndedMore(l, Said(p.replies, u));
    if f.None? {
      NoWaiting();
    } else {
      ProcessOwes(cfg, s2, f.value, u, {});
    }
  }

  lemma {:induction false} ProcessOwes(cfg: Config, s: Sched, last: Flight, u: int, flying: set<int>)
    requires |last.tokens| == |last.batch.entries| && DistinctEntries(last.batch.entries) && u !in s.deferred
    requires RunCan(s, u)
    ensures var p := ProcessEntries(cfg, Post(s, [], {}), last.batch.prefill, last.batch.entries, last.tokens);
            && (Owed(s, u, Waiting(last.batch.entries) + flying) ==> Minded(p.s, u, Said(p.replies, u), flying))
            && RunCan(p.s, u)
  {
    hide ProcessEntries, Waiting, Said, DistinctEntries, Ended;
    var es := last.batch.entries;
    if Owed(s, u, Waiting(es) + flying) {
      BatchOwes(cfg, s, last.batch, last.tokens, u, flying);
    } else if u in Waiting(es) {
      var k := EntriesHit(cfg, Post(s, [], {}), last.batch.prefill, es, last.tokens, u);
    } else {
      EntriesSkip(cfg, Post(s, [], {}), last.batch.prefill, es, last.tokens, u);
    }
  }

  lemma {:induction false} OverlapOwes(cfg: Config, s: Sched, last: Option<Flight>, i: Input, u: int, l: seq<Reply>)
    requires FInv(s, last) && OFresh(cfg, s, last, i.msgs) && AbortMsg(u) !in i.msgs && RunCan(s, u)
    ensures var (s', f, replies) := OverlapTick(cfg, s, last, i);
            && RunCan(s', u)
            && (Minded(s, u, l, Waiting(LastEntries(last))) || Accepts(cfg, i.msgs, u) ==>
                  Minded(s', u, l + Said(replies, u), Waiting(LastEntries(f))))
  {
    hide FInv, OverlapTick, StagesOk, OFresh, ProcessMsgs, Launch, ProcessEntries, ApplyEntries, Uids, DistinctEntries,
      DistinctUids, Waiting, Said, Ended, Ctrl, PendingUids, Accepts, Aborts;
    FlightShape(s, last);
    TickStages(cfg, s, last, i);
    TickIs(cfg, s, last, i);
    var g := StagesOf(cfg, s, last, i);
    HeardOwes(cfg, s, last, i, u);
    LaunchedOwes(cfg, s, last, i, u);
    StagesApply(cfg, s, last, i);
    var s3 := g.post.s.(finished := g.post.finished);
    ApplyIs(cfg, s3, LastEntries(last), {});
    AppliedKeeps(s3, g.applied, LastEntries(last));
    SaidConcat(g.post.replies, AckReplies(g.applied.acks), u);
    NothingSaid(g.applied.acks, u);
    assert Said(g.post.replies, u) + [] == Said(g.post.replies, u);
    EndedMore(l, Said(g.post.replies, u));
  }

  /** The messages of an overlap tick. */
  lemma {:induction false} HeardOwes(cfg: Config, s: Sched, last: Option<Flight>, i: Input, u: int)
    requires FInv(s, last) && OFresh(cfg, s, last, i.msgs) && AbortMsg(u) !in i.msgs && RunCan(s, u)
    ensures last.Some? ==> |last.value.tokens| == |last.value.batch.entries|
    ensures var heard := StagesOf(cfg, s, last, i).heard;
            && RunCan(heard, u)
            && (Owed(s, u, Waiting(LastEntries(last))) || Accepts(cfg, i.msgs, u) ==>
                  Owed(heard, u, Waiting(LastEntries(last))))
  {
    hide Uids, DistinctUids, Waiting, Ctrl, PendingUids, Accepts, ProcessMsgs, StagesOf, PlainIdle, DistinctEntries;
    HeardOf(cfg, s, last, i);
    WithInflight(s, last);
    MsgsOwe(cfg, s.(inflight := LastUids(last)), i.msgs, u, Waiting(LastEntries(last)));
  }

  /** The launch and the last batch of an overlap tick. */
  lemma {:induction false} LaunchedOwes(cfg: Config, s: Sched, last: Option<Flight>, i: Input, u: int)
    requires FInv(s, last) && OFresh(cfg, s, last, i.msgs) && AbortMsg(u) !in i.msgs
    requires last.Some? ==> |last.value.tokens| == |last.value.batch.entries|
    requires RunCan(StagesOf(cfg, s, last, i).heard, u)
    ensures var g := StagesOf(cfg, s, last, i);
            && RunCan(g.post.s, u)
            && (Owed(g.heard, u, Waiting(LastEntries(last))) ==>
                  Minded(g.post.s, u, Said(g.post.replies, u), Waiting(LastEntries(g.flight))))
  {
    hide FInv, StagesOk, OFresh, ProcessMsgs, Launch, ProcessEntries, ApplyEntries, Uids, DistinctEntries, Waiting,
      Said, Ended, Ctrl, PendingUids, Aborts;
    FlightShape(s, last);
    TickIs(cfg, s, last, i);
    var g := StagesOf(cfg, s, last, i);
    HeardCtrl(s, last, i, g);
    LaunchOwes(cfg, g.heard, i, u, Waiting(LastEntries(last)));
    NotAborted(s, last, i, g, u);
    if last.Some? {
      ProcessOwes(cfg, g.launched, last.value, u, Waiting(LastEntries(g.flight)));
    } else {
      NoWaiting();
    }
  }

  lemma {:induction false} NotAborted(s: Sched, last: Option<Flight>, i: Input, g: Stages, u: int)
    requires FInv(s, last) && StagesOk(s, last, i, g) && AbortMsg(u) !in i.msgs
    ensures u !in g.launched.deferred
  {
    hide Uids, Ctrl, PendingUids, AbortCount, Sums.Count, DistinctEntries, DistinctUids, Processed, Applied;
  }

  // ---- whole runs

  lemma {:induction false} AcceptedStep(cfg: Config, ins: seq<Input>, u: int)
    requires ins != []
    ensures WasAccepted(cfg, ins, u) ==>
              WasAccepted(cfg, ins[..|ins| - 1], u) || Accepts(cfg, ins[|ins| - 1].msgs, u)
    ensures NeverAborted(ins, u) ==> NeverAborted(ins[..|ins| - 1], u) && AbortMsg(u) !in ins[|ins| - 1].msgs
  {
    hide Accepts;
    var was := ins[..|ins| - 1];
    assert forall k | 0 <= k < |was| :: was[k] == ins[k];
  }

  lemma {:induction false} StartCan(cfg: Config, u: int)
    ensures RunCan(InitState(cfg), u)
  {
    hide Range;
  }

  /** Over every run of the normal loop: an accepted request that nobody aborts is queued or running, or was answered to
  its end. */
  lemma {:induction false} NobodyForgotten(cfg: Config, ins: seq<Input>, u: int)
    requires IsRun(cfg, ins) && NeverAborted(ins, u)
    ensures RunCan(StateAfter(cfg, ins), u)
    ensures WasAccepted(cfg, ins, u) ==> Minded(StateAfter(cfg, ins), u, StreamOf(cfg, ins, u), {})
    decreases |ins|
  {
    hide NInv, NormalTick, CfgOk, InitState, AllFresh, CanPrepare, Schedule, ProcessMsgs, Accepts, Minded, Said, RunCan;
    if ins == [] {
      StartCan(cfg, u);
    } else {
      var was := ins[..|ins| - 1];
      Reachable(cfg, was);
      AcceptedStep(cfg, ins, u);
      hide WasAccepted, NeverAborted;
      NobodyForgotten(cfg, was, u);
      NormalOwes(cfg, StateAfter(cfg, was), ins[|ins| - 1], u, StreamOf(cfg, was, u));
    }
  }

  /** The same over every run of the overlap loop, where the last token may still be on its way. */
  lemma {:induction false} LoopForgetsNobody(cfg: Config, ins: seq<Input>, u: int)
    requires IsLoop(cfg, ins) && NeverAborted(ins, u)
    ensures var l := LoopAfter(cfg, ins);
            && RunCan(l.s, u)
            && (WasAccepted(cfg, ins, u) ==> Minded(l.s, u, LoopStream(cfg, ins, u), Waiting(LastEntries(l.last))))
    decreases |ins|
  {
    hide FInv, OFresh, OverlapTick, InitState, Accepts, Minded, Said, Waiting, RunCan;
    if ins == [] {
      StartCan(cfg, u);
    } else {
      var was, i := ins[..|ins| - 1], ins[|ins| - 1];
      var l := LoopAfter(cfg, was);
      AcceptedStep(cfg, ins, u);
      hide WasAccepted, NeverAborted;
      LoopForgetsNobody(cfg, was, u);
      LoopControl(cfg, was);
      OverlapOwes(cfg, l.s, l.last, i, u, LoopStream(cfg, was, u));
    }
  }

  // ---- everybody is answered

  lemma {:induction false} QuietAccepts(cfg: Config, ins: seq<Input>, more: seq<Input>, u: int)
    requires WasAccepted(cfg, ins, u) && NeverAborted(ins, u) && Quiet(more)
    ensures WasAccepted(cfg, ins + more, u) && NeverAborted(ins + more, u)
  {
    hide Accepts;
    var k :| 0 <= k < |ins| && Accepts(cfg, ins[k].msgs, u);
    assert (ins + more)[k] == ins[k];
    forall j | 0 <= j < |ins + more|
      ensures AbortMsg(u) !in (ins + more)[j].msgs
    {
      if j >= |ins| {
        assert (ins + more)[j] == more[j - |ins|];
      } else {
        assert (ins + more)[j] == ins[j];
      }
    }
  }

  /** Every accepted request that nobody aborts is answered to its end, once no more messages come for a tick per unit
  of the measure. */
  lemma {:induction false} EverybodyAnswered(cfg: Config, ins: seq<Input>, more: seq<Input>, u: int)
    requires Roomy(cfg) && IsRun(cfg, ins + more) && Quiet(more) && |more| > Measure(StateAfter(cfg, ins))
    requires WasAccepted(cfg, ins, u) && NeverAborted(ins, u)
    ensures Ended(StreamOf(cfg, ins + more, u))
  {
    QuietAccepts(cfg, ins, more, u);
    hide IsRun, StateAfter, Measure, Roomy, WasAccepted, NeverAborted, StreamOf, Ended;
    AllFinish(cfg, ins, more);
    NobodyForgotten(cfg, ins + more, u);
  }

  /** The same under overlap, after any run without a late abort. */
  lemma {:induction false} LoopAnswersEverybody(cfg: Config, ins: seq<Input>, more: seq<Input>, u: int)
    requires Roomy(cfg) && IsServed(cfg, ins + more) && Timely(cfg, ins) && Quiet(more)
    requires |more| > LoopWork(LoopAfter(cfg, ins).s, LoopAfter(cfg, ins).last)
    requires WasAccepted(cfg, ins, u) && NeverAborted(ins, u)
    ensures Ended(LoopStream(cfg, ins + more, u))
  {
    QuietAccepts(cfg, ins, more, u);
    hide IsServed, Timely, LoopAfter, LoopWork, Roomy, WasAccepted, NeverAborted, LoopStream, Ended, IsLoop;
    LoopFinishes(cfg, ins, more);
    ServedLoop(cfg, ins + more);
    LoopForgetsNobody(cfg, ins + more, u);
    NoWaiting();
  }
}
