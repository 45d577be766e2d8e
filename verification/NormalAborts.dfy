/** Aborts in the normal loop, where no batch is in flight when messages are handled: the request is let go at once,
never answered again, and acknowledged once for each abort message. */
module NormalAborts {
  import opened Sums
  import opened Requests
  import opened SchedSpec
  import opened SchedInv
  import opened SchedAdmit
  import opened SchedForward
  import opened SchedPost
  import opened SchedRun
  import opened SchedSettings
  import opened CachedPrefixes
  import opened Overlap
  import opened OverlapRun

  // ---- the parts of a tick

  /** State and replies of a normal tick before the acknowledgements are sent. */
  ghost function Worked(cfg: Config, s: Sched, i: Input): Post {
    var (s2, f) := Launch(cfg, ProcessMsgs(cfg, s, i.msgs), i);
    if f.None? then Post(s2, [], {})
    else ProcessEntries(cfg, Post(s2, [], {}), f.value.batch.prefill, f.value.batch.entries, f.value.tokens)
  }

  /** What the messages left, what was launched and what it was processed to. */
  ghost predicate Parts(cfg: Config, s: Sched, i: Input, s0: Sched, s2: Sched, f: Option<Flight>) {
    && s0 == ProcessMsgs(cfg, s, i.msgs) && (s2, f) == Launch(cfg, s0, i)
    && Ctrl(s) && Heard(s, s0, i.msgs) && Launched(s0, s2, f) && s.inflight == {}
    && Processed(Post(s2, [], {}), Worked(cfg, s, i), LastEntries(f))
    && NormalTick(cfg, s, i).1 == Worked(cfg, s, i).replies + AckReplies(Worked(cfg, s, i).s.acks)
  }

  lemma {:induction false} TickParts(cfg: Config, s: Sched, i: Input)
    requires NInv(cfg, s) && AllFresh(cfg, s, i.msgs)
    ensures var s0 := ProcessMsgs(cfg, s, i.msgs);
            Parts(cfg, s, i, s0, Launch(cfg, s0, i).0, Launch(cfg, s0, i).1)
  {
    hide LInv, Ctrl, AllFresh, ProcessMsgs, Launch, ProcessEntries, Heard, Launched, Processed, Uids, DistinctEntries;
    var s0 := ProcessMsgs(cfg, s, i.msgs);
    PlainCtrl(cfg, s);
    NoFence(cfg, s);
    MsgsHeard(cfg, s, i.msgs);
    LaunchIs(cfg, s0, i);
    var (s2, f) := Launch(cfg, s0, i);
    if f.Some? {
      LaunchKeys(s0, s2, f);
      EntriesProcessed(cfg, Post(s2, [], {}), f.value.batch.prefill, f.value.batch.entries, f.value.tokens);
    } else {
      ProcessedNothing(Post(s2, [], {}));
    }
  }

  lemma {:induction false} NoFence(cfg: Config, s: Sched)
    requires NInv(cfg, s)
    ensures s.inflight == {}
  {
    hide RInv, QueueOk, HeadOk, RunningOk, DoneOk;
  }

  // ---- acknowledgements

  lemma {:induction false} NoAcksLeft(cfg: Config, ins: seq<Input>)
    ensures StateAfter(cfg, ins).acks == []
  {
    hide Launch, ProcessMsgs, ProcessLast, Range;
  }

  lemma {:induction false} TickAcks(cfg: Config, s: Sched, i: Input, s0: Sched, s2: Sched, f: Option<Flight>, u: int)
    requires Parts(cfg, s, i, s0, s2, f) && s.acks == []
    ensures AckTotal(NormalTick(cfg, s, i).1, u) == AbortCount(i.msgs, u)
  {
    hide NormalTick, Ctrl, Worked, Uids, Waiting, Gone, PlainIdle, DistinctUids, DistinctEntries, AbortCount, Aborts,
      ProcessMsgs, Launch;
    var p := Worked(cfg, s, i);
    AckTotalConcat(p.replies, AckReplies(p.s.acks), u);
    AckTotalNone(p.replies, u);
    AckTotalIs(p.s.acks, u);
    assert Count(s0.acks, One(u)) == Count(s.acks, One(u)) + AbortCount(i.msgs, u);
  }

  /** Over every run of the normal loop: each tick acknowledges every abort message it handles, once. */
  lemma {:induction false} EachAcknowledged(cfg: Config, ins: seq<Input>, i: Input, u: int)
    requires IsRun(cfg, ins + [i])
    ensures AckTotal(NormalTick(cfg, StateAfter(cfg, ins), i).1, u) == AbortCount(i.msgs, u)
  {
    hide NInv, NormalTick, CfgOk, AllFresh, CanPrepare, Schedule, ProcessMsgs, Parts, AbortCount;
    RunTick(cfg, ins, i);
    Reachable(cfg, ins);
    NoAcksLeft(cfg, ins);
    var s := StateAfter(cfg, ins);
    TickParts(cfg, s, i);
    var s0 := ProcessMsgs(cfg, s, i.msgs);
    TickAcks(cfg, s, i, s0, Launch(cfg, s0, i).0, Launch(cfg, s0, i).1, u);
  }

  // ---- the fence

  /** A request that is neither queued nor running after the messages gets no token in the tick. */
  lemma {:induction false} TickSilent(cfg: Config, s: Sched, i: Input, s0: Sched, s2: Sched, f: Option<Flight>, u: int)
    requires Parts(cfg, s, i, s0, s2, f) && Gone(s0, u)
    ensures var (s', replies) := NormalTick(cfg, s, i);
            Gone(s', u) && forall r {:trigger r in replies} | r in replies && r.Detok? :: r.uid != u
  {
    hide Ctrl, Heard, DistinctUids, PlainIdle, DistinctEntries, ProcessMsgs, Launch, ProcessEntries, PendingUids;
    AckRepliesAre(Worked(cfg, s, i).s.acks);
    WaitingUids(LastEntries(f));
    hide Uids, Waiting;
  }

  lemma {:induction false} NormalFence(cfg: Config, s: Sched, i: Input, u: int)
    requires NInv(cfg, s) && AllFresh(cfg, s, i.msgs)
    requires AbortLast(i.msgs, u) || (Gone(s, u) && NoUser(i.msgs, u))
    ensures var (s', replies) := NormalTick(cfg, s, i);
            Gone(s', u) && forall r {:trigger r in replies} | r in replies && r.Detok? :: r.uid != u
  {
    hide NInv, NormalTick, AllFresh, ProcessMsgs, Launch, Parts, Gone, Ctrl, AbortLast, NoUser;
    var s0 := ProcessMsgs(cfg, s, i.msgs);
    PlainCtrl(cfg, s);
    TickParts(cfg, s, i);
    if AbortLast(i.msgs, u) {
      MsgsAborted(cfg, s, i.msgs, u);
    } else {
      MsgsGone(cfg, s, i.msgs, u);
    }
    TickSilent(cfg, s, i, s0, Launch(cfg, s0, i).0, Launch(cfg, s0, i).1, u);
  }

  lemma {:induction false} GoneHoldsNothing(cfg: Config, s: Sched, u: int)
    requires NInv(cfg, s) && Gone(s, u)
    ensures u !in s.cache.held
  {
    hide RInv, QueueOk, HeadOk, RunningOk, DoneOk;
    assert u !in ChunkUids(s.pending);
  }

  /** The abort fence over runs of the normal loop: from the tick that handles an abort on, the request is neither
  queued nor running, holds no row, lock or page, and gets no token, as long as its uid is not submitted again. */
  lemma {:induction false} AbortedAtOnce(cfg: Config, ins: seq<Input>, i: Input, more: seq<Input>, u: int)
    requires IsRun(cfg, ins + [i] + more) && AbortLast(i.msgs, u) && NeverUser(more, u)
    ensures var all := ins + [i] + more;
            var s, replies := StateAfter(cfg, all),
                NormalTick(cfg, StateAfter(cfg, all[..|all| - 1]), all[|all| - 1]).1;
            && Gone(s, u) && u !in s.cache.held
            && forall r {:trigger r in replies} | r in replies && r.Detok? :: r.uid != u
    decreases |more|
  {
    hide NInv, NormalTick, CfgOk, AllFresh, CanPrepare, Schedule, ProcessMsgs, Gone, AbortLast, NoUser, IsRun;
    var all := ins + [i] + more;
    var was, x := all[..|all| - 1], all[|all| - 1];
    assert all == was + [x];
    RunTick(cfg, was, x);
    Reachable(cfg, was);
    Reachable(cfg, all);
    if more == [] {
      assert was == ins && x == i;
    } else {
      var front := more[..|more| - 1];
      assert was == ins + [i] + front && x == more[|more| - 1];
      assert NeverUser(front, u) by {
        assert forall j | 0 <= j < |front| :: front[j] == more[j];
      }
      AbortedAtOnce(cfg, ins, i, front, u);
    }
    NormalFence(cfg, StateAfter(cfg, was), x, u);
    GoneHoldsNothing(cfg, StateAfter(cfg, all), u);
  }
}
