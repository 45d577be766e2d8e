/** Which requests are new, said of the messages alone: uids that nobody used before. */
module Arrivals {
  import opened Sums
  import opened Requests
  import opened SchedSpec
  import opened SchedAdmit
  import opened SchedPost
  import opened SchedRun
  import opened Overlap
  import opened OverlapRun

  /** The uids that messages submit. */
  ghost function Submitted(msgs: seq<Msg>): set<int> {
    set m | m in msgs && m.UserMsg? :: m.uid
  }

  /** Every submitted request has tokens, and a uid that is neither known nor submitted twice. */
  ghost predicate Newcomers(known: set<int>, msgs: seq<Msg>)
    decreases |msgs|
  {
    msgs != [] ==>
      && (msgs[0].UserMsg? ==> msgs[0].ids != [] && msgs[0].uid !in known)
      && Newcomers(known + Submitted([msgs[0]]), msgs[1..])
  }

  /** Every uid the scheduler has heard of. */
  ghost function Known(s: Sched): set<int> {
    s.reqs.Keys + PendingUids(s.pending)
  }

  lemma {:induction false} SubmittedSplit(msgs: seq<Msg>)
    requires msgs != []
    ensures Submitted(msgs) == Submitted([msgs[0]]) + Submitted(msgs[1..])
  {
    forall m
      ensures m in msgs <==> m in [msgs[0]] || m in msgs[1..]
    {
      assert msgs == [msgs[0]] + msgs[1..];
    }
  }

  /** A message whose uid is new is fresh, and the scheduler then knows nothing but the uids submitted. */
  lemma {:induction false} MsgNew(cfg: Config, s: Sched, m: Msg, known: set<int>)
    requires Ctrl(s) && Known(s) <= known && (m.UserMsg? ==> m.ids != [] && m.uid !in known)
    ensures Fresh(s, m) && Known(ProcessMsg(cfg, s, m)) <= known + Submitted([m])
  {
    hide Ctrl, Aborted;
    if m.UserMsg? {
      forall i | 0 <= i < |s.pending|
        ensures s.pending[i].uid != m.uid
      {
        assert s.pending[i] in s.pending;
      }
      UserCtrl(cfg, s, m);
      assert m in [m];
      UserReqs(cfg, s, m);
    } else {
      AbortCtrl(cfg, s, m.uid);
      AbortedReqs(s, ProcessMsg(cfg, s, m), m.uid);
    }
  }

  lemma {:induction false} UserReqs(cfg: Config, s: Sched, m: Msg)
    requires m.UserMsg?
    ensures ProcessMsg(cfg, s, m).reqs == s.reqs
  {
    hide Clamp;
  }

  lemma {:induction false} AbortedReqs(s: Sched, s': Sched, u: int)
    requires Aborted(s, s', u)
    ensures s'.reqs == s.reqs
  {
    hide Cleared;
  }

  lemma {:induction false} MsgsNew(cfg: Config, s: Sched, msgs: seq<Msg>, known: set<int>)
    requires Ctrl(s) && Known(s) <= known && Newcomers(known, msgs)
    ensures Ctrl(ProcessMsgs(cfg, s, msgs)) && AllFresh(cfg, s, msgs)
    ensures Known(ProcessMsgs(cfg, s, msgs)) <= known + Submitted(msgs)
    decreases |msgs|
  {
    hide Ctrl, Fresh, ProcessMsg, Known, Submitted;
    if msgs != [] {
      MsgNew(cfg, s, msgs[0], known);
      OneCtrl(cfg, s, msgs[0]);
      MsgsNew(cfg, ProcessMsg(cfg, s, msgs[0]), msgs[1..], known + Submitted([msgs[0]]));
      SubmittedSplit(msgs);
      assert known + Submitted([msgs[0]]) + Submitted(msgs[1..]) == known + Submitted(msgs);
    }
  }

  lemma {:induction false} RunningKnown(s: Sched)
    requires Ctrl(s)
    ensures s.running <= Known(s)
  {
  }

  lemma {:induction false} KnownInflight(s: Sched, us: set<int>)
    ensures Known(s.(inflight := us)) == Known(s)
  {
  }

  /** A tick learns of no uid but those its messages submit. */
  lemma {:induction false} TickKnown(cfg: Config, s: Sched, last: Option<Flight>, i: Input, known: set<int>)
    requires FInv(s, last) && OFresh(cfg, s, last, i.msgs)
    requires Known(ProcessMsgs(cfg, s.(inflight := LastUids(last)), i.msgs)) <= known
    ensures Known(OverlapTick(cfg, s, last, i).0) <= known
  {
    hide FInv, OFresh, StagesOf, OverlapTick, ProcessMsgs, Uids, StagesOk;
    StagesShape(s, last);
    TickStages(cfg, s, last, i);
    TickIs(cfg, s, last, i);
    HeardOf(cfg, s, last, i);
    var g := StagesOf(cfg, s, last, i);
    StagesKeys(s, last, i, g);
    StagesLaunched(s, last, i, g);
  }

  lemma {:induction false} StagesLaunched(s: Sched, last: Option<Flight>, i: Input, g: Stages)
    requires StagesOk(s, last, i, g)
    ensures Known(g.launched) <= Known(g.heard)
  {
    hide Uids, Heard, Processed, Applied, Count, Aborts, DistinctUids, DistinctEntries;
    RunningKnown(g.heard);
  }

  lemma {:induction false} StartKnown(cfg: Config)
    ensures Known(InitState(cfg)) == {}
  {
    hide Range;
  }
}
