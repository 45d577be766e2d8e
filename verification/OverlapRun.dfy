/** Ticks and runs of the overlap loop: the abort fence, the acknowledgements, and when a request is released once. */
module OverlapRun {
  import opened Sums
  import opened Requests
  import opened SchedSpec
  import opened SchedAdmit
  import opened SchedRound
  import opened SchedForward
  import opened SchedPost
  import opened SchedRun
  import opened Overlap

  // ---- what messages do

  ghost function Aborts(msgs: seq<Msg>): set<int> {
    set m | m in msgs && m.AbortMsg? :: m.uid
  }

  ghost function AbortCount(msgs: seq<Msg>, u: int): nat {
    if msgs == [] then 0 else (if msgs[0] == AbortMsg(u) then 1 else 0) + AbortCount(msgs[1..], u)
  }

  lemma {:induction false} AbortsSplit(msgs: seq<Msg>)
    requires msgs != []
    ensures Aborts(msgs) == (if msgs[0].AbortMsg? then {msgs[0].uid} else {}) + Aborts(msgs[1..])
  {
    forall m
      ensures m in msgs <==> m == msgs[0] || m in msgs[1..]
    {
      if m in msgs {
        var i :| 0 <= i < |msgs| && msgs[i] == m;
        assert i > 0 ==> msgs[1..][i - 1] == m;
      }
    }
  }

  /** The released requests are known, idle and released once. */
  ghost predicate Released(s: Sched) {
    && (forall u {:trigger Count(s.freed, One(u))} :: Count(s.freed, One(u)) <= 1)
    && (forall u {:trigger u in s.freed} | u in s.freed ::
          u in s.reqs && u !in s.running && u !in PendingUids(s.pending))
  }

  /** What the messages of a tick changed. */
  ghost predicate Heard(s: Sched, s': Sched, msgs: seq<Msg>) {
    && s'.reqs == s.reqs && s'.finished == s.finished && s'.inflight == s.inflight
    && s'.deferred == s.deferred + (Aborts(msgs) * s.inflight)
    && (forall u {:trigger Count(s'.acks, One(u))} ::
          Count(s'.acks, One(u)) == Count(s.acks, One(u)) + (if u in s.inflight then 0 else AbortCount(msgs, u)))
    && (forall u {:trigger Count(s'.freed, One(u))} | u in s.inflight ::
      Count(s'.freed, One(u)) == Count(s.freed, One(u)))
    && (forall u {:trigger u in s'.freed} | u in s'.freed :: u in s.freed || u in Aborts(msgs))
    && (forall u {:trigger u in s.freed} | u in s.freed :: u in s'.freed)
    && s'.running <= s.running
    && (forall u {:trigger u in PendingUids(s'.pending)} | u in PendingUids(s'.pending) ::
          u in PendingUids(s.pending) || u !in s.reqs)
    && (forall u {:trigger u in Aborts(msgs)} | u in Aborts(msgs) && u in s.reqs :: Gone(s', u))
  }

  /** Neither queued nor running. */
  ghost predicate Gone(s: Sched, u: int) {
    u !in PendingUids(s.pending) && u !in s.running
  }

  lemma {:induction false} HeardNothing(s: Sched)
    ensures Heard(s, s, [])
  {
    assert Aborts([]) == {};
    forall u
      ensures AbortCount([], u) == 0
    {
    }
  }

  lemma {:induction false} HeardMore(s: Sched, s1: Sched, s2: Sched, msgs: seq<Msg>)
    requires msgs != [] && Heard(s, s1, [msgs[0]]) && Heard(s1, s2, msgs[1..])
    ensures Heard(s, s2, msgs)
  {
    AbortsSplit(msgs);
    AbortsSplit([msgs[0]]);
    assert [msgs[0]][1..] == [] && Aborts([]) == {};
    assert Aborts([msgs[0]]) == (if msgs[0].AbortMsg? then {msgs[0].uid} else {});
    assert Aborts(msgs) * s.inflight == Aborts([msgs[0]]) * s.inflight + Aborts(msgs[1..]) * s.inflight;
    hide Count, AbortCount;
    forall u
      ensures Count(s2.acks, One(u)) == Count(s.acks, One(u)) + (if u in s.inflight then 0 else AbortCount(msgs, u))
    {
      AckMore(s, s1, s2, msgs, u);
    }
    forall u | u in s.inflight
      ensures Count(s2.freed, One(u)) == Count(s.freed, One(u))
    {
      AckMore(s, s1, s2, msgs, u);
    }
  }

  lemma {:induction false} AckMore(s: Sched, s1: Sched, s2: Sched, msgs: seq<Msg>, u: int)
    requires msgs != [] && Heard(s, s1, [msgs[0]]) && Heard(s1, s2, msgs[1..])
    ensures Count(s2.acks, One(u)) == Count(s.acks, One(u)) + (if u in s.inflight then 0 else AbortCount(msgs, u))
    ensures u in s.inflight ==> Count(s2.freed, One(u)) == Count(s.freed, One(u))
  {
    hide Count;
    assert Count(s1.acks, One(u)) == Count(s.acks, One(u)) + (if u in s.inflight then 0 else AbortCount([msgs[0]], u));
    assert [msgs[0]][1..] == [];
    assert AbortCount([], u) == 0;
    assert u in s.inflight ==> Count(s1.freed, One(u)) == Count(s.freed, One(u));
  }

  lemma {:induction false} AbortHeard(s: Sched, s': Sched, v: int)
    requires Aborted(s, s', v) && PendingUids(s'.pending) == PendingUids(s.pending) - {v}
    ensures Heard(s, s', [AbortMsg(v)])
  {
    hide Cleared;
    AbortsSplit([AbortMsg(v)]);
    assert [AbortMsg(v)][1..] == [] && Aborts([]) == {};
    forall u
      ensures Count(s'.acks, One(u)) == Count(s.acks, One(u)) + (if u in s.inflight then 0
              else AbortCount([AbortMsg(v)], u))
      ensures u in s.inflight ==> Count(s'.freed, One(u)) == Count(s.freed, One(u))
    {
      assert AbortCount([], u) == 0;
      CountConcat(s.acks, [v], One(u));
      CountConcat(s.freed, [v], One(u));
      CountOne(v, One(u));
    }
  }

  lemma {:induction false} UserHeard(cfg: Config, s: Sched, m: Msg)
    requires m.UserMsg? && Ctrl(s) && Fresh(s, m)
    ensures Heard(s, ProcessMsg(cfg, s, m), [m])
  {
    UserCtrl(cfg, s, m);
    hide Clamp, Ctrl, PendingUids;
    AbortsSplit([m]);
    assert [m][1..] == [] && Aborts([]) == {};
    forall u
      ensures AbortCount([m], u) == 0
    {
      assert AbortCount([], u) == 0;
    }
  }

  lemma {:induction false} AbortReleased(s: Sched, s': Sched, v: int)
    requires Ctrl(s) && Released(s) && Aborted(s, s', v)
    requires PendingUids(s'.pending) == PendingUids(s.pending) - {v}
    ensures Released(s')
  {
    hide Cleared, PendingUids, DistinctUids;
    CountIn(s.freed, v);
    forall u
      ensures Count(s'.freed, One(u)) <= 1
    {
      CountConcat(s.freed, [v], One(u));
      CountOne(v, One(u));
    }
  }

  lemma {:induction false} UserReleased(cfg: Config, s: Sched, m: Msg)
    requires Ctrl(s) && Released(s) && Fresh(s, m) && m.UserMsg?
    ensures Released(ProcessMsg(cfg, s, m))
  {
    hide Clamp, PendingUids, DistinctUids;
    UserCtrl(cfg, s, m);
    var s' := ProcessMsg(cfg, s, m);
    forall u
      ensures Count(s'.freed, One(u)) <= 1
    {
      assert Count(s.freed, One(u)) <= 1;
    }
  }

  lemma {:induction false} MsgsHeard(cfg: Config, s: Sched, msgs: seq<Msg>)
    requires Ctrl(s) && AllFresh(cfg, s, msgs)
    ensures var s' := ProcessMsgs(cfg, s, msgs);
            Ctrl(s') && Heard(s, s', msgs) && (Released(s) ==> Released(s'))
    decreases |msgs|
  {
    hide Ctrl, Fresh, ProcessMsg, Heard, Released, Aborted, PendingUids;
    if msgs == [] {
      HeardNothing(s);
    } else {
      var m, s1 := msgs[0], ProcessMsg(cfg, s, msgs[0]);
      if m.UserMsg? {
        UserCtrl(cfg, s, m);
        UserHeard(cfg, s, m);
        if Released(s) {
          UserReleased(cfg, s, m);
        }
      } else {
        AbortCtrl(cfg, s, m.uid);
        AbortHeard(s, s1, m.uid);
        if Released(s) {
          AbortReleased(s, s1, m.uid);
        }
      }
      MsgsHeard(cfg, s1, msgs[1..]);
      HeardMore(s, s1, ProcessMsgs(cfg, s, msgs), msgs);
    }
  }

  // ---- an aborted request stays out

  /** No message of the tick submits `u`. */
  ghost predicate NoUser(msgs: seq<Msg>, u: int) {
    forall m | m in msgs && m.UserMsg? :: m.uid != u
  }

  lemma {:induction false} MsgGone(cfg: Config, s: Sched, m: Msg, u: int)
    requires Ctrl(s) && Fresh(s, m) && (m.UserMsg? ==> m.uid != u)
    ensures Ctrl(ProcessMsg(cfg, s, m))
    ensures Gone(s, u) || m == AbortMsg(u) ==> Gone(ProcessMsg(cfg, s, m), u)
  {
    hide ProcessMsg, Cleared, PendingUids, DistinctUids;
    if m.UserMsg? {
      UserCtrl(cfg, s, m);
      UserHeard(cfg, s, m);
      UserRuns(cfg, s, m);
    } else {
      AbortCtrl(cfg, s, m.uid);
    }
  }

  lemma {:induction false} UserRuns(cfg: Config, s: Sched, m: Msg)
    requires m.UserMsg?
    ensures ProcessMsg(cfg, s, m).running == s.running
  {
    hide Clamp;
  }

  /** Once an abort of `u` is handled, `u` is neither queued nor running, whatever else the tick receives. */
  lemma {:induction false} MsgsGone(cfg: Config, s: Sched, msgs: seq<Msg>, u: int)
    requires Ctrl(s) && AllFresh(cfg, s, msgs) && NoUser(msgs, u)
    ensures Gone(s, u) || AbortMsg(u) in msgs ==> Gone(ProcessMsgs(cfg, s, msgs), u)
    decreases |msgs|
  {
    hide Ctrl, Fresh, ProcessMsg, Gone;
    if msgs != [] {
      assert msgs[0] in msgs && forall m | m in msgs[1..] :: m in msgs;
      MsgGone(cfg, s, msgs[0], u);
      MsgsGone(cfg, ProcessMsg(cfg, s, msgs[0]), msgs[1..], u);
      if AbortMsg(u) in msgs {
        var i :| 0 <= i < |msgs| && msgs[i] == AbortMsg(u);
        assert i > 0 ==> msgs[1..][i - 1] == AbortMsg(u);
      }
    }
  }

  /** An abort of `u` is among the messages, and no submission of `u` after it. */
  ghost predicate AbortLast(msgs: seq<Msg>, u: int)
    decreases |msgs|
  {
    msgs != [] && (if msgs[0] == AbortMsg(u) && NoUser(msgs[1..], u) then true else AbortLast(msgs[1..], u))
  }

  /** Once the abort of `u` is handled, the tick leaves `u` neither queued nor running, even if it was submitted in the
  same tick. */
  lemma {:induction false} MsgsAborted(cfg: Config, s: Sched, msgs: seq<Msg>, u: int)
    requires Ctrl(s) && AllFresh(cfg, s, msgs) && AbortLast(msgs, u)
    ensures Gone(ProcessMsgs(cfg, s, msgs), u)
    decreases |msgs|
  {
    hide Ctrl, Fresh, ProcessMsg, Gone;
    var s1 := ProcessMsg(cfg, s, msgs[0]);
    OneCtrl(cfg, s, msgs[0]);
    if msgs[0] == AbortMsg(u) && NoUser(msgs[1..], u) {
      MsgGone(cfg, s, msgs[0], u);
      MsgsGone(cfg, s1, msgs[1..], u);
    } else {
      MsgsAborted(cfg, s1, msgs[1..], u);
    }
  }

  lemma {:induction false} OneCtrl(cfg: Config, s: Sched, m: Msg)
    requires Ctrl(s) && Fresh(s, m)
    ensures Ctrl(ProcessMsg(cfg, s, m))
  {
    hide ProcessMsg, Cleared, PendingUids, DistinctUids;
    if m.UserMsg? {
      UserCtrl(cfg, s, m);
    } else {
      AbortCtrl(cfg, s, m.uid);
    }
  }

  lemma {:induction false} AbortLastIn(msgs: seq<Msg>, u: int)
    requires AbortLast(msgs, u)
    ensures AbortMsg(u) in msgs
    decreases |msgs|
  {
    if !(msgs[0] == AbortMsg(u) && NoUser(msgs[1..], u)) {
      AbortLastIn(msgs[1..], u);
    }
  }

  // ---- post-processing

  /** What processing the entries `es` of the last batch may change. */
  ghost predicate Processed(p: Post, p': Post, es: seq<Entry>) {
    var s, s' := p.s, p'.s;
    && s'.pending == s.pending && s'.finished == s.finished && s'.deferred == s.deferred && s'.acks == s.acks
    && s'.inflight == s.inflight && s'.running <= s.running && s.reqs.Keys <= s'.reqs.Keys <= s.reqs.Keys + Uids(es)
    && p.finished <= p'.finished && p'.finished - p.finished <= Waiting(es) - s.deferred - s.finished
    && (forall u | u in p'.finished - p.finished :: u !in s'.running)
    && |p.replies| <= |p'.replies| && p.replies == p'.replies[..|p.replies|]
    && (forall r {:trigger r in p'.replies} | r in p'.replies ::
          r in p.replies || (r.Detok? && r.uid in Waiting(es) - s.deferred))
    && (forall u {:trigger Count(s'.freed, One(u))} ::
          Count(s'.freed, One(u)) == Count(s.freed, One(u)) + (if u in p'.finished - p.finished then 1 else 0))
  }

  lemma {:induction false} ProcessedNothing(p: Post)
    ensures Processed(p, p, [])
  {
  }

  lemma {:induction false} OneProcessed(cfg: Config, p: Post, prefill: bool, e: Entry, token: int)
    requires e.uid !in p.finished
    ensures Processed(p, ProcessEntry(cfg, p, prefill, e, token), [e])
  {
    hide HandOver, IsFinished;
    var p' := ProcessEntry(cfg, p, prefill, e, token);
    assert e in [e];
    InUids([e], 0);
    forall u
      ensures Count(p'.s.freed, One(u)) == Count(p.s.freed, One(u)) + (if u in p'.finished - p.finished then 1 else 0)
    {
      CountConcat(p.s.freed, [e.uid], One(u));
      CountOne(e.uid, One(u));
    }
  }

  lemma {:induction false} ProcessedMore(p: Post, p1: Post, p2: Post, e: Entry, rest: seq<Entry>)
    requires Processed(p, p1, [e]) && Processed(p1, p2, rest) && e.uid !in Uids(rest)
    ensures Processed(p, p2, [e] + rest)
  {
    WaitingCons(e, rest);
    WaitingCons(e, []);
    NoWaiting();
    UidsSplit([e] + rest);
    UidsSplit([e]);
    NoUids();
    assert ([e] + rest)[1..] == rest && [e][1..] == [] && [e] + [] == [e];
    WaitingUids(rest);
    hide Waiting, Uids, Count;
    assert Waiting([e] + rest) == Waiting([e]) + Waiting(rest);
    assert Uids([e] + rest) == Uids([e]) + Uids(rest);
    forall u | u in p2.finished - p.finished
      ensures u in Waiting([e] + rest) - p.s.deferred - p.s.finished && u !in p2.s.running
    {
      assert u in p1.finished - p.finished || u in p2.finished - p1.finished;
    }
    ProcessedLogs(p, p1, p2, e, rest);
  }

  lemma {:induction false} ProcessedLogs(p: Post, p1: Post, p2: Post, e: Entry, rest: seq<Entry>)
    requires Processed(p, p1, [e]) && Processed(p1, p2, rest)
    ensures |p.replies| <= |p2.replies| && p.replies == p2.replies[..|p.replies|]
    ensures forall r {:trigger r in p2.replies} | r in p2.replies ::
              r in p.replies || (r.Detok? && r.uid in (Waiting([e]) + Waiting(rest)) - p.s.deferred)
    ensures forall u {:trigger Count(p2.s.freed, One(u))} ::
              Count(p2.s.freed, One(u)) == Count(p.s.freed, One(u)) + (if u in p2.finished - p.finished then 1 else 0)
  {
    hide Waiting, Uids, Count;
    assert p2.replies[..|p1.replies|][..|p.replies|] == p2.replies[..|p.replies|];
    forall u
      ensures Count(p2.s.freed, One(u)) == Count(p.s.freed, One(u)) + (if u in p2.finished - p.finished then 1 else 0)
    {
      assert Count(p1.s.freed, One(u)) == Count(p.s.freed, One(u)) + (if u in p1.finished - p.finished then 1 else 0);
    }
  }

  lemma {:induction false} EntriesProcessed(cfg: Config, p: Post, prefill: bool, es: seq<Entry>, tokens: seq<int>)
    requires |tokens| == |es| && DistinctEntries(es) && p.finished !! Uids(es)
    ensures Processed(p, ProcessEntries(cfg, p, prefill, es, tokens), es)
    decreases |es|
  {
    hide ProcessEntry, Processed, Uids, DistinctEntries;
    if es == [] {
      ProcessedNothing(p);
    } else {
      var p1 := ProcessEntry(cfg, p, prefill, es[0], tokens[0]);
      DistinctRest(es);
      UidsSplit(es);
      OneProcessed(cfg, p, prefill, es[0], tokens[0]);
      FinishedGrow(p, p1, es[0]);
      EntriesProcessed(cfg, p1, prefill, es[1..], tokens[1..]);
      ProcessedMore(p, p1, ProcessEntries(cfg, p, prefill, es, tokens), es[0], es[1..]);
      assert [es[0]] + es[1..] == es;
    }
  }

  lemma {:induction false} FinishedGrow(p: Post, p1: Post, e: Entry)
    requires Processed(p, p1, [e])
    ensures p1.finished <= p.finished + {e.uid}
  {
    WaitingCons(e, []);
    NoWaiting();
    assert [e] + [] == [e];
    forall u | u in p1.finished
      ensures u in p.finished + {e.uid}
    {
      if u !in p.finished {
        assert u in p1.finished - p.finished && u in Waiting([e]);
      }
    }
  }

  // ---- deferred aborts

  /** What applying the deferred aborts of the last batch changes. */
  ghost predicate Applied(s: Sched, s': Sched, es: seq<Entry>, done: set<int>) {
    && s'.pending == s.pending && s'.finished == s.finished && s'.deferred == s.deferred && s'.running == s.running
    && s'.inflight == s.inflight && s'.reqs == s.reqs
    && (forall u {:trigger Count(s'.acks, One(u))} ::
          Count(s'.acks, One(u)) == Count(s.acks, One(u)) + (if u in Uids(es) * s.deferred - done then 1 else 0))
    && (forall u {:trigger Count(s'.freed, One(u))} ::
          Count(s'.freed, One(u)) == Count(s.freed, One(u)) + (if u in Uids(es) * s.deferred - done then 1 else 0))
  }

  lemma {:induction false} ApplyIs(cfg: Config, s: Sched, es: seq<Entry>, done: set<int>)
    ensures Applied(s, ApplyEntries(cfg, s, es, done), es, done)
    decreases |es|
  {
    hide HandOver, Uids;
    if es == [] {
      NoUids();
    } else {
      var u := es[0].uid;
      UidsSplit(es);
      if u in s.deferred && u !in done {
        var s1 := Release(cfg, s, u);
        var s2 := s1.(acks := s1.acks + [u]);
        ApplyIs(cfg, s2, es[1..], done + {u});
        forall v
          ensures Count(s2.acks, One(v)) == Count(s.acks, One(v)) + (if v == u then 1 else 0)
          ensures Count(s2.freed, One(v)) == Count(s.freed, One(v)) + (if v == u then 1 else 0)
        {
          CountConcat(s.acks, [u], One(v));
          CountConcat(s.freed, [u], One(v));
          CountOne(u, One(v));
        }
      } else {
        ApplyIs(cfg, s, es[1..], done);
      }
    }
  }

  // ---- one tick

  /** What the overlap loop keeps from tick to tick, for the batch in flight `last`, whenever aborts arrive. */
  ghost predicate FInv(s: Sched, last: Option<Flight>) {
    && Ctrl(s) && DistinctEntries(LastEntries(last)) && LastUids(last) <= s.reqs.Keys
    && (last.Some? ==> |last.value.tokens| == |last.value.batch.entries|) && PlainIdle(s, last)
    && s.deferred == {} && s.acks == []
  }

  /** What it keeps of releases, as long as no abort comes too late. */
  ghost predicate OInv(s: Sched, last: Option<Flight>) {
    && FInv(s, last) && Released(s)
    && (forall u {:trigger u in s.freed} | u in s.freed && u in LastUids(last) :: u in s.finished)
    && (forall u {:trigger u in s.finished} | u in s.finished :: u in s.freed)
  }

  /** The stages of a tick. */
  datatype Stages = Stages(heard: Sched, launched: Sched, flight: Option<Flight>, post: Post, applied: Sched)

  ghost function StagesOf(cfg: Config, s: Sched, last: Option<Flight>, i: Input): Stages
    requires last.Some? ==> |last.value.tokens| == |last.value.batch.entries|
  {
    var s0 := s.(inflight := LastUids(last));
    var s1 := ProcessMsgs(cfg, s0, i.msgs);
    var (s2, f) := Launch(cfg, s1, i);
    var p := if last.None? then Post(s2, [], s2.finished)
             else
               ProcessEntries(cfg, Post(s2, [], {}), last.value.batch.prefill, last.value.batch.entries,
                              last.value.tokens);
    var s3 := p.s.(finished := p.finished);
    Stages(s1, s2, f, p, ApplyEntries(cfg, s3, LastEntries(last), {}))
  }

  lemma {:induction false} TickStages(cfg: Config, s: Sched, last: Option<Flight>, i: Input)
    requires last.Some? ==> |last.value.tokens| == |last.value.batch.entries|
    ensures var g := StagesOf(cfg, s, last, i);
            OverlapTick(cfg, s, last, i) ==
              (g.applied.(deferred := {}, acks := [], inflight := {}), g.flight,
                g.post.replies + AckReplies(g.applied.acks))
  {
    hide ProcessMsgs, Launch, ProcessEntries, Uids;
    NoUids();
  }

  lemma {:induction false} HeardOf(cfg: Config, s: Sched, last: Option<Flight>, i: Input)
    requires last.Some? ==> |last.value.tokens| == |last.value.batch.entries|
    ensures StagesOf(cfg, s, last, i).heard == ProcessMsgs(cfg, s.(inflight := LastUids(last)), i.msgs)
  {
    hide ProcessMsgs, Launch, ProcessEntries, ApplyEntries;
  }

  lemma {:induction false} StagesApply(cfg: Config, s: Sched, last: Option<Flight>, i: Input)
    requires last.Some? ==> |last.value.tokens| == |last.value.batch.entries|
    ensures var g := StagesOf(cfg, s, last, i);
            g.applied == ApplyEntries(cfg, g.post.s.(finished := g.post.finished), LastEntries(last), {})
  {
    hide ProcessMsgs, Launch, ProcessEntries, ApplyEntries, Uids;
  }

  lemma {:induction false} AppliedKeeps(s: Sched, s': Sched, es: seq<Entry>)
    requires Applied(s, s', es, {})
    ensures s'.reqs == s.reqs && s'.running == s.running && s'.pending == s.pending
  {
  }

  /** Messages may come in whatever order, provided each submits a uid of its own. */
  ghost predicate OFresh(cfg: Config, s: Sched, last: Option<Flight>, msgs: seq<Msg>) {
    AllFresh(cfg, s.(inflight := LastUids(last)), msgs)
  }

  lemma {:induction false} WithInflight(s: Sched, last: Option<Flight>)
    requires FInv(s, last)
    ensures Ctrl(s.(inflight := LastUids(last)))
    ensures Released(s) ==> Released(s.(inflight := LastUids(last)))
  {
    hide DistinctUids, PendingUids, Uids;
    var s0 := s.(inflight := LastUids(last));
    if Released(s) {
      forall u
        ensures Count(s0.freed, One(u)) <= 1
      {
        assert Count(s.freed, One(u)) <= 1;
      }
    }
  }

  /** What the stages of a tick say of each other. */
  ghost predicate StagesOk(s: Sched, last: Option<Flight>, i: Input, g: Stages) {
    && Ctrl(g.heard) && Heard(s.(inflight := LastUids(last)), g.heard, i.msgs)
    && Launched(g.heard, g.launched, g.flight) && Ctrl(g.launched)
    && Processed(Post(g.launched, [], if last.None? then g.launched.finished else {}), g.post, LastEntries(last))
    && Applied(g.post.s.(finished := g.post.finished), g.applied, LastEntries(last), {})
  }

  lemma {:induction false} HeardCtrl(s: Sched, last: Option<Flight>, i: Input, g: Stages)
    requires StagesOk(s, last, i, g)
    ensures Ctrl(g.heard)
  {
    hide Ctrl, Heard, Launched, Processed, Applied;
  }

  lemma {:induction false} TickIs(cfg: Config, s: Sched, last: Option<Flight>, i: Input)
    requires FInv(s, last) && OFresh(cfg, s, last, i.msgs)
    ensures StagesOk(s, last, i, StagesOf(cfg, s, last, i))
    ensures Released(s) ==> Released(StagesOf(cfg, s, last, i).heard)
  {
    hide Ctrl, Released, Heard, Launched, Processed, Applied, ProcessMsgs, Launch, ProcessEntries, ApplyEntries,
      AllFresh, Uids, DistinctEntries;
    var g := StagesOf(cfg, s, last, i);
    WithInflight(s, last);
    MsgsHeard(cfg, s.(inflight := LastUids(last)), i.msgs);
    LaunchIs(cfg, g.heard, i);
    if last.None? {
      ProcessedNothing(g.post);
    } else {
      EntriesProcessed(cfg, Post(g.launched, [], {}), last.value.batch.prefill, last.value.batch.entries,
                       last.value.tokens);
    }
    ApplyIs(cfg, g.post.s.(finished := g.post.finished), LastEntries(last), {});
  }

  // ---- released once

  /** An abort of the tick names a request that the last tick finished and that is still in the batch in flight. */
  ghost predicate LateAbort(s: Sched, last: Option<Flight>, msgs: seq<Msg>) {
    exists u :: u in Aborts(msgs) && u in s.finished && u in LastUids(last)
  }

  /** How often a request is released in the whole history up to the end of the tick. */
  lemma {:induction false} ReleaseCount(s: Sched, last: Option<Flight>, i: Input, g: Stages, u: int)
    requires FInv(s, last) && StagesOk(s, last, i, g)
    ensures Count(g.applied.freed, One(u))
         == Count(g.heard.freed, One(u))
            + (if last.Some? && u in g.post.finished then 1 else 0)
            + (if u in LastUids(last) && u in Aborts(i.msgs) then 1 else 0)
    ensures u in LastUids(last) ==> Count(g.heard.freed, One(u)) == Count(s.freed, One(u))
    ensures last.Some? && u in g.post.finished ==>
              u in LastUids(last) && u !in Aborts(i.msgs) && u !in s.finished
  {
    hide Count, Aborts, Uids, Ctrl, Released, Waiting, PendingUids;
    WaitingUids(LastEntries(last));
    var s0 := s.(inflight := LastUids(last));
    assert u in s0.inflight ==> Count(g.heard.freed, One(u)) == Count(s0.freed, One(u));
    assert Count(g.launched.freed, One(u)) == Count(g.heard.freed, One(u));
    var start := if last.None? then g.launched.finished else {};
    assert Count(g.post.s.freed, One(u)) == Count(g.launched.freed, One(u)) + (if u in g.post.finished - start then 1
           else 0);
    if last.None? {
      NoUids();
      NoWaiting();
    }
  }

  /** Each request is released at most once, however it ends, exactly when no abort of the tick hits a request that is
  already finished and still in the batch in flight. */
  lemma {:induction false} ReleasedOnce(cfg: Config, s: Sched, last: Option<Flight>, i: Input)
    requires OInv(s, last) && OFresh(cfg, s, last, i.msgs)
    ensures (forall u :: Count(OverlapTick(cfg, s, last, i).0.freed, One(u)) <= 1) <==> !LateAbort(s, last, i.msgs)
  {
    hide Count, Aborts, Uids, Ctrl, StagesOk, DistinctEntries, OverlapTick, StagesOf, PendingUids;
    TickStages(cfg, s, last, i);
    TickIs(cfg, s, last, i);
    var g := StagesOf(cfg, s, last, i);
    var s' := OverlapTick(cfg, s, last, i).0;
    if LateAbort(s, last, i.msgs) {
      var u :| u in Aborts(i.msgs) && u in s.finished && u in LastUids(last);
      ReleaseCount(s, last, i, g, u);
      CountIn(s.freed, u);
      assert Count(s'.freed, One(u)) >= 2;
    } else {
      forall u
        ensures Count(s'.freed, One(u)) <= 1
      {
        ReleaseCount(s, last, i, g, u);
        OnceHeard(s, last, i, g, u);
      }
    }
  }

  lemma {:induction false} OnceHeard(s: Sched, last: Option<Flight>, i: Input, g: Stages, u: int)
    requires OInv(s, last) && StagesOk(s, last, i, g) && Released(g.heard)
    ensures Count(g.heard.freed, One(u)) <= 1
    ensures u in LastUids(last) && u !in s.finished ==> Count(g.heard.freed, One(u)) == 0
  {
    hide Count, Aborts, Uids, Ctrl, Launched, Processed, Applied, DistinctEntries, PendingUids;
    CountIn(s.freed, u);
    assert Count(g.heard.freed, One(u)) <= 1;
    var s0 := s.(inflight := LastUids(last));
    assert u in s0.inflight ==> Count(g.heard.freed, One(u)) == Count(s0.freed, One(u));
  }

  // ---- the invariant over a tick

  lemma {:induction false} AckRepliesAre(us: seq<int>)
    ensures |AckReplies(us)| == |us|
    ensures forall r {:trigger r in AckReplies(us)} :: r in AckReplies(us) <==> r.AbortAck? && r.uid in us
  {
    forall u | u in us
      ensures AbortAck(u) in AckReplies(us)
    {
      var i :| 0 <= i < |us| && us[i] == u;
      assert AckReplies(us)[i] == AbortAck(u);
    }
  }

  lemma {:induction false} StagesKeys(s: Sched, last: Option<Flight>, i: Input, g: Stages)
    requires FInv(s, last) && StagesOk(s, last, i, g)
    ensures g.applied.reqs.Keys == g.launched.reqs.Keys && g.applied.pending == g.launched.pending
    ensures g.applied.running <= g.launched.running && s.reqs.Keys <= g.launched.reqs.Keys
    ensures g.applied.finished == g.post.finished
  {
    hide Count, Aborts, Uids, Released, Waiting, PendingUids, DistinctEntries, DistinctUids;
  }

  lemma {:induction false} StagesCtrl(s: Sched, last: Option<Flight>, i: Input, g: Stages, s': Sched)
    requires FInv(s, last) && StagesOk(s, last, i, g)
    requires s' == g.applied.(deferred := {}, acks := [], inflight := {})
    ensures Ctrl(s') && PlainIdle(s', g.flight) && DistinctEntries(LastEntries(g.flight))
    ensures LastUids(g.flight) <= s'.reqs.Keys
    ensures g.flight.Some? ==> |g.flight.value.tokens| == |g.flight.value.batch.entries|
  {
    StagesKeys(s, last, i, g);
    hide Count, Aborts, Uids, Released, Waiting, PendingUids, DistinctEntries, DistinctUids, Heard, Processed, Applied;
  }

  /** Where a request released by the end of the tick was at the start, and that it is in no later batch. */
  lemma {:induction false} FreedIdle(s: Sched, last: Option<Flight>, i: Input, g: Stages, u: int)
    requires OInv(s, last) && StagesOk(s, last, i, g) && Released(g.heard) && u in g.applied.freed
    ensures u in g.launched.reqs && u !in g.applied.running && u !in PendingUids(g.applied.pending)
    ensures u in LastUids(g.flight) ==> u in g.post.finished
  {
    StagesKeys(s, last, i, g);
    ReleaseCount(s, last, i, g, u);
    CountIn(g.applied.freed, u);
    CountIn(g.heard.freed, u);
    if u in g.heard.freed {
      HeardIdle(s, last, i, g, u);
    } else if last.Some? && u in g.post.finished {
      FinishedIdle(s, last, i, g, u);
    } else {
      DeferredIdle(s, last, i, g, u);
    }
  }

  /** A request that is neither queued nor running after the messages is in no batch and stays so. */
  lemma {:induction false} GoneStays(s: Sched, last: Option<Flight>, i: Input, g: Stages, u: int)
    requires StagesOk(s, last, i, g) && Gone(g.heard, u)
    ensures Gone(g.launched, u) && u !in LastUids(g.flight) && u !in g.applied.running
  {
    hide Count, Aborts, Uids, Ctrl, Released, Waiting, PendingUids, DistinctEntries, DistinctUids, Heard;
  }

  lemma {:induction false} HeardIdle(s: Sched, last: Option<Flight>, i: Input, g: Stages, u: int)
    requires OInv(s, last) && StagesOk(s, last, i, g) && Released(g.heard) && u in g.heard.freed
    ensures u in g.launched.reqs && Gone(g.launched, u) && u !in LastUids(g.flight) && u !in g.applied.running
  {
    hide Count, Aborts, Uids, Ctrl, Waiting, PendingUids, DistinctEntries, DistinctUids, Heard, Processed, Applied;
    assert Gone(g.heard, u);
    GoneStays(s, last, i, g, u);
  }

  lemma {:induction false} DeferredIdle(s: Sched, last: Option<Flight>, i: Input, g: Stages, u: int)
    requires FInv(s, last) && StagesOk(s, last, i, g) && u in LastUids(last) && u in Aborts(i.msgs)
    ensures u in g.launched.reqs && Gone(g.launched, u) && u !in LastUids(g.flight) && u !in g.applied.running
  {
    StagesKeys(s, last, i, g);
    hide Count, Aborts, Uids, Ctrl, Waiting, PendingUids, DistinctEntries, DistinctUids, Processed, Applied, Launched;
    assert Gone(g.heard, u);
    GoneStays(s, last, i, g, u);
  }

  lemma {:induction false} FinishedIdle(s: Sched, last: Option<Flight>, i: Input, g: Stages, u: int)
    requires FInv(s, last) && StagesOk(s, last, i, g) && last.Some? && u in g.post.finished
    ensures u in g.launched.reqs && u !in g.applied.running && u !in PendingUids(g.applied.pending)
  {
    StagesKeys(s, last, i, g);
    hide Count, Aborts, Uids, Released, Waiting, PendingUids, DistinctEntries, DistinctUids;
    assert u in g.post.finished - {};
    assert u in Waiting(LastEntries(last));
    var j := WaitingOf(LastEntries(last), u);
    WaitingUids(LastEntries(last));
    assert LastEntries(last)[j].uid !in PendingUids(s.pending);
    assert u in s.reqs;
    assert u !in PendingUids(g.heard.pending);
  }

  lemma {:induction false} StagesFinished(s: Sched, last: Option<Flight>, i: Input, g: Stages, u: int)
    requires OInv(s, last) && StagesOk(s, last, i, g) && u in g.post.finished
    ensures u in g.applied.freed
  {
    ReleaseCount(s, last, i, g, u);
    CountIn(g.applied.freed, u);
    CountIn(g.heard.freed, u);
    if last.None? {
      NoneFinished(s, last, i, g, u);
    }
  }

  lemma {:induction false} NoneFinished(s: Sched, last: Option<Flight>, i: Input, g: Stages, u: int)
    requires OInv(s, last) && StagesOk(s, last, i, g) && last.None? && u in g.post.finished
    ensures u in g.heard.freed
  {
    hide Count, Aborts, Ctrl, PendingUids, DistinctEntries, DistinctUids, Released;
    NoWaiting();
    assert LastEntries(last) == [] && g.post.finished - g.launched.finished == {};
    assert u in g.post.finished - g.launched.finished || u in g.launched.finished;
    assert u in s.finished && u in s.freed;
    NoUids();
    KeptFreed(s, last, i, g, u);
  }

  lemma {:induction false} KeptFreed(s: Sched, last: Option<Flight>, i: Input, g: Stages, u: int)
    requires StagesOk(s, last, i, g) && u in s.freed
    ensures u in g.heard.freed
  {
    hide Count, Aborts, Ctrl, PendingUids, DistinctEntries, DistinctUids, Released, Launched, Processed, Applied;
    assert u in s.(inflight := LastUids(last)).freed;
  }

  /** Every tick keeps the control invariant for the batch it launches. */
  lemma {:induction false} ControlKeeps(cfg: Config, s: Sched, last: Option<Flight>, i: Input)
    requires FInv(s, last) && OFresh(cfg, s, last, i.msgs)
    ensures var (s', f, replies) := OverlapTick(cfg, s, last, i); FInv(s', f)
  {
    hide Count, Aborts, Uids, StagesOk, OverlapTick, StagesOf, PendingUids, Ctrl, OFresh, DistinctEntries, PlainIdle;
    TickStages(cfg, s, last, i);
    TickIs(cfg, s, last, i);
    StagesCtrl(s, last, i, StagesOf(cfg, s, last, i), OverlapTick(cfg, s, last, i).0);
  }

  /** A tick without a late abort keeps the whole invariant. */
  lemma {:induction false} OverlapKeeps(cfg: Config, s: Sched, last: Option<Flight>, i: Input)
    requires OInv(s, last) && OFresh(cfg, s, last, i.msgs) && !LateAbort(s, last, i.msgs)
    ensures var (s', f, replies) := OverlapTick(cfg, s, last, i); OInv(s', f)
  {
    hide Count, Aborts, Uids, StagesOk, OverlapTick, StagesOf, PendingUids, Ctrl, LateAbort, OFresh, DistinctEntries,
      PlainIdle;
    TickStages(cfg, s, last, i);
    TickIs(cfg, s, last, i);
    ReleasedOnce(cfg, s, last, i);
    var g := StagesOf(cfg, s, last, i);
    var s' := OverlapTick(cfg, s, last, i).0;
    StagesKeys(s, last, i, g);
    StagesCtrl(s, last, i, g, s');
    forall u | u in s'.freed
      ensures u in s'.reqs && u !in s'.running && u !in PendingUids(s'.pending)
      ensures u in LastUids(g.flight) ==> u in s'.finished
    {
      FreedIdle(s, last, i, g, u);
    }
    forall u | u in s'.finished
      ensures u in s'.freed
    {
      StagesFinished(s, last, i, g, u);
    }
  }

  // ---- the abort fence

  /** The fence: the tick that handles an abort of `u` sends no token for it, leaves it out of the batch it launches,
  and sends its acknowledgement, with whatever it held released. */
  lemma {:induction false} Fence(cfg: Config, s: Sched, last: Option<Flight>, i: Input, u: int)
    requires FInv(s, last) && OFresh(cfg, s, last, i.msgs) && AbortLast(i.msgs, u)
    ensures var (s', f, replies) := OverlapTick(cfg, s, last, i);
            && (forall r {:trigger r in replies} | r in replies && r.Detok? :: r.uid != u)
            && u !in LastUids(f) && Gone(s', u) && AbortAck(u) in replies
            && (u in s.running || u in LastUids(last) || (u in PendingUids(s.pending) && u in s.reqs) ==> u in s'.freed)
  {
    hide Count, Uids, OverlapTick, StagesOf, PendingUids, Ctrl, AbortCount, AbortLast;
    var s0 := s.(inflight := LastUids(last));
    TickStages(cfg, s, last, i);
    TickIs(cfg, s, last, i);
    var g := StagesOf(cfg, s, last, i);
    AbortLastIn(i.msgs, u);
    InAborts(i.msgs, u);
    WithInflight(s, last);
    HeardOf(cfg, s, last, i);
    MsgsAborted(cfg, s0, i.msgs, u);
    GoneStays(s, last, i, g, u);
    StagesKeys(s, last, i, g);
    AckRepliesAre(g.applied.acks);
    AckCount(s, last, i, g, u);
    CountIn(g.applied.acks, u);
    PostSilent(s, last, i, g, u);
    if u !in LastUids(last) && (u in s.running || (u in PendingUids(s.pending) && u in s.reqs)) {
      MsgsRelease(cfg, s0, i.msgs, u);
    }
    FreedStays(s, last, i, g, u);
  }

  lemma {:induction false} InAborts(msgs: seq<Msg>, u: int)
    ensures u in Aborts(msgs) <==> AbortMsg(u) in msgs
    ensures AbortMsg(u) in msgs <==> AbortCount(msgs, u) > 0
    decreases |msgs|
  {
    if msgs != [] {
      AbortsSplit(msgs);
      InAborts(msgs[1..], u);
      assert AbortMsg(u) in msgs <==> msgs[0] == AbortMsg(u) || AbortMsg(u) in msgs[1..] by {
        if AbortMsg(u) in msgs {
          var i :| 0 <= i < |msgs| && msgs[i] == AbortMsg(u);
          assert i > 0 ==> msgs[1..][i - 1] == AbortMsg(u);
        }
      }
    }
  }

  /** One acknowledgement for a request in flight, however often its abort arrives; one for each abort of any other. */
  lemma {:induction false} AckCount(s: Sched, last: Option<Flight>, i: Input, g: Stages, u: int)
    requires FInv(s, last) && StagesOk(s, last, i, g)
    ensures Count(g.applied.acks, One(u))
         == if u in LastUids(last) then (if u in Aborts(i.msgs) then 1 else 0) else AbortCount(i.msgs, u)
  {
    hide Aborts, Uids, Ctrl, Released, Waiting, PendingUids, AbortCount, DistinctEntries, DistinctUids;
    var s0 := s.(inflight := LastUids(last));
    assert Count(g.heard.acks, One(u)) == Count(s0.acks, One(u)) + (if u in s0.inflight then 0
           else AbortCount(i.msgs, u));
    assert Count([], One(u)) == 0;
    assert g.post.s.acks == g.heard.acks;
  }

  /** No token of an aborted or absent request is sent. */
  lemma {:induction false} PostSilent(s: Sched, last: Option<Flight>, i: Input, g: Stages, u: int)
    requires FInv(s, last) && StagesOk(s, last, i, g) && (u in Aborts(i.msgs) || u !in LastUids(last))
    ensures forall r {:trigger r in g.post.replies} | r in g.post.replies && r.Detok? :: r.uid != u
  {
    WaitingUids(LastEntries(last));
    hide Aborts, Uids, Ctrl, Released, Waiting, PendingUids, AbortCount, Count, DistinctEntries, DistinctUids;
  }

  /** An abort outside the batch in flight releases what the request holds. */
  lemma {:induction false} MsgsRelease(cfg: Config, s: Sched, msgs: seq<Msg>, u: int)
    requires Ctrl(s) && AllFresh(cfg, s, msgs) && AbortMsg(u) in msgs && u !in s.inflight
    requires u in s.running || (u in PendingUids(s.pending) && u in s.reqs)
    ensures u in ProcessMsgs(cfg, s, msgs).freed
    decreases |msgs|
  {
    hide Ctrl, Fresh, ProcessMsg, PendingUids;
    var m, s1 := msgs[0], ProcessMsg(cfg, s, msgs[0]);
    if m == AbortMsg(u) {
      AbortCtrl(cfg, s, u);
      AbortReleasesNow(s, s1, u);
      MsgsHeard(cfg, s1, msgs[1..]);
    } else {
      var k :| 0 <= k < |msgs| && msgs[k] == AbortMsg(u);
      assert msgs[1..][k - 1] == AbortMsg(u);
      OtherMsg(cfg, s, m, u);
      MsgsRelease(cfg, s1, msgs[1..], u);
    }
  }

  lemma {:induction false} AbortReleasesNow(s: Sched, s': Sched, u: int)
    requires Aborted(s, s', u) && u !in s.inflight && (u in s.running || (u in PendingUids(s.pending) && u in s.reqs))
    ensures u in s'.freed
  {
    hide Cleared, PendingUids;
    assert (s.freed + [u])[|s.freed|] == u;
  }

  lemma {:induction false} OtherMsg(cfg: Config, s: Sched, m: Msg, u: int)
    requires Ctrl(s) && Fresh(s, m) && m != AbortMsg(u)
    ensures var s' := ProcessMsg(cfg, s, m);
            && Ctrl(s') && s'.inflight == s.inflight && s'.reqs == s.reqs && (u in s.running ==> u in s'.running)
            && (u in PendingUids(s.pending) ==> u in PendingUids(s'.pending))
  {
    if m.UserMsg? {
      UserCtrl(cfg, s, m);
      UserHeard(cfg, s, m);
      UserRuns(cfg, s, m);
      UserQueued(cfg, s, m, u);
    } else {
      AbortCtrl(cfg, s, m.uid);
    }
  }

  lemma {:induction false} UserQueued(cfg: Config, s: Sched, m: Msg, u: int)
    requires m.UserMsg?
    ensures u in PendingUids(s.pending) ==> u in PendingUids(ProcessMsg(cfg, s, m).pending)
  {
    hide Clamp;
    if u in PendingUids(s.pending) {
      var p :| p in s.pending && p.uid == u;
      assert p in ProcessMsg(cfg, s, m).pending;
    }
  }

  lemma {:induction false} FreedStays(s: Sched, last: Option<Flight>, i: Input, g: Stages, u: int)
    requires FInv(s, last) && StagesOk(s, last, i, g)
    ensures u in g.heard.freed || (u in LastUids(last) && u in Aborts(i.msgs)) ==> u in g.applied.freed
  {
    hide StagesOk, FInv, Uids, Aborts;
    ReleaseCount(s, last, i, g, u);
    CountIn(g.heard.freed, u);
    CountIn(g.applied.freed, u);
  }

  /** From then on: a request that is gone and not in flight is in no later batch, and no token of it is ever sent. */
  lemma {:induction false} StaysGone(cfg: Config, s: Sched, last: Option<Flight>, i: Input, u: int)
    requires FInv(s, last) && OFresh(cfg, s, last, i.msgs) && NoUser(i.msgs, u) && Gone(s, u) && u !in LastUids(last)
    ensures var (s', f, replies) := OverlapTick(cfg, s, last, i);
            && (forall r {:trigger r in replies} | r in replies && r.Detok? :: r.uid != u)
            && u !in LastUids(f) && Gone(s', u)
  {
    hide Count, Uids, OverlapTick, StagesOf, PendingUids, Ctrl, AbortCount;
    var s0 := s.(inflight := LastUids(last));
    TickStages(cfg, s, last, i);
    TickIs(cfg, s, last, i);
    var g := StagesOf(cfg, s, last, i);
    WithInflight(s, last);
    HeardOf(cfg, s, last, i);
    MsgsGone(cfg, s0, i.msgs, u);
    GoneStays(s, last, i, g, u);
    StagesKeys(s, last, i, g);
    AckRepliesAre(g.applied.acks);
    PostSilent(s, last, i, g, u);
  }

  // ---- whole runs

  /** The scheduler, its batch in flight and the replies of its last tick. */
  datatype Loop = Loop(s: Sched, last: Option<Flight>, replies: seq<Reply>)

  ghost function LoopAfter(cfg: Config, ins: seq<Input>): Loop
    decreases |ins|
  {
    if ins == [] then Loop(InitState(cfg), None, [])
    else
      var l := LoopAfter(cfg, ins[..|ins| - 1]);
      var (s', f, replies) := OverlapTick(cfg, l.s, l.last, ins[|ins| - 1]);
      Loop(s', f, replies)
  }

  /** A run of the overlap loop: every message is fresh. */
  ghost predicate IsLoop(cfg: Config, ins: seq<Input>)
    decreases |ins|
  {
    ins != [] ==>
      var l := LoopAfter(cfg, ins[..|ins| - 1]);
      IsLoop(cfg, ins[..|ins| - 1]) && OFresh(cfg, l.s, l.last, ins[|ins| - 1].msgs)
  }

  /** In no tick does an abort hit a request that is finished but still in flight. */
  ghost predicate Timely(cfg: Config, ins: seq<Input>)
    decreases |ins|
  {
    ins != [] ==>
      var l := LoopAfter(cfg, ins[..|ins| - 1]);
      Timely(cfg, ins[..|ins| - 1]) && !LateAbort(l.s, l.last, ins[|ins| - 1].msgs)
  }

  lemma {:induction false} LoopStep(cfg: Config, ins: seq<Input>, i: Input)
    ensures var l, l' := LoopAfter(cfg, ins), LoopAfter(cfg, ins + [i]);
            (l'.s, l'.last, l'.replies) == OverlapTick(cfg, l.s, l.last, i)
    ensures IsLoop(cfg, ins + [i]) <==>
              IsLoop(cfg, ins) && OFresh(cfg, LoopAfter(cfg, ins).s, LoopAfter(cfg, ins).last, i.msgs)
    ensures Timely(cfg, ins + [i]) <==>
              Timely(cfg, ins) && !LateAbort(LoopAfter(cfg, ins).s, LoopAfter(cfg, ins).last, i.msgs)
  {
    hide OverlapTick, OFresh, LateAbort;
    var all := ins + [i];
    assert all[..|all| - 1] == ins && all[|all| - 1] == i;
  }

  lemma {:induction false} InitLoop(cfg: Config)
    ensures OInv(InitState(cfg), None)
  {
    hide Range;
    NoUids();
    forall u
      ensures Count([], One(u)) == 0
    {
    }
  }

  /** Every reachable state of the overlap loop satisfies the control invariant. */
  lemma {:induction false} LoopControl(cfg: Config, ins: seq<Input>)
    requires IsLoop(cfg, ins)
    ensures FInv(LoopAfter(cfg, ins).s, LoopAfter(cfg, ins).last)
    decreases |ins|
  {
    hide FInv, OverlapTick, OFresh;
    if ins == [] {
      InitLoop(cfg);
      OInvControl(InitState(cfg), None);
    } else {
      var l := LoopAfter(cfg, ins[..|ins| - 1]);
      LoopControl(cfg, ins[..|ins| - 1]);
      ControlKeeps(cfg, l.s, l.last, ins[|ins| - 1]);
    }
  }

  lemma {:induction false} OInvControl(s: Sched, last: Option<Flight>)
    requires OInv(s, last)
    ensures FInv(s, last)
  {
    hide FInv;
  }

  /** Every reachable state of the overlap loop has released each request at most once, if no abort came too late. */
  lemma {:induction false} LoopKeeps(cfg: Config, ins: seq<Input>)
    requires IsLoop(cfg, ins) && Timely(cfg, ins)
    ensures OInv(LoopAfter(cfg, ins).s, LoopAfter(cfg, ins).last)
    decreases |ins|
  {
    hide OInv, OverlapTick, OFresh, LateAbort;
    if ins == [] {
      InitLoop(cfg);
    } else {
      var l := LoopAfter(cfg, ins[..|ins| - 1]);
      LoopKeeps(cfg, ins[..|ins| - 1]);
      OverlapKeeps(cfg, l.s, l.last, ins[|ins| - 1]);
    }
  }

  /** Messages never take a release back. */
  lemma {:induction false} MsgsReleases(cfg: Config, s: Sched, msgs: seq<Msg>, u: int)
    requires Ctrl(s) && AllFresh(cfg, s, msgs)
    ensures Count(ProcessMsgs(cfg, s, msgs).freed, One(u)) >= Count(s.freed, One(u))
    decreases |msgs|
  {
    hide Ctrl, Fresh, ProcessMsg, Count;
    if msgs != [] {
      var m, s1 := msgs[0], ProcessMsg(cfg, s, msgs[0]);
      OneCtrl(cfg, s, m);
      if m.UserMsg? {
        UserFreed(cfg, s, m);
      } else {
        AbortCtrl(cfg, s, m.uid);
        AbortFreed(s, s1, m.uid);
      }
      CountConcat(s.freed, [m.uid], One(u));
      MsgsReleases(cfg, s1, msgs[1..], u);
    }
  }

  lemma {:induction false} UserFreed(cfg: Config, s: Sched, m: Msg)
    requires m.UserMsg?
    ensures ProcessMsg(cfg, s, m).freed == s.freed
  {
    hide Clamp;
  }

  lemma {:induction false} AbortFreed(s: Sched, s': Sched, u: int)
    requires Aborted(s, s', u)
    ensures s'.freed == s.freed || s'.freed == s.freed + [u]
  {
    hide Cleared;
  }

  lemma {:induction false} TickReleases(cfg: Config, s: Sched, last: Option<Flight>, i: Input, u: int)
    requires FInv(s, last) && OFresh(cfg, s, last, i.msgs)
    ensures Count(OverlapTick(cfg, s, last, i).0.freed, One(u)) >= Count(s.freed, One(u))
  {
    hide Count, Uids, OverlapTick, StagesOf, FInv, StagesOk, Ctrl;
    StagesShape(s, last);
    TickStages(cfg, s, last, i);
    TickIs(cfg, s, last, i);
    WithInflight(s, last);
    HeardOf(cfg, s, last, i);
    MsgsReleases(cfg, s.(inflight := LastUids(last)), i.msgs, u);
    ReleaseCount(s, last, i, StagesOf(cfg, s, last, i), u);
  }

  /** Over whole runs: no request is released twice exactly when no abort of the run came too late. */
  lemma {:induction false} LoopReleasesOnce(cfg: Config, ins: seq<Input>)
    requires IsLoop(cfg, ins)
    ensures (forall u :: Count(LoopAfter(cfg, ins).s.freed, One(u)) <= 1) <==> Timely(cfg, ins)
    decreases |ins|
  {
    hide OverlapTick, OFresh, LateAbort, FInv, Count, Released;
    if ins == [] {
      InitLoop(cfg);
      OnceReleased(InitState(cfg));
    } else {
      var was, i := ins[..|ins| - 1], ins[|ins| - 1];
      var l := LoopAfter(cfg, was);
      LoopReleasesOnce(cfg, was);
      LoopControl(cfg, was);
      if Timely(cfg, was) {
        LoopKeeps(cfg, was);
        ReleasedOnce(cfg, l.s, l.last, i);
      } else {
        var u :| Count(l.s.freed, One(u)) > 1;
        TickReleases(cfg, l.s, l.last, i, u);
      }
    }
  }

  lemma {:induction false} OnceReleased(s: Sched)
    requires Released(s)
    ensures forall u {:trigger Count(s.freed, One(u))} :: Count(s.freed, One(u)) <= 1
  {
  }

  /** No tick of `ins` submits `u`. */
  ghost predicate NeverUser(ins: seq<Input>, u: int) {
    forall i {:trigger ins[i]} | 0 <= i < |ins| :: NoUser(ins[i].msgs, u)
  }

  /** The abort fence over runs: once a tick handled an abort of `u`, no later tick sends a token for `u` or puts it
  into a batch, as long as `u` is not submitted again. */
  lemma {:induction false} FenceHolds(cfg: Config, ins: seq<Input>, i: Input, more: seq<Input>, u: int)
    requires IsLoop(cfg, ins + [i] + more) && AbortLast(i.msgs, u) && NeverUser(more, u)
    ensures var l := LoopAfter(cfg, ins + [i] + more);
            && (forall r {:trigger r in l.replies} | r in l.replies && r.Detok? :: r.uid != u)
            && u !in LastUids(l.last) && Gone(l.s, u)
    ensures IsLoop(cfg, ins + [i])
    decreases |more|
  {
    hide FInv, OverlapTick, OFresh, Gone, Uids;
    if more == [] {
      assert ins + [i] + more == ins + [i];
      LoopStep(cfg, ins, i);
      LoopControl(cfg, ins);
      Fence(cfg, LoopAfter(cfg, ins).s, LoopAfter(cfg, ins).last, i, u);
    } else {
      var front, x := more[..|more| - 1], more[|more| - 1];
      assert ins + [i] + more == ins + [i] + front + [x];
      LoopStep(cfg, ins + [i] + front, x);
      FenceHolds(cfg, ins, i, front, u);
      LoopControl(cfg, ins + [i] + front);
      var l := LoopAfter(cfg, ins + [i] + front);
      StaysGone(cfg, l.s, l.last, x, u);
    }
  }

  /** Acknowledgements of one tick: exactly one for each request whose abort hit the batch in flight, and one for each
  abort message of any other request. */
  lemma {:induction false} AcksCounted(cfg: Config, s: Sched, last: Option<Flight>, i: Input, u: int)
    requires FInv(s, last) && OFresh(cfg, s, last, i.msgs)
    ensures AckTotal(OverlapTick(cfg, s, last, i).2, u)
         == if u in LastUids(last) then (if AbortMsg(u) in i.msgs then 1 else 0) else AbortCount(i.msgs, u)
  {
    hide Count, Uids, OverlapTick, StagesOf, OFresh, FInv, StagesOk, AbortCount;
    StagesShape(s, last);
    TickStages(cfg, s, last, i);
    TickIs(cfg, s, last, i);
    var g := StagesOf(cfg, s, last, i);
    AckCount(s, last, i, g, u);
    InAborts(i.msgs, u);
    PostNoAcks(s, last, i, g);
    AckTotalConcat(g.post.replies, AckReplies(g.applied.acks), u);
    AckTotalNone(g.post.replies, u);
    AckTotalIs(g.applied.acks, u);
  }

  lemma {:induction false} StagesShape(s: Sched, last: Option<Flight>)
    requires FInv(s, last)
    ensures last.Some? ==> |last.value.tokens| == |last.value.batch.entries|
  {
  }

  /** How many acknowledgements of `u` a list of replies holds. */
  ghost function AckTotal(rs: seq<Reply>, u: int): nat {
    if rs == [] then 0 else (if rs[0] == AbortAck(u) then 1 else 0) + AckTotal(rs[1..], u)
  }

  lemma {:induction false} AckTotalConcat(a: seq<Reply>, b: seq<Reply>, u: int)
    ensures AckTotal(a + b, u) == AckTotal(a, u) + AckTotal(b, u)
    decreases |a|
  {
    if a == [] {
      assert a + b == b;
    } else {
      AckTotalConcat(a[1..], b, u);
      assert (a + b)[1..] == a[1..] + b;
    }
  }

  lemma {:induction false} AckTotalNone(rs: seq<Reply>, u: int)
    requires forall r {:trigger r in rs} | r in rs :: r.Detok?
    ensures AckTotal(rs, u) == 0
    decreases |rs|
  {
    if rs != [] {
      assert rs[0] in rs && forall r | r in rs[1..] :: r in rs;
      AckTotalNone(rs[1..], u);
    }
  }

  lemma {:induction false} AckTotalIs(us: seq<int>, u: int)
    ensures AckTotal(AckReplies(us), u) == Count(us, One(u))
    decreases |us|
  {
    if us != [] {
      AckTotalIs(us[1..], u);
      assert AckReplies(us)[1..] == AckReplies(us[1..]);
    }
  }

  lemma {:induction false} PostNoAcks(s: Sched, last: Option<Flight>, i: Input, g: Stages)
    requires StagesOk(s, last, i, g)
    ensures forall r {:trigger r in g.post.replies} | r in g.post.replies :: r.Detok?
  {
    hide Aborts, Uids, Ctrl, Released, Waiting, Heard, Launched, Applied, Count;
  }
}
