/** What the reader of a request gets, over whole runs of the system: everything the scheduler sends for it, in order
and each once, as long as its abort is not pending; and what is tokenized reaches the scheduler as it was asked for. */
module Delivery {
  import CacheSpec
  import opened Requests
  import opened SchedSpec
  import opened SchedPost
  import opened SchedRun
  import opened SchedEntries
  import opened Overlap
  import opened OverlapRun
  import opened OverlapReplies
  import opened Arrivals
  import opened Tokenizer
  import opened Frontend
  import opened AbortChain

  // ---- the messages of one request

  /** The replies for `u` in a queue to the API server. */
  function RepliesFor(ms: seq<FrontMsg>, u: int): seq<FrontMsg> {
    if ms == [] then []
    else (if ms[0].UserReply? && ms[0].uid == u then [ms[0]] else []) + RepliesFor(ms[1..], u)
  }

  /** The replies for `u` that a worker's queue will yield. */
  function Coming(ms: seq<TokMsg>, u: int): seq<FrontMsg> {
    if ms == [] then []
    else
      (if ms[0].Detokenize? && ms[0].uid == u then [UserReply(u, ms[0].token, ms[0].finished)]
        else []) + Coming(ms[1..], u)
  }

  /** The replies for `u` the scheduler sends. */
  function Sending(rs: seq<Reply>, u: int): seq<FrontMsg> {
    if rs == [] then []
    else (if rs[0].Detok? && rs[0].uid == u then [UserReply(u, rs[0].token, rs[0].finished)] else []) + Sending(rs[1..],
      u)
  }

  lemma {:induction false} RepliesConcat(a: seq<FrontMsg>, b: seq<FrontMsg>, u: int)
    ensures RepliesFor(a + b, u) == RepliesFor(a, u) + RepliesFor(b, u)
    decreases |a|
  {
    if a == [] {
      assert a + b == b && [] + RepliesFor(b, u) == RepliesFor(b, u);
    } else {
      RepliesConcat(a[1..], b, u);
      assert (a + b)[1..] == a[1..] + b && (a + b)[0] == a[0];
    }
  }

  lemma {:induction false} ComingConcat(a: seq<TokMsg>, b: seq<TokMsg>, u: int)
    ensures Coming(a + b, u) == Coming(a, u) + Coming(b, u)
    decreases |a|
  {
    if a == [] {
      assert a + b == b && [] + Coming(b, u) == Coming(b, u);
    } else {
      ComingConcat(a[1..], b, u);
      assert (a + b)[1..] == a[1..] + b && (a + b)[0] == a[0];
    }
  }

  lemma {:induction false} SentComing(rs: seq<Reply>, u: int)
    ensures Coming(FromScheduler(rs), u) == Sending(rs, u)
    decreases |rs|
  {
    if rs != [] {
      SentComing(rs[1..], u);
      assert FromScheduler(rs)[1..] == FromScheduler(rs[1..]);
    }
  }

  lemma {:induction false} RepliesWorked(ms: seq<TokMsg>, u: int)
    ensures RepliesFor(UserReplies(ms), u) == Coming(ms, u)
    decreases |ms|
  {
    if ms != [] {
      RepliesWorked(ms[1..], u);
      if ms[0].Detokenize? {
        assert UserReplies(ms)[1..] == UserReplies(ms[1..]);
      } else {
        assert UserReplies(ms) == UserReplies(ms[1..]);
      }
    }
  }

  lemma {:induction false} NoReplyInAcks(ms: seq<TokMsg>, u: int)
    ensures RepliesFor(AbortAcks(ms), u) == []
    decreases |ms|
  {
    if ms != [] {
      NoReplyInAcks(ms[1..], u);
      if ms[0].Ack? {
        assert AbortAcks(ms)[1..] == AbortAcks(ms[1..]);
      } else {
        assert AbortAcks(ms) == AbortAcks(ms[1..]);
      }
    }
  }

  /** A worker's batch passes the replies of `u` on, in order. */
  lemma {:induction false} WorkedInOrder(ms: seq<TokMsg>, u: int)
    ensures RepliesFor(ToFront(ms), u) == Coming(ms, u)
  {
    RepliesConcat(UserReplies(ms), AbortAcks(ms), u);
    RepliesWorked(ms, u);
    NoReplyInAcks(ms, u);
    assert Coming(ms, u) + [] == Coming(ms, u);
  }

  lemma {:induction false} NothingSent(rs: seq<Reply>, u: int)
    requires Said(rs, u) == []
    ensures Sending(rs, u) == []
    decreases |rs|
  {
    if rs != [] {
      assert SaidBy(rs[0], u) == [] && Said(rs[1..], u) == [];
      NothingSent(rs[1..], u);
    }
  }

  // ---- what a run did for one request

  /** The replies the scheduler sent, those the listener heard, and those the reader took. */
  datatype Trace = Trace(sent: seq<FrontMsg>, heard: seq<FrontMsg>, taken: seq<FrontMsg>)

  ghost function StepTrace(cfg: Config, c: Chain, st: Step, tr: Trace, u: int): Trace {
    if !Enabled(c, st) then tr
    else
      match st
      case Tick(n, ev, tokens) =>
        tr.(sent := tr.sent + Sending(OverlapTick(cfg, c.sched, c.last, TickInput(c, n, ev, tokens)).2, u))
      case Hear => tr.(heard := tr.heard + RepliesFor([c.toFront[0]], u))
      case Take(v) => if v == u && u in c.front.acks then tr.(taken := tr.taken + c.front.acks[u]) else tr
      case _ => tr
  }

  ghost function TraceOf(cfg: Config, c: Chain, steps: seq<Step>, u: int): Trace
    decreases |steps|
  {
    if steps == [] then Trace([], [], [])
    else
      var was, st := steps[..|steps| - 1], steps[|steps| - 1];
      StepTrace(cfg, Run(cfg, c, was), st, TraceOf(cfg, c, was, u), u)
  }

  /** On its way to the listener. */
  ghost function OnTheWay(c: Chain, u: int): seq<FrontMsg>
    requires 0 < |c.boxes|
  {
    RepliesFor(c.toFront, u) + Coming(c.boxes[0], u)
  }

  /** What the reader took and what waits for it are what was heard; it is woken while something waits. */
  ghost predicate Streamed(f: Front, tr: Trace, u: int) {
    u in f.acks ==>
      && (u !in f.pending ==> tr.taken + f.acks[u] == tr.heard)
      && (f.acks[u] != [] ==> u in f.events && f.events[u])
  }

  ghost predicate Delivering(c: Chain, tr: Trace, u: int) {
    && 0 < |c.boxes| && tr.sent == tr.heard + OnTheWay(c, u)
    && (forall w {:trigger c.boxes[w]} | 0 < w < |c.boxes| :: Coming(c.boxes[w], u) == [])
    && Streamed(c.front, tr, u) && (u >= c.front.counter ==> tr.sent == [] && tr.taken == [])
  }

  // ---- the steps

  /** Steps that put nothing for `u` anywhere. */
  lemma {:induction false} PutKeeps(c: Chain, c': Chain, w: nat, ms: seq<TokMsg>, tr: Trace, u: int)
    requires Delivering(c, tr, u) && w < |c.boxes| && Coming(ms, u) == [] && c'.boxes == PutBox(c, w, ms)
    requires c'.toFront == c.toFront
    ensures 0 < |c'.boxes| && OnTheWay(c', u) == OnTheWay(c, u)
    ensures forall v {:trigger c'.boxes[v]} | 0 < v < |c'.boxes| :: Coming(c'.boxes[v], u) == []
  {
    hide RepliesFor, Coming, Streamed;
    ComingConcat(c.boxes[w], ms, u);
    assert Coming(c.boxes[w], u) + [] == Coming(c.boxes[w], u);
  }

  lemma {:induction false} AskDelivers(cfg: Config, c: Chain, st: Step, tr: Trace, u: int)
    requires FrontOk(c.front) && Delivering(c, tr, u) && Enabled(c, st) && (st.NewRequest? || st.SendAbort?)
    ensures Delivering(Do(cfg, c, st), tr, u)
  {
    hide RepliesFor;
    var m := if st.NewRequest? then Tokenize(c.front.counter, st.ids, st.params) else Abort(c.sending[st.k]);
    assert [m][1..] == [];
    var c' := Do(cfg, c, st);
    PutKeeps(c, c', st.w, [m], tr, u);
    hide Coming;
    if st.NewRequest? && u == c.front.counter {
      assert tr.heard == [] && tr.taken == [];
    }
  }

  lemma {:induction false} WorkDelivers(cfg: Config, c: Chain, w: nat, n: nat, tr: Trace, u: int)
    requires Delivering(c, tr, u) && Enabled(c, Work(w, n))
    ensures Delivering(Do(cfg, c, Work(w, n)), tr, u)
  {
    hide RepliesFor, Coming, ToBack, ToFront, Streamed;
    var c', batch, rest := Do(cfg, c, Work(w, n)), c.boxes[w][..n], c.boxes[w][n..];
    assert c.boxes[w] == batch + rest;
    ComingConcat(batch, rest, u);
    WorkedInOrder(batch, u);
    RepliesConcat(c.toFront, ToFront(batch), u);
    assert c'.toFront == c.toFront + ToFront(batch) && c'.boxes == c.boxes[w := rest];
    if w == 0 {
      assert RepliesFor(c.toFront, u) + Coming(batch, u) + Coming(rest, u)
          == RepliesFor(c.toFront, u) + (Coming(batch, u) + Coming(rest, u));
    } else {
      assert Coming(batch, u) == [] && Coming(rest, u) == [];
      assert RepliesFor(c.toFront, u) + [] == RepliesFor(c.toFront, u);
    }
  }

  /** What the listener does with one message, for the reader of `u`. */
  lemma {:induction false} HearStreams(f: Front, m: FrontMsg, tr: Trace, tr': Trace, u: int)
    requires FrontOk(f) && Streamed(f, tr, u) && tr'.taken == tr.taken && tr'.heard == tr.heard + RepliesFor([m], u)
    ensures Streamed(HearOp(f, m), tr', u)
  {
    OneReply(m, u);
    hide RepliesFor;
    if u in f.acks {
      assert tr.taken + f.acks[u] + [m] == tr.taken + (f.acks[u] + [m]);
      assert tr.heard + [] == tr.heard;
    }
  }

  lemma {:induction false} HearDelivers(cfg: Config, c: Chain, tr: Trace, u: int)
    requires FrontOk(c.front) && Delivering(c, tr, u) && Enabled(c, Hear)
    ensures Delivering(Do(cfg, c, Hear), StepTrace(cfg, c, Hear, tr, u), u)
  {
    hide FrontOk, RepliesFor, Coming, Streamed, HearOp;
    var c', m := Do(cfg, c, Hear), c.toFront[0];
    var tr', one := StepTrace(cfg, c, Hear, tr, u), RepliesFor([m], u);
    RepliesConcat([m], c.toFront[1..], u);
    assert c.toFront == [m] + c.toFront[1..];
    assert tr.heard + (one + RepliesFor(c.toFront[1..], u) + Coming(c.boxes[0], u))
        == tr.heard + one + (RepliesFor(c.toFront[1..], u) + Coming(c.boxes[0], u));
    HearStreams(c.front, m, tr, tr', u);
    assert c'.front.counter == c.front.counter by { HearCounter(c.front, m); }
  }

  lemma {:induction false} HearCounter(f: Front, m: FrontMsg)
    ensures HearOp(f, m).counter == f.counter
  {
  }

  lemma {:induction false} OneReply(m: FrontMsg, u: int)
    ensures RepliesFor([m], u) == if m.UserReply? && m.uid == u then [m] else []
  {
    assert [m][1..] == [];
  }

  lemma {:induction false} TakeDelivers(cfg: Config, c: Chain, v: int, tr: Trace, u: int)
    requires FrontOk(c.front) && Delivering(c, tr, u)
    ensures Delivering(Do(cfg, c, Take(v)), StepTrace(cfg, c, Take(v), tr, u), u)
  {
    hide RepliesFor, Coming;
    if v == u && u in c.front.acks {
      assert tr.taken + c.front.acks[u] + [] == tr.taken + c.front.acks[u];
    }
  }

  lemma {:induction false} MarkDelivers(cfg: Config, c: Chain, v: int, tr: Trace, u: int)
    requires Delivering(c, tr, u) && Enabled(c, MarkAbort(v))
    ensures Delivering(Do(cfg, c, MarkAbort(v)), tr, u)
  {
    hide RepliesFor, Coming;
  }

  /** The scheduler sends nothing for a uid that was not handed out. */
  lemma {:induction false} OnlyKnown(cfg: Config, c: Chain, n: nat, ev: CacheSpec.Eviction, tokens: seq<int>, u: int)
    requires CInv(c) && Enabled(c, Tick(n, ev, tokens)) && u >= c.front.counter
    ensures Sending(OverlapTick(cfg, c.sched, c.last, TickInput(c, n, ev, tokens)).2, u) == []
  {
    hide FrontOk, HasTokens, Alive, Silenced, OverlapTick, AllFresh, ProcessMsgs, Ctrl, Said, Sending, BoxCount,
      UserCount, Uids, PlainIdle, DistinctEntries, Waiting, Aborts;
    var i := TickInput(c, n, ev, tokens);
    TickFresh(cfg, c, n);
    SentExactly(cfg, c.sched, c.last, i, u);
    WaitingUids(LastEntries(c.last));
    assert OneCopy(c, u);
    assert u !in c.seen;
    assert u !in Known(c.sched);
    NothingSent(OverlapTick(cfg, c.sched, c.last, i).2, u);
  }

  lemma {:induction false} TickDelivers(cfg: Config, c: Chain, n: nat, ev: CacheSpec.Eviction, tokens: seq<int>,
                                        tr: Trace, u: int)
    requires CInv(c) && Delivering(c, tr, u) && Enabled(c, Tick(n, ev, tokens))
    ensures Delivering(Do(cfg, c, Tick(n, ev, tokens)), StepTrace(cfg, c, Tick(n, ev, tokens), tr, u), u)
  {
    hide CInv, RepliesFor, Coming, OverlapTick, FromScheduler, Sending, Submitted, Aborts;
    var replies := OverlapTick(cfg, c.sched, c.last, TickInput(c, n, ev, tokens)).2;
    ComingConcat(c.boxes[0], FromScheduler(replies), u);
    SentComing(replies, u);
    assert tr.heard + (RepliesFor(c.toFront, u) + Coming(c.boxes[0], u)) + Sending(replies, u)
        == tr.heard + (RepliesFor(c.toFront, u) + (Coming(c.boxes[0], u) + Sending(replies, u)));
    if u >= c.front.counter {
      OnlyKnown(cfg, c, n, ev, tokens, u);
    }
  }

  lemma {:induction false} StepDelivers(cfg: Config, c: Chain, st: Step, tr: Trace, u: int)
    requires CInv(c) && Delivering(c, tr, u)
    ensures Delivering(Do(cfg, c, st), StepTrace(cfg, c, st, tr, u), u)
  {
    assert FrontOk(c.front);
    hide CInv, FrontOk, Delivering, Next, Sending, RepliesFor, OverlapTick;
    if Enabled(c, st) {
      match st
      case NewRequest(ids, params, w) => AskDelivers(cfg, c, st, tr, u);
      case MarkAbort(v) => MarkDelivers(cfg, c, v, tr, u);
      case SendAbort(k, w) => AskDelivers(cfg, c, st, tr, u);
      case Work(w, n) => WorkDelivers(cfg, c, w, n, tr, u);
      case Tick(n, ev, tokens) => TickDelivers(cfg, c, n, ev, tokens, tr, u);
      case Hear => HearDelivers(cfg, c, tr, u);
      case Take(v) => TakeDelivers(cfg, c, v, tr, u);
    }
  }

  lemma {:induction false} StartDelivers(cfg: Config, workers: nat, u: int)
    requires workers > 0
    ensures Delivering(Start(cfg, workers), Trace([], [], []), u)
  {
    hide InitState;
  }

  lemma {:induction false} RunDelivers(cfg: Config, workers: nat, steps: seq<Step>, u: int)
    requires workers > 0
    ensures Delivering(Run(cfg, Start(cfg, workers), steps), TraceOf(cfg, Start(cfg, workers), steps, u), u)
    decreases |steps|
  {
    hide CInv, Delivering, StepTrace, Do, Start;
    var c := Start(cfg, workers);
    if steps == [] {
      StartDelivers(cfg, workers, u);
    } else {
      var was, st := steps[..|steps| - 1], steps[|steps| - 1];
      assert steps == was + [st];
      RunConcat(cfg, c, was, [st]);
      RunOne(cfg, Run(cfg, c, was), st);
      StartKeeps(cfg, workers);
      RunKeeps(cfg, c, was);
      RunDelivers(cfg, workers, was, u);
      StepDelivers(cfg, Run(cfg, c, was), st, TraceOf(cfg, c, was, u), u);
    }
  }

  /** Over every run of the system: what the reader of a known request whose abort is not pending took so far, followed
  by what waits for it and what is on its way, is what the scheduler sent for it, in order and each once; what it took
  and what waits are exactly what the listener heard; and whenever something waits, the reader's event is set. */
  lemma {:induction false} RepliesDelivered(cfg: Config, workers: nat, steps: seq<Step>, u: int)
    requires workers > 0 && u in Run(cfg, Start(cfg, workers), steps).front.acks
    ensures var c, tr := Run(cfg, Start(cfg, workers), steps), TraceOf(cfg, Start(cfg, workers), steps, u);
            && 0 < |c.boxes|
            && (u !in c.front.pending ==>
                  tr.taken + c.front.acks[u] == tr.heard && tr.taken + c.front.acks[u] + OnTheWay(c, u) == tr.sent)
            && (c.front.acks[u] != [] ==> u in c.front.events && c.front.events[u])
  {
    hide Run, Start, TraceOf, OnTheWay;
    RunDelivers(cfg, workers, steps, u);
  }

  // ---- what was asked for reaches the scheduler

  /** The request that a run asked for under the uid `u`. */
  ghost function AskedFor(cfg: Config, c: Chain, steps: seq<Step>, u: int): Option<Msg>
    decreases |steps|
  {
    if steps == [] then None
    else
      var was, st := steps[..|steps| - 1], steps[|steps| - 1];
      var before := Run(cfg, c, was);
      if st.NewRequest? && Enabled(before, st) && before.front.counter == u then Some(UserMsg(u, st.ids, st.params))
      else AskedFor(cfg, c, was, u)
  }

  /** Whatever copy of the request of `u` is under way is the one asked for. */
  ghost predicate Genuine(c: Chain, asked: Option<Msg>, u: int) {
    && (forall w, m {:trigger m in c.boxes[w]} | 0 <= w < |c.boxes| && m in c.boxes[w] && m.Tokenize? && m.uid == u ::
          asked == Some(UserMsg(u, m.ids, m.params)))
    && (forall m {:trigger m in c.back} | m in c.back && m.UserMsg? && m.uid == u :: asked == Some(m))
  }

  lemma {:induction false} UsersGenuine(ms: seq<TokMsg>, u: int, asked: Option<Msg>)
    requires forall m | m in ms && m.Tokenize? && m.uid == u :: asked == Some(UserMsg(u, m.ids, m.params))
    ensures forall m | m in ToBack(ms) && m.UserMsg? && m.uid == u :: asked == Some(m)
    decreases |ms|
  {
    if ms != [] {
      Parts(ms);
      UsersGenuine(ms[1..], u, asked);
      assert forall m | m in ToBack(ms) :: m in Users(ms) || m in AbortMsgs(ms);
      assert forall m | m in Users(ms[1..]) :: m in ToBack(ms[1..]);
    }
  }

  lemma {:induction false} WorkGenuine(cfg: Config, c: Chain, w: nat, n: nat, asked: Option<Msg>, u: int)
    requires Genuine(c, asked, u) && Enabled(c, Work(w, n))
    ensures Genuine(Do(cfg, c, Work(w, n)), asked, u)
  {
    hide ToBack, ToFront;
    var batch := c.boxes[w][..n];
    assert forall m | m in batch :: m in c.boxes[w];
    UsersGenuine(batch, u, asked);
    var c' := Do(cfg, c, Work(w, n));
    assert forall v, m | 0 <= v < |c'.boxes| && m in c'.boxes[v] :: m in c.boxes[v];
    assert forall m | m in c'.back :: m in c.back || m in ToBack(batch);
  }

  /** Nothing of a uid that was not handed out is under way. */
  lemma {:induction false} NoneYet(c: Chain, asked: Option<Msg>)
    requires CInv(c)
    ensures Genuine(c, asked, c.front.counter)
  {
    hide FrontOk, SchedOk, HasTokens, Alive, Silenced;
    var u := c.front.counter;
    assert OneCopy(c, u);
    forall w, m | 0 <= w < |c.boxes| && m in c.boxes[w] && m.Tokenize? && m.uid == u
      ensures false
    {
      BoxCounts(c.boxes, w, u);
      TokenizeIn(c.boxes[w], m);
    }
    forall m | m in c.back && m.UserMsg? && m.uid == u
      ensures false
    {
      UserIn(c.back, m);
    }
  }

  lemma {:induction false} BoxCounts(boxes: seq<seq<TokMsg>>, w: nat, u: int)
    requires w < |boxes|
    ensures TokenizeCount(boxes[w], u) <= BoxCount(boxes, u)
    decreases |boxes|
  {
    if w > 0 {
      BoxCounts(boxes[1..], w - 1, u);
    }
  }

  lemma {:induction false} TokenizeIn(ms: seq<TokMsg>, m: TokMsg)
    requires m in ms && m.Tokenize?
    ensures TokenizeCount(ms, m.uid) > 0
    decreases |ms|
  {
    if ms[0] != m {
      TokenizeIn(ms[1..], m);
    }
  }

  lemma {:induction false} UserIn(ms: seq<Msg>, m: Msg)
    requires m in ms && m.UserMsg?
    ensures UserCount(ms, m.uid) > 0
    decreases |ms|
  {
    if ms[0] != m {
      UserIn(ms[1..], m);
    }
  }

  lemma {:induction false} NewGenuine(cfg: Config, c: Chain, st: Step, asked: Option<Msg>, u: int)
    requires CInv(c) && Genuine(c, asked, u) && Enabled(c, st) && st.NewRequest?
    ensures Genuine(Do(cfg, c, st), if c.front.counter == u then Some(UserMsg(u, st.ids, st.params)) else asked, u)
  {
    hide CInv;
    var c', x := Do(cfg, c, st), Tokenize(c.front.counter, st.ids, st.params);
    var asked' := if c.front.counter == u then Some(UserMsg(u, st.ids, st.params)) else asked;
    NoneYet(c, asked');
    forall v, m | 0 <= v < |c'.boxes| && m in c'.boxes[v] && m.Tokenize? && m.uid == u
      ensures asked' == Some(UserMsg(u, m.ids, m.params))
    {
      assert m in c.boxes[v] || m == x;
    }
  }

  lemma {:induction false} TickGenuine(cfg: Config, c: Chain, st: Step, asked: Option<Msg>, u: int)
    requires Genuine(c, asked, u) && Enabled(c, st) && st.Tick?
    ensures Genuine(Do(cfg, c, st), asked, u)
  {
    hide OverlapTick, FromScheduler;
    var c' := Do(cfg, c, st);
    var replies := OverlapTick(cfg, c.sched, c.last, TickInput(c, st.n, st.ev, st.tokens)).2;
    NoTokenizeBack(replies, u);
    forall v, m | 0 <= v < |c'.boxes| && m in c'.boxes[v] && m.Tokenize? && m.uid == u
      ensures asked == Some(UserMsg(u, m.ids, m.params))
    {
      assert m in c.boxes[v] || m in FromScheduler(replies);
    }
    assert forall m | m in c'.back :: m in c.back;
  }

  lemma {:induction false} SendGenuine(cfg: Config, c: Chain, st: Step, asked: Option<Msg>, u: int)
    requires Genuine(c, asked, u) && Enabled(c, st) && st.SendAbort?
    ensures Genuine(Do(cfg, c, st), asked, u)
  {
    var c', x := Do(cfg, c, st), Abort(c.sending[st.k]);
    forall v, m | 0 <= v < |c'.boxes| && m in c'.boxes[v] && m.Tokenize? && m.uid == u
      ensures asked == Some(UserMsg(u, m.ids, m.params))
    {
      assert m in c.boxes[v] || m == x;
    }
  }

  lemma {:induction false} StepGenuine(cfg: Config, c: Chain, st: Step, asked: Option<Msg>, u: int)
    requires CInv(c) && Genuine(c, asked, u)
    ensures Genuine(Do(cfg, c, st), if st.NewRequest? && Enabled(c, st) && c.front.counter == u
                                    then Some(UserMsg(u, st.ids, st.params)) else asked, u)
  {
    hide CInv, OverlapTick, ToBack, ToFront, FromScheduler;
    if Enabled(c, st) {
      match st
      case NewRequest(ids, params, w) => NewGenuine(cfg, c, st, asked, u);
      case SendAbort(k, w) => SendGenuine(cfg, c, st, asked, u);
      case Work(w, n) => WorkGenuine(cfg, c, w, n, asked, u);
      case Tick(n, ev, tokens) => TickGenuine(cfg, c, st, asked, u);
      case _ =>
    }
  }

  lemma {:induction false} Exact(c: Chain, u: int)
    requires CInv(c)
    ensures Copies(c, u) == (if 0 <= u < c.front.counter then 1 else 0) && c.front.counter >= 0
  {
    hide SchedOk, HasTokens, Alive, Silenced;
    assert OneCopy(c, u);
  }

  lemma {:induction false} CounterSteps(cfg: Config, c: Chain, st: Step)
    ensures Do(cfg, c, st).front.counter == c.front.counter + (if st.NewRequest? && Enabled(c, st) then 1 else 0)
  {
    hide OverlapTick, ToBack, ToFront, FromScheduler;
  }

  /** Over every run of the system: a uid was handed out exactly if a request was asked for under it; then there is
  exactly one submission of it, on its way to the scheduler or taken by it; and while it waits for the scheduler it has
  the prompt and the settings that were asked for. */
  lemma {:induction false} AskedArrives(cfg: Config, workers: nat, steps: seq<Step>, u: int)
    requires workers > 0
    ensures var c, asked := Run(cfg, Start(cfg, workers), steps), AskedFor(cfg, Start(cfg, workers), steps, u);
            && (asked.Some? <==> 0 <= u < c.front.counter)
            && BoxCount(c.boxes, u) + UserCount(c.back, u) + (if u in c.seen then 1 else 0)
                 == (if asked.Some? then 1 else 0)
            && Genuine(c, asked, u) && forall m | m in c.back && m.UserMsg? && m.uid == u :: asked == Some(m)
    decreases |steps|
  {
    hide CInv, Do, Enabled;
    var c := Start(cfg, workers);
    StartKeeps(cfg, workers);
    RunKeeps(cfg, c, steps);
    Exact(Run(cfg, c, steps), u);
    if steps != [] {
      var was, st := steps[..|steps| - 1], steps[|steps| - 1];
      assert steps == was + [st];
      RunConcat(cfg, c, was, [st]);
      RunOne(cfg, Run(cfg, c, was), st);
      RunKeeps(cfg, c, was);
      AskedArrives(cfg, workers, was, u);
      CounterSteps(cfg, Run(cfg, c, was), st);
      Exact(Run(cfg, c, was), u);
      StepGenuine(cfg, Run(cfg, c, was), st, AskedFor(cfg, c, was, u), u);
    }
  }
}
