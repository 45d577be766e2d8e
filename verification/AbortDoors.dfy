/** How many queues the API server may use: with one queue for requests and aborts the abort fence holds from end to
end, with two an abort can overtake its request. */
module AbortDoors {
  import CacheSpec
  import Sums
  import opened Requests
  import opened SchedSpec
  import opened SchedInv
  import opened SchedAdmit
  import opened SchedRound
  import opened SchedBatch
  import opened SchedPost
  import opened SchedRun
  import opened SchedProgress
  import opened Overlap
  import opened OverlapRun
  import opened SchedEntries
  import opened OverlapReplies
  import opened Arrivals
  import opened Tokenizer
  import opened Frontend
  import opened AbortChain

  // ---- a single tokenizer keeps submissions before aborts

  /** After an abort of `u` there is no submission of it. */
  ghost predicate SubmitFirst(ms: seq<TokMsg>, u: int)
    decreases |ms|
  {
    ms != [] ==> (ms[0] == Abort(u) ==> TokenizeCount(ms[1..], u) == 0) && SubmitFirst(ms[1..], u)
  }

  ghost predicate UserFirst(ms: seq<Msg>, u: int)
    decreases |ms|
  {
    ms != [] ==> (ms[0] == AbortMsg(u) ==> UserCount(ms[1..], u) == 0) && UserFirst(ms[1..], u)
  }

  lemma {:induction false} SubmitConcat(a: seq<TokMsg>, b: seq<TokMsg>, u: int)
    ensures SubmitFirst(a + b, u) <==>
              SubmitFirst(a, u) && SubmitFirst(b, u) && (Abort(u) in a ==> TokenizeCount(b, u) == 0)
    decreases |a|
  {
    if a == [] {
      assert a + b == b;
    } else {
      SubmitConcat(a[1..], b, u);
      TokenizeConcat(a[1..], b, u);
      assert (a + b)[1..] == a[1..] + b;
      assert a == [a[0]] + a[1..];
    }
  }

  lemma {:induction false} UserFirstConcat(a: seq<Msg>, b: seq<Msg>, u: int)
    ensures UserFirst(a + b, u) <==>
              UserFirst(a, u) && UserFirst(b, u) && (AbortMsg(u) in a ==> UserCount(b, u) == 0)
    decreases |a|
  {
    if a == [] {
      assert a + b == b;
    } else {
      UserFirstConcat(a[1..], b, u);
      UserConcat(a[1..], b, u);
      assert (a + b)[1..] == a[1..] + b;
      assert a == [a[0]] + a[1..];
    }
  }

  lemma {:induction false} NoUserFirst(ms: seq<Msg>, u: int)
    requires UserCount(ms, u) == 0 || AbortMsg(u) !in ms
    ensures UserFirst(ms, u)
    decreases |ms|
  {
    if ms != [] {
      assert ms == [ms[0]] + ms[1..];
      NoUserFirst(ms[1..], u);
    }
  }

  /** A worker's batch sends submissions on before aborts. */
  lemma {:induction false} BatchInOrder(ms: seq<TokMsg>, u: int)
    ensures UserFirst(ToBack(ms), u)
  {
    AbortsForwarded(ms, u);
    AbortsCount(ms, u);
    NoUserFirst(Users(ms), u);
    NoUserFirst(AbortMsgs(ms), u);
    UserFirstConcat(Users(ms), AbortMsgs(ms), u);
  }

  lemma {:induction false} CountNoUser(ms: seq<Msg>, u: int)
    ensures UserCount(ms, u) == 0 <==> NoUser(ms, u)
    decreases |ms|
  {
    if ms != [] {
      CountNoUser(ms[1..], u);
      assert ms == [ms[0]] + ms[1..];
    }
  }

  lemma {:induction false} FirstThenLast(ms: seq<Msg>, u: int)
    requires UserFirst(ms, u) && AbortMsg(u) in ms
    ensures AbortLast(ms, u)
    decreases |ms|
  {
    if ms[0] == AbortMsg(u) {
      CountNoUser(ms[1..], u);
    } else {
      assert ms == [ms[0]] + ms[1..];
      FirstThenLast(ms[1..], u);
    }
  }

  ghost predicate SchedulerOnly(box: seq<TokMsg>) {
    forall m | m in box :: !m.Tokenize? && !m.Abort?
  }

  /** The order of one request's messages, when all requests and aborts go through the queue `door`; and once its abort
  was handled, nothing of it is left in the scheduler or on the way to it. */
  ghost predicate InOrder(c: Chain, door: nat, u: int)
    requires door < |c.boxes|
  {
    && SubmitFirst(c.boxes[door], u) && UserFirst(c.back, u)
    && (AbortMsg(u) in c.back || u in c.handled ==> TokenizeCount(c.boxes[door], u) == 0)
    && (u in c.handled ==> UserCount(c.back, u) == 0 && Gone(c.sched, u) && u !in LastUids(c.last))
    && (u !in c.marked ==>
          u !in c.sending && Abort(u) !in c.boxes[door] && AbortMsg(u) !in c.back && u !in c.handled)
  }

  ghost predicate OneDoor(c: Chain, door: nat) {
    && door < |c.boxes|
    && (forall w {:trigger c.boxes[w]} | 0 <= w < |c.boxes| && w != door :: SchedulerOnly(c.boxes[w]))
    && forall u {:trigger InOrder(c, door, u)} :: InOrder(c, door, u)
  }

  /** The API server puts everything on the queue `door`. */
  predicate ThroughDoor(st: Step, door: nat) {
    st.NewRequest? || st.SendAbort? ==> st.w == door
  }

  lemma {:induction false} DoorNew(cfg: Config, c: Chain, ids: seq<int>, params: Params, door: nat)
    requires CInv(c) && OneDoor(c, door) && Enabled(c, NewRequest(ids, params, door))
    ensures OneDoor(Next(cfg, c, NewRequest(ids, params, door)), door)
  {
    hide SchedOk, HasTokens, Unique, Alive, FrontOk, TokenizeCount, UserCount, SubmitFirst, UserFirst, Gone, Uids;
    var c', m := Next(cfg, c, NewRequest(ids, params, door)), Tokenize(c.front.counter, ids, params);
    forall u
      ensures InOrder(c', door, u)
    {
      assert InOrder(c, door, u);
      SubmitConcat(c.boxes[door], [m], u);
      TokenizeConcat(c.boxes[door], [m], u);
      OneTok(m, u);
    }
  }

  lemma {:induction false} OneTok(m: TokMsg, u: int)
    ensures TokenizeCount([m], u) == (if m.Tokenize? && m.uid == u then 1 else 0) && SubmitFirst([m], u)
  {
    assert [m][1..] == [];
  }

  lemma {:induction false} DoorMark(cfg: Config, c: Chain, v: int, door: nat)
    requires OneDoor(c, door) && Enabled(c, MarkAbort(v))
    ensures OneDoor(Next(cfg, c, MarkAbort(v)), door)
  {
    hide TokenizeCount, UserCount, SubmitFirst, UserFirst, Gone, Uids;
    var c' := Next(cfg, c, MarkAbort(v));
    forall u
      ensures InOrder(c', door, u)
    {
      assert InOrder(c, door, u);
    }
  }

  lemma {:induction false} DoorSend(cfg: Config, c: Chain, k: nat, door: nat)
    requires OneDoor(c, door) && Enabled(c, SendAbort(k, door))
    ensures OneDoor(Next(cfg, c, SendAbort(k, door)), door)
  {
    hide TokenizeCount, UserCount, SubmitFirst, UserFirst, Gone, Uids;
    var c', m := Next(cfg, c, SendAbort(k, door)), Abort(c.sending[k]);
    forall u
      ensures InOrder(c', door, u)
    {
      assert InOrder(c, door, u) && InOrder(c, door, c.sending[k]);
      SubmitConcat(c.boxes[door], [m], u);
      TokenizeConcat(c.boxes[door], [m], u);
      OneTok(m, u);
    }
  }

  lemma {:induction false} NothingForBack(ms: seq<TokMsg>)
    requires SchedulerOnly(ms)
    ensures ToBack(ms) == []
    decreases |ms|
  {
    if ms != [] {
      assert ms[0] in ms && forall m | m in ms[1..] :: m in ms;
      NothingForBack(ms[1..]);
    }
  }

  lemma {:induction false} DoorWork(cfg: Config, c: Chain, w: nat, n: nat, door: nat)
    requires OneDoor(c, door) && Enabled(c, Work(w, n))
    ensures OneDoor(Next(cfg, c, Work(w, n)), door)
  {
    hide TokenizeCount, UserCount, SubmitFirst, UserFirst, Gone, Uids, ToBack, ToFront;
    var c', batch, rest := Next(cfg, c, Work(w, n)), c.boxes[w][..n], c.boxes[w][n..];
    assert c.boxes[w] == batch + rest;
    if w != door {
      NothingForBack(batch);
      assert c.back + [] == c.back;
    }
    forall u
      ensures InOrder(c', door, u)
    {
      assert InOrder(c, door, u);
      if w == door {
        SubmitConcat(batch, rest, u);
        TokenizeConcat(batch, rest, u);
        UsersCounted(batch, u);
        AbortsForwarded(batch, u);
        BatchInOrder(batch, u);
        UserFirstConcat(c.back, ToBack(batch), u);
        UserConcat(c.back, ToBack(batch), u);
      }
    }
  }

  /** The messages of a tick against what is left, for one request. */
  lemma {:induction false} BackSplit(c: Chain, n: nat, u: int)
    requires n <= |c.back| && UserFirst(c.back, u)
    ensures UserFirst(c.back[..n], u) && UserFirst(c.back[n..], u)
    ensures AbortMsg(u) in c.back[..n] ==> UserCount(c.back[n..], u) == 0
    ensures UserCount(c.back, u) == UserCount(c.back[..n], u) + UserCount(c.back[n..], u)
    ensures AbortMsg(u) in c.back <==> AbortMsg(u) in c.back[..n] || AbortMsg(u) in c.back[n..]
  {
    hide UserFirst, UserCount;
    assert c.back == c.back[..n] + c.back[n..];
    UserFirstConcat(c.back[..n], c.back[n..], u);
    UserConcat(c.back[..n], c.back[n..], u);
  }

  /** A tick after which the abort of `u` counts as handled leaves nothing of it, and sends no token for it. */
  lemma {:induction false} TickGone(cfg: Config, c: Chain, n: nat, ev: CacheSpec.Eviction, tokens: seq<int>, door: nat,
                                    u: int)
    requires CInv(c) && OneDoor(c, door) && Enabled(c, Tick(n, ev, tokens))
    requires u in c.handled || AbortMsg(u) in c.back[..n]
    ensures var (s', f, replies) := OverlapTick(cfg, c.sched, c.last, TickInput(c, n, ev, tokens));
            && Gone(s', u) && u !in LastUids(f)
              && (forall r {:trigger r in replies} | r in replies && r.Detok? :: r.uid != u)
  {
    hide FrontOk, HasTokens, Unique, Alive, Silenced, TokenizeCount, UserCount, SubmitFirst, UserFirst, Gone, Uids,
      FInv, OverlapTick, AllFresh, Ctrl, ProcessMsgs, NoUser, AbortLast;
    var i := TickInput(c, n, ev, tokens);
    TickFresh(cfg, c, n);
    assert InOrder(c, door, u);
    BackSplit(c, n, u);
    if AbortMsg(u) in i.msgs {
      FirstThenLast(i.msgs, u);
      Fence(cfg, c.sched, c.last, i, u);
    } else {
      CountNoUser(i.msgs, u);
      StaysGone(cfg, c.sched, c.last, i, u);
    }
  }

  lemma {:induction false} DoorTick(cfg: Config, c: Chain, n: nat, ev: CacheSpec.Eviction, tokens: seq<int>, door: nat)
    requires CInv(c) && OneDoor(c, door) && Enabled(c, Tick(n, ev, tokens))
    ensures OneDoor(Next(cfg, c, Tick(n, ev, tokens)), door)
  {
    hide FrontOk, HasTokens, Unique, Alive, Silenced, SchedOk, TokenizeCount, UserCount, SubmitFirst, UserFirst, Gone,
      Uids, OverlapTick, FromScheduler, Aborts;
    var c', i := Next(cfg, c, Tick(n, ev, tokens)), TickInput(c, n, ev, tokens);
    var replies := OverlapTick(cfg, c.sched, c.last, i).2;
    NoTokenizeBack(replies, 0);
    forall u
      ensures InOrder(c', door, u)
    {
      assert InOrder(c, door, u);
      BackSplit(c, n, u);
      InAborts(i.msgs, u);
      NoTokenizeBack(replies, u);
      SubmitConcat(c.boxes[0], FromScheduler(replies), u);
      TokenizeConcat(c.boxes[0], FromScheduler(replies), u);
      NoSubmit(FromScheduler(replies), u);
      if u in c'.handled {
        TickGone(cfg, c, n, ev, tokens, door, u);
      }
    }
  }

  lemma {:induction false} NoSubmit(ms: seq<TokMsg>, u: int)
    requires TokenizeCount(ms, u) == 0
    ensures SubmitFirst(ms, u)
    decreases |ms|
  {
    if ms != [] {
      NoSubmit(ms[1..], u);
    }
  }

  lemma {:induction false} DoorSame(c: Chain, c': Chain, door: nat)
    requires OneDoor(c, door) && c'.boxes == c.boxes && c'.back == c.back && c'.sending == c.sending
    requires c'.marked == c.marked && c'.handled == c.handled && c'.sched == c.sched && c'.last == c.last
    ensures OneDoor(c', door)
  {
    hide TokenizeCount, UserCount, SubmitFirst, UserFirst, Gone, Uids;
    forall u
      ensures InOrder(c', door, u)
    {
      assert InOrder(c, door, u);
    }
  }

  lemma {:induction false} DoorStep(cfg: Config, c: Chain, st: Step, door: nat)
    requires CInv(c) && OneDoor(c, door) && ThroughDoor(st, door)
    ensures OneDoor(Do(cfg, c, st), door)
  {
    hide CInv, OneDoor, Enabled, OverlapTick, HearOp, TakeOp;
    if Enabled(c, st) {
      match st
      case NewRequest(ids, params, w) => DoorNew(cfg, c, ids, params, door);
      case MarkAbort(u) => DoorMark(cfg, c, u, door);
      case SendAbort(k, w) => DoorSend(cfg, c, k, door);
      case Work(w, n) => DoorWork(cfg, c, w, n, door);
      case Tick(n, ev, tokens) => DoorTick(cfg, c, n, ev, tokens, door);
      case Hear => DoorSame(c, Do(cfg, c, Hear), door);
      case Take(u) => DoorSame(c, Do(cfg, c, Take(u)), door);
    }
  }

  ghost predicate AllThrough(steps: seq<Step>, door: nat) {
    forall i {:trigger steps[i]} | 0 <= i < |steps| :: ThroughDoor(steps[i], door)
  }

  lemma {:induction false} DoorRun(cfg: Config, c: Chain, steps: seq<Step>, door: nat)
    requires CInv(c) && OneDoor(c, door) && AllThrough(steps, door)
    ensures OneDoor(Run(cfg, c, steps), door)
    decreases |steps|
  {
    hide CInv, OneDoor, Do, ThroughDoor;
    if steps != [] {
      DoKeeps(cfg, c, steps[0]);
      DoorStep(cfg, c, steps[0], door);
      assert forall i | 0 <= i < |steps[1..]| :: steps[1..][i] == steps[i + 1];
      DoorRun(cfg, Do(cfg, c, steps[0]), steps[1..], door);
    }
  }

  lemma {:induction false} StartDoor(cfg: Config, workers: nat, door: nat)
    requires door < workers
    ensures OneDoor(Start(cfg, workers), door)
  {
    hide InitState, Gone;
  }

  // ---- the fence end to end

  /** Nothing of `u` is left in the scheduler or on the way to it, and no tick sends a token for it. */
  ghost predicate Finished(cfg: Config, c: Chain, u: int) {
    && BoxCount(c.boxes, u) == 0 && UserCount(c.back, u) == 0 && Gone(c.sched, u)
    && forall n: nat, ev, tokens {:trigger Tick(n, ev, tokens)} | Enabled(c, Tick(n, ev, tokens)) ::
         Said(OverlapTick(cfg, c.sched, c.last, TickInput(c, n, ev, tokens)).2, u) == []
  }

  /** Whatever the scheduler took the abort of is finished. */
  ghost predicate Fenced(cfg: Config, c: Chain) {
    forall u {:trigger Finished(cfg, c, u)} | u in c.handled :: Finished(cfg, c, u)
  }

  lemma {:induction false} OneBox(boxes: seq<seq<TokMsg>>, door: nat, u: int)
    requires door < |boxes| && forall w | 0 <= w < |boxes| && w != door :: SchedulerOnly(boxes[w])
    ensures BoxCount(boxes, u) == TokenizeCount(boxes[door], u)
    decreases |boxes|
  {
    if door == 0 {
      forall w | 0 <= w < |boxes[1..]|
        ensures SchedulerOnly(boxes[1..][w])
      {
        assert boxes[1..][w] == boxes[w + 1];
      }
      NoRequests(boxes[1..], u);
    } else {
      NoTokenize(boxes[0], u);
      forall w | 0 <= w < |boxes[1..]| && w != door - 1
        ensures SchedulerOnly(boxes[1..][w])
      {
        assert boxes[1..][w] == boxes[w + 1];
      }
      OneBox(boxes[1..], door - 1, u);
    }
  }

  lemma {:induction false} NoTokenize(box: seq<TokMsg>, u: int)
    requires SchedulerOnly(box)
    ensures TokenizeCount(box, u) == 0
    decreases |box|
  {
    if box != [] {
      assert box[0] in box && forall m | m in box[1..] :: m in box;
      NoTokenize(box[1..], u);
    }
  }

  lemma {:induction false} NoRequests(boxes: seq<seq<TokMsg>>, u: int)
    requires forall w | 0 <= w < |boxes| :: SchedulerOnly(boxes[w])
    ensures BoxCount(boxes, u) == 0
    decreases |boxes|
  {
    if boxes != [] {
      NoTokenize(boxes[0], u);
      forall w | 0 <= w < |boxes[1..]|
        ensures SchedulerOnly(boxes[1..][w])
      {
        assert boxes[1..][w] == boxes[w + 1];
      }
      NoRequests(boxes[1..], u);
    }
  }

  lemma {:induction false} DoorFenced(cfg: Config, c: Chain, door: nat)
    requires CInv(c) && OneDoor(c, door)
    ensures Fenced(cfg, c)
  {
    hide CInv, Gone, OverlapTick, UserCount, TokenizeCount, SubmitFirst, UserFirst, SchedulerOnly, BoxCount, Uids;
    forall u | u in c.handled
      ensures Finished(cfg, c, u)
    {
      assert InOrder(c, door, u);
      OneBox(c.boxes, door, u);
      forall n: nat, ev, tokens | Enabled(c, Tick(n, ev, tokens))
        ensures Said(OverlapTick(cfg, c.sched, c.last, TickInput(c, n, ev, tokens)).2, u) == []
      {
        TickGone(cfg, c, n, ev, tokens, door, u);
        Unsaid(OverlapTick(cfg, c.sched, c.last, TickInput(c, n, ev, tokens)).2, u);
      }
    }
  }

  /** With a single queue for requests and aborts the abort fence holds end to end: once the scheduler took the abort of
  a request, no submission of it is on its way any more, and no tick sends a token for it. */
  lemma {:induction false} FenceEndToEnd(cfg: Config, workers: nat, steps: seq<Step>, door: nat)
    requires door < workers && AllThrough(steps, door)
    ensures Fenced(cfg, Run(cfg, Start(cfg, workers), steps))
  {
    hide CInv, Run, Start, OneDoor, Fenced;
    StartKeeps(cfg, workers);
    RunKeeps(cfg, Start(cfg, workers), steps);
    StartDoor(cfg, workers, door);
    DoorRun(cfg, Start(cfg, workers), steps, door);
    DoorFenced(cfg, Run(cfg, Start(cfg, workers), steps), door);
  }

  // ---- two queues

  lemma {:induction false} OneForward(m: TokMsg)
    ensures m.Abort? ==> ToBack([m]) == [AbortMsg(m.uid)]
    ensures m.Tokenize? ==> ToBack([m]) == [UserMsg(m.uid, m.ids, m.params)]
    ensures m.Ack? ==> ToBack([m]) == [] && ToFront([m]) == [AbortAckReply(m.uid)]
    ensures m.Abort? || m.Tokenize? ==> ToFront([m]) == []
  {
    assert [m][1..] == [];
    assert Users([m]) == (if m.Tokenize? then [UserMsg(m.uid, m.ids, m.params)] else []) + Users([]);
    assert AbortMsgs([m]) == (if m.Abort? then [AbortMsg(m.uid)] else []) + AbortMsgs([]);
    assert UserReplies([m]) == (if m.Detokenize? then [UserReply(m.uid, m.token, m.finished)]
           else []) + UserReplies([]);
    assert AbortAcks([m]) == (if m.Ack? then [AbortAckReply(m.uid)] else []) + AbortAcks([]);
  }

  /** The request with uid 0 and one token. */
  function Ask(params: Params): TokMsg {
    Tokenize(0, [1], params)
  }

  /** The request is put on queue `a`, its abort on queue `b`. */
  lemma {:induction false} PutBoth(cfg: Config, workers: nat, a: nat, b: nat, params: Params)
    requires a < workers && b < workers && a != b
    ensures var c := Do(cfg, Do(cfg, Do(cfg, Start(cfg, workers), NewRequest([1], params, a)), MarkAbort(0)),
            SendAbort(0, b));
            && c.boxes == Start(cfg, workers).boxes[a := [Ask(params)]][b := [Abort(0)]]
            && c.sched == InitState(cfg) && c.last == None && c.back == [] && c.toFront == []
            && c.front.pending == {0} && c.front.acks.Keys == {0} && c.front.counter == 1
  {
    hide InitState;
    var c0 := Start(cfg, workers);
    var c1 := Do(cfg, c0, NewRequest([1], params, a));
    assert c1.boxes == c0.boxes[a := [Ask(params)]] by {
      assert [] + [Ask(params)] == [Ask(params)];
    }
    var c2 := Do(cfg, c1, MarkAbort(0));
    assert c2.sending == [] + [0];
    var c3 := Do(cfg, c2, SendAbort(0, b));
    assert [] + [Abort(0)] == [Abort(0)];
  }

  /** A worker passes one message on. */
  lemma {:induction false} WorkOne(cfg: Config, c: Chain, w: nat, m: TokMsg, rest: seq<TokMsg>)
    requires w < |c.boxes| && c.boxes[w] == [m] + rest
    ensures Do(cfg, c, Work(w, 1))
         == c.(boxes := c.boxes[w := rest], back := c.back + ToBack([m]), toFront := c.toFront + ToFront([m]))
  {
    hide ToBack, ToFront;
    assert c.boxes[w][..1] == [m] && c.boxes[w][1..] == rest;
  }

  /** An abort of a request the scheduler never heard of is only acknowledged. */
  lemma {:induction false} AbortUnknown(cfg: Config, ev: CacheSpec.Eviction)
    ensures OverlapTick(cfg, InitState(cfg), None, Input([AbortMsg(0)], ev, []))
         == (InitState(cfg), None, [AbortAck(0)])
  {
    var s := InitState(cfg);
    assert s.pending == [] && s.running == {} && s.acks == [] && s.inflight == {} && s.deferred == {} by {
      StartsEmpty(cfg);
    }
    hide InitState;
    assert [AbortMsg(0)][1..] == [];
    var s1 := s.(acks := [0]);
    assert ProcessMsg(cfg, s, AbortMsg(0)) == s1 by {
      assert [] + [0] == [0];
    }
    assert ProcessMsgs(cfg, s, [AbortMsg(0)]) == ProcessMsgs(cfg, s1, []);
    assert AddAll(cfg, s1, Adder(cfg.budget, InflightTokens(cfg, s1)), []).added == [];
    assert Launch(cfg, s1, Input([AbortMsg(0)], ev, [])) == (s1, None);
    assert s.(inflight := {}) == s && s1.(acks := []) == s;
    assert AckReplies([0]) == [AbortAck(0)] && [] + AckReplies([0]) == AckReplies([0]);
    hide AckReplies, Launch, ProcessMsgs;
    assert ApplyDeferred(cfg, s1, None) == s1;
  }

  lemma {:induction false} StartsEmpty(cfg: Config)
    ensures var s := InitState(cfg);
            && s.pending == [] && s.running == {} && s.acks == [] && s.inflight == {} && s.deferred == {}
              && s.reqs == map[]
            && s.finished == {} && s.cache.store == map[]
  {
    hide Range;
  }

  ghost function NoEviction(): CacheSpec.Eviction {
    CacheSpec.Eviction(map[], [])
  }

  /** The scheduler takes the abort and acknowledges it. */
  lemma {:induction false} TickAbort(cfg: Config, c: Chain)
    requires c.sched == InitState(cfg) && c.last == None && c.back == [AbortMsg(0)] && |c.boxes| > 0
    ensures Do(cfg, c, Tick(1, NoEviction(), []))
         == c.(back := [], boxes := c.boxes[0 := c.boxes[0] + [Ack(0)]], seen := c.seen + Submitted([AbortMsg(0)]),
               handled := c.handled + {0})
  {
    hide OverlapTick, InitState, Submitted, Aborts;
    AbortUnknown(cfg, NoEviction());
    assert c.back[..1] == [AbortMsg(0)] && c.back[1..] == [];
    assert Aborts([AbortMsg(0)]) == {0} by { OneAbort(); }
    assert FromScheduler([AbortAck(0)]) == [Ack(0)] by {
      assert [AbortAck(0)][1..] == [] && FromScheduler([]) == [];
    }
  }

  lemma {:induction false} OneAbort()
    ensures Aborts([AbortMsg(0)]) == {0}
  {
    AbortsSplit([AbortMsg(0)]);
    assert [AbortMsg(0)][1..] == [] && Aborts([]) == {};
  }

  /** The abort went through `b` and was taken, the request only now leaves queue `a`. */
  ghost predicate Overtaken(c: Chain, params: Params) {
    && 0 in c.handled && c.back == [UserMsg(0, [1], params)] && |c.boxes| > 0 && c.boxes[0] == [Ack(0)]
    && c.toFront == [] && c.last == None && c.front.pending == {0} && c.front.acks.Keys == {0} && c.front.counter == 1
  }

  /** The steps in which the abort overtakes its request. */
  function OvertakingSteps(a: nat, b: nat, params: Params): seq<Step> {
    [NewRequest([1], params, a), MarkAbort(0), SendAbort(0, b), Work(b, 1), Tick(1, CacheSpec.Eviction(map[], []), []),
     Work(a, 1)]
  }

  lemma {:induction false} Overtakes(cfg: Config, c: Chain, start: seq<seq<TokMsg>>, a: nat, b: nat, params: Params)
    requires a < |start| && b < |start| && a != b && (forall w | 0 <= w < |start| :: start[w] == [])
    requires c.boxes == start[a := [Ask(params)]][b := [Abort(0)]]
    requires c.sched == InitState(cfg) && c.last == None && c.back == [] && c.toFront == []
    requires c.front.pending == {0} && c.front.acks.Keys == {0} && c.front.counter == 1
    ensures var c' := Do(cfg, Do(cfg, Do(cfg, c, Work(b, 1)), Tick(1, NoEviction(), [])), Work(a, 1));
            Overtaken(c', params) && c'.sched == InitState(cfg)
  {
    hide OverlapTick, InitState, Do, ToBack, ToFront, Submitted;
    var m := Ask(params);
    OneForward(m);
    OneForward(Abort(0));
    WorkOne(cfg, c, b, Abort(0), []);
    var c1 := Do(cfg, c, Work(b, 1));
    assert [] + [AbortMsg(0)] == [AbortMsg(0)];
    TickAbort(cfg, c1);
    var c2 := Do(cfg, c1, Tick(1, NoEviction(), []));
    var rest := if a == 0 then [Ack(0)] else [];
    assert c2.boxes[a] == [m] + rest;
    WorkOne(cfg, c2, a, m, rest);
    assert [] + [UserMsg(0, [1], params)] == [UserMsg(0, [1], params)];
  }

  lemma {:induction false} RunCons(cfg: Config, c: Chain, st: Step, rest: seq<Step>)
    ensures Run(cfg, c, [st] + rest) == Run(cfg, Do(cfg, c, st), rest)
  {
    hide Do;
    assert ([st] + rest)[1..] == rest;
  }

  lemma {:induction false} RunSix(cfg: Config, c: Chain, s1: Step, s2: Step, s3: Step, s4: Step, s5: Step, s6: Step)
    ensures Run(cfg, c, [s1, s2, s3, s4, s5, s6])
         == Do(cfg, Do(cfg, Do(cfg, Do(cfg, Do(cfg, Do(cfg, c, s1), s2), s3), s4), s5), s6)
  {
    hide Do;
    RunThree(cfg, c, s1, s2, s3);
    RunThree(cfg, Do(cfg, Do(cfg, Do(cfg, c, s1), s2), s3), s4, s5, s6);
    RunConcat(cfg, c, [s1, s2, s3], [s4, s5, s6]);
    assert [s1, s2, s3] + [s4, s5, s6] == [s1, s2, s3, s4, s5, s6];
  }

  lemma {:induction false} RunThree(cfg: Config, c: Chain, s1: Step, s2: Step, s3: Step)
    ensures Run(cfg, c, [s1, s2, s3]) == Do(cfg, Do(cfg, Do(cfg, c, s1), s2), s3)
  {
    hide Do;
    RunCons(cfg, c, s1, [s2, s3]);
    RunCons(cfg, Do(cfg, c, s1), s2, [s3]);
    RunOne(cfg, Do(cfg, Do(cfg, c, s1), s2), s3);
    assert [s1, s2, s3] == [s1] + [s2, s3] && [s2, s3] == [s2] + [s3];
  }

  /** With two queues for requests and aborts an abort can overtake its request, however many workers there are. */
  lemma {:induction false} AbortOvertakes(cfg: Config, workers: nat, a: nat, b: nat, params: Params)
    requires a < workers && b < workers && a != b
    ensures var c := Run(cfg, Start(cfg, workers), OvertakingSteps(a, b, params));
            Overtaken(c, params) && c.sched == InitState(cfg)
  {
    hide OverlapTick, InitState, Do, Run;
    var c0 := Start(cfg, workers);
    PutBoth(cfg, workers, a, b, params);
    var c3 := Do(cfg, Do(cfg, Do(cfg, c0, NewRequest([1], params, a)), MarkAbort(0)), SendAbort(0, b));
    Overtakes(cfg, c3, c0.boxes, a, b, params);
    RunSix(cfg, c0, NewRequest([1], params, a), MarkAbort(0), SendAbort(0, b), Work(b, 1), Tick(1, NoEviction(), []),
           Work(a, 1));
  }

  // ---- exactly one queue

  /** The API server puts requests and aborts on the queues of `doors` only. */
  ghost predicate AllAt(steps: seq<Step>, doors: set<nat>) {
    forall i {:trigger steps[i]} | 0 <= i < |steps| :: steps[i].NewRequest? || steps[i].SendAbort? ==>
      steps[i].w in doors
  }

  lemma {:induction false} OvertakenLeft(cfg: Config, c: Chain, params: Params)
    requires Overtaken(c, params)
    ensures !Fenced(cfg, c)
  {
    hide OverlapTick, Gone;
    assert UserCount(c.back, 0) == 1 + UserCount(c.back[1..], 0);
    assert !Finished(cfg, c, 0);
  }

  /** The abort fence holds from end to end over all runs if and only if the API server uses a single queue for requests
  and aborts. */
  lemma {:induction false} FencedExactly(cfg: Config, workers: nat, doors: set<nat>)
    requires workers > 0 && forall w | w in doors :: w < workers
    ensures (forall steps: seq<Step> {:trigger AllAt(steps, doors)} ::
               AllAt(steps, doors) ==> Fenced(cfg, Run(cfg, Start(cfg, workers), steps)))
            <==> |doors| <= 1
  {
    hide Fenced, Run, Start, Overtaken;
    if |doors| <= 1 {
      forall steps: seq<Step> | AllAt(steps, doors)
        ensures Fenced(cfg, Run(cfg, Start(cfg, workers), steps))
      {
        var door := OnlyDoor(doors, workers);
        FenceEndToEnd(cfg, workers, steps, door);
      }
    } else {
      var a, b := TwoOf(doors);
      var params := Params(0, true, {});
      AbortOvertakes(cfg, workers, a, b, params);
      OvertakenLeft(cfg, Run(cfg, Start(cfg, workers), OvertakingSteps(a, b, params)), params);
      assert AllAt(OvertakingSteps(a, b, params), doors);
    }
  }

  lemma {:induction false} OnlyDoor(doors: set<nat>, workers: nat) returns (door: nat)
    requires workers > 0 && |doors| <= 1 && forall w | w in doors :: w < workers
    ensures door < workers && forall w | w in doors :: w == door
  {
    if doors == {} {
      door := 0;
    } else {
      door := Sums.Member(doors);
      assert |doors - {door}| == 0;
      assert forall w | w in doors :: w == door || w in doors - {door};
    }
  }

  lemma {:induction false} TwoOf(doors: set<nat>) returns (a: nat, b: nat)
    requires |doors| > 1
    ensures a in doors && b in doors && a != b
  {
    a := Sums.Member(doors);
    assert |doors - {a}| == |doors| - 1;
    b := Sums.Member(doors - {a});
  }

  // ---- the request runs on

  /** The scheduler launches the request. */
  lemma {:induction false} LaunchesAsk(cfg: Config, params: Params)
    requires CfgOk(cfg) && Roomy(cfg) && cfg.maxSeqLen > 1
    ensures var f := OverlapTick(cfg, InitState(cfg), None, Input([UserMsg(0, [1], params)], NoEviction(), [])).1;
            f.Some? && f.value.batch == Batch([Entry(0, false)], true)
  {
    var s, m := InitState(cfg), UserMsg(0, [1], params);
    StartsEmpty(cfg);
    InitKeeps(cfg);
    hide InitState, NInv, Roomy, CfgOk;
    UserKeeps(cfg, s, m);
    var s1 := ProcessMsg(cfg, s, m);
    assert [m][1..] == [] && s.(inflight := {}) == s;
    assert ProcessMsgs(cfg, s, [m]) == ProcessMsgs(cfg, s1, []);
    assert s1 == s.(pending := [Pending(0, [1], Clamp(cfg, params, 1), false)]) by {
      assert s.pending + [Pending(0, [1], Clamp(cfg, params, 1), false)]
             == [Pending(0, [1], Clamp(cfg, params, 1), false)];
    }
    FirstIsWhole(cfg, s1);
    LaunchBatch(cfg, s, Input([m], NoEviction(), []));
  }

  /** The batch of a launch is the one scheduled. */
  lemma {:induction false} LaunchBatch(cfg: Config, s: Sched, i: Input)
    ensures var s0 := ProcessMsgs(cfg, s.(inflight := {}), i.msgs);
            var b, f := Schedule(cfg, s0).1, OverlapTick(cfg, s, None, i).1;
            b.Some? ==> f.Some? && f.value.batch == b.value
  {
    hide Schedule, ProcessMsgs, Prepare, SchedSpec.Forward, ApplyDeferred;
  }

  lemma {:induction false} FirstIsWhole(cfg: Config, s: Sched)
    requires Roomy(cfg) && NInv(cfg, s) && s.running == {} && |s.pending| == 1
    requires s.pending[0].uid == 0 && s.pending[0].ids == [1] && !s.pending[0].chunk
    ensures var b := Schedule(cfg, s).1; b.Some? && b.value == Batch([Entry(0, false)], true)
  {
    hide NInv, LInv, AddAll, InflightTokens, Sorted, Roomy;
    HeadAdmitted(cfg, s);
    PrefillIs(cfg, s);
    var r := AddAll(cfg, s, Adder(cfg.budget, InflightTokens(cfg, s)), s.pending);
    EntriesAre(r.added);
    assert |r.added| == 1;
    assert AddedFrom(r.s, r.added[0], s.pending[0]);
    assert EntriesOf(r.added) == [Entry(0, false)];
  }

  /** The steps after it: the acknowledgement reaches the API server, and the scheduler takes the request. */
  function GoingOnSteps(): seq<Step> {
    [Work(0, 1), Hear, Tick(1, CacheSpec.Eviction(map[], []), [])]
  }

  /** And the overtaken request runs: its abort is acknowledged and forgotten, and then the scheduler launches it and
  sends a token for it. */
  lemma {:induction false} OvertakenRuns(cfg: Config, workers: nat, a: nat, b: nat, params: Params, n: nat,
                                         ev: CacheSpec.Eviction, tokens: seq<int>)
    requires a < workers && b < workers && a != b && CfgOk(cfg) && Roomy(cfg) && cfg.maxSeqLen > 1
    requires Enabled(Run(cfg, Start(cfg, workers), OvertakingSteps(a, b, params) + GoingOnSteps()), Tick(n, ev, tokens))
    ensures var c := Run(cfg, Start(cfg, workers), OvertakingSteps(a, b, params) + GoingOnSteps());
            && 0 in c.handled && c.front.pending == {} && c.front.acks == map[] && 0 in LastUids(c.last)
            && |Said(OverlapTick(cfg, c.sched, c.last, TickInput(c, n, ev, tokens)).2, 0)| == 1
  {
    hide OverlapTick, InitState, Do, Run, Start, CInv, Said, FInv;
    var start := Start(cfg, workers);
    var c := Run(cfg, start, OvertakingSteps(a, b, params));
    AbortOvertakes(cfg, workers, a, b, params);
    RunConcat(cfg, start, OvertakingSteps(a, b, params), GoingOnSteps());
    RunThree(cfg, c, Work(0, 1), Hear, Tick(1, NoEviction(), []));
    GoesOn(cfg, c, params);
    StartKeeps(cfg, workers);
    RunKeeps(cfg, start, OvertakingSteps(a, b, params) + GoingOnSteps());
    var c' := Run(cfg, start, OvertakingSteps(a, b, params) + GoingOnSteps());
    SentNext(cfg, c', n, ev, tokens);
  }

  lemma {:induction false} GoesOn(cfg: Config, c: Chain, params: Params)
    requires Overtaken(c, params) && c.sched == InitState(cfg) && CfgOk(cfg) && Roomy(cfg) && cfg.maxSeqLen > 1
    ensures var c' := Do(cfg, Do(cfg, Do(cfg, c, Work(0, 1)), Hear), Tick(1, NoEviction(), []));
            && 0 in c'.handled && c'.front.pending == {} && c'.front.acks == map[]
            && LastEntries(c'.last) == [Entry(0, false)] && c'.back == []
  {
    hide OverlapTick, InitState, ToBack, ToFront, Submitted, Aborts, FromScheduler, CfgOk, Roomy;
    OneForward(Ack(0));
    WorkOne(cfg, c, 0, Ack(0), []);
    var c1 := Do(cfg, c, Work(0, 1));
    assert c1.back == c.back && c1.toFront == [AbortAckReply(0)];
    var c2 := Do(cfg, c1, Hear);
    assert c2.front.acks == map[] && c2.front.pending == {};
    assert c2.back[..1] == c.back && c2.back[1..] == [];
    LaunchesAsk(cfg, params);
  }

  lemma {:induction false} SentNext(cfg: Config, c: Chain, n: nat, ev: CacheSpec.Eviction, tokens: seq<int>)
    requires CInv(c) && Enabled(c, Tick(n, ev, tokens)) && LastEntries(c.last) == [Entry(0, false)] && c.back == []
    ensures 0 in LastUids(c.last)
    ensures |Said(OverlapTick(cfg, c.sched, c.last, TickInput(c, n, ev, tokens)).2, 0)| == 1
  {
    hide FrontOk, HasTokens, Unique, Alive, Silenced, FInv, OverlapTick, AllFresh, Ctrl, ProcessMsgs, Said;
    TickFresh(cfg, c, n);
    InUids([Entry(0, false)], 0);
    SentExactly(cfg, c.sched, c.last, TickInput(c, n, ev, tokens), 0);
  }
}
