/** The abort protocol end to end: API server, tokenizer workers and the overlap loop of the scheduler, joined by
lossless FIFO queues whose steps interleave freely. */
module AbortChain {
  import CacheSpec
  import opened Requests
  import opened SchedSpec
  import opened SchedRun
  import opened Overlap
  import opened OverlapRun
  import opened Arrivals
  import opened Tokenizer
  import opened Frontend

  /** The whole system. `sending` are the aborts marked but not put on a queue yet; `boxes` are the queues of the
  workers, the first of them that of the detokenizer; `back` leads to the scheduler and `toFront` to the API server.
  `seen` are the uids submitted to the scheduler so far, `marked` the uids ever aborted, `handled` those whose abort the
  scheduler took. */
  datatype Chain = Chain(front: Front, sending: seq<int>, boxes: seq<seq<TokMsg>>, back: seq<Msg>, sched: Sched,
                         last: Option<Flight>, toFront: seq<FrontMsg>, seen: set<int>, marked: set<int>,
                           handled: set<int>)

  datatype Step =
    | NewRequest(ids: seq<int>, params: Params, w: nat)
    | MarkAbort(u: int)
    | SendAbort(k: nat, w: nat)
    | Work(w: nat, n: nat)
    | Tick(n: nat, ev: CacheSpec.Eviction, tokens: seq<int>)
    | Hear
    | Take(u: int)

  /** Which steps can be taken: a request has tokens, an abort names a uid that was handed out, a worker takes at least
  one message. */
  ghost predicate Enabled(c: Chain, st: Step) {
    match st
    case NewRequest(ids, params, w) => ids != [] && w < |c.boxes|
    case MarkAbort(u) => 0 <= u < c.front.counter
    case SendAbort(k, w) => k < |c.sending| && w < |c.boxes|
    case Work(w, n) => w < |c.boxes| && 0 < n <= |c.boxes[w]|
    case Tick(n, ev, tokens) => n <= |c.back| && 0 < |c.boxes|
    case Hear => c.toFront != []
    case Take(u) => true
  }

  ghost function PutBox(c: Chain, w: nat, ms: seq<TokMsg>): seq<seq<TokMsg>>
    requires w < |c.boxes|
  {
    c.boxes[w := c.boxes[w] + ms]
  }

  ghost function TickInput(c: Chain, n: nat, ev: CacheSpec.Eviction, tokens: seq<int>): Input
    requires n <= |c.back|
  {
    Input(c.back[..n], ev, tokens)
  }

  ghost function Next(cfg: Config, c: Chain, st: Step): Chain
    requires Enabled(c, st)
  {
    match st
    case NewRequest(ids, params, w) =>
      c.(front := NewUserOp(c.front), boxes := PutBox(c, w, [Tokenize(c.front.counter, ids, params)]))
    case MarkAbort(u) =>
      c.(front := MarkOp(c.front, u), sending := c.sending + [u], marked := c.marked + {u})
    case SendAbort(k, w) =>
      c.(sending := c.sending[..k] + c.sending[k + 1..], boxes := PutBox(c, w, [Abort(c.sending[k])]))
    case Work(w, n) =>
      var batch := c.boxes[w][..n];
      c.(boxes := c.boxes[w := c.boxes[w][n..]], back := c.back + ToBack(batch), toFront := c.toFront + ToFront(batch))
    case Tick(n, ev, tokens) =>
      var i := TickInput(c, n, ev, tokens);
      var (s', f, replies) := OverlapTick(cfg, c.sched, c.last, i);
      c.(sched := s', last := f, back := c.back[n..], boxes := PutBox(c, 0, FromScheduler(replies)),
         seen := c.seen + Submitted(i.msgs), handled := c.handled + Aborts(i.msgs))
    case Hear => c.(front := HearOp(c.front, c.toFront[0]), toFront := c.toFront[1..])
    case Take(u) => c.(front := TakeOp(c.front, u))
  }

  ghost function Start(cfg: Config, workers: nat): Chain {
    Chain(Front(0, map[], map[], {}, map[]), [], seq(workers, i => []), [], InitState(cfg), None, [], {}, {}, {})
  }

  // ---- every uid is submitted once

  ghost function BoxCount(boxes: seq<seq<TokMsg>>, u: int): nat {
    if boxes == [] then 0 else TokenizeCount(boxes[0], u) + BoxCount(boxes[1..], u)
  }

  /** How often a request is on its way to the scheduler, or was submitted to it. */
  ghost function Copies(c: Chain, u: int): nat {
    BoxCount(c.boxes, u) + UserCount(c.back, u) + (if u in c.seen then 1 else 0)
  }

  /** Each uid handed out has exactly one request, under way or submitted. */
  ghost predicate OneCopy(c: Chain, u: int) {
    Copies(c, u) == if 0 <= u < c.front.counter then 1 else 0
  }

  ghost predicate HasTokens(c: Chain) {
    && (forall w, m {:trigger m in c.boxes[w]} | 0 <= w < |c.boxes| && m in c.boxes[w] && m.Tokenize? :: m.ids != [])
    && (forall m {:trigger m in c.back} | m in c.back && m.UserMsg? :: m.ids != [])
  }

  lemma {:induction false} BoxPut(boxes: seq<seq<TokMsg>>, w: nat, box: seq<TokMsg>, u: int)
    requires w < |boxes|
    ensures BoxCount(boxes[w := box], u) + TokenizeCount(boxes[w], u) == BoxCount(boxes, u) + TokenizeCount(box, u)
    decreases |boxes|
  {
    if w == 0 {
      assert boxes[w := box][1..] == boxes[1..];
    } else {
      BoxPut(boxes[1..], w - 1, box, u);
      assert boxes[w := box][1..] == boxes[1..][w - 1 := box];
    }
  }

  // ---- where an abort is

  /** An abort of `u`, or its acknowledgement, is on its way in some queue. */
  ghost predicate Travelling(c: Chain, u: int) {
    u in c.sending || AbortMsg(u) in c.back || AbortAckReply(u) in c.toFront || Boxed(c.boxes, u)
  }

  ghost predicate Boxed(boxes: seq<seq<TokMsg>>, u: int) {
    exists w {:trigger boxes[w]} :: 0 <= w < |boxes| && InBox(boxes[w], u)
  }

  ghost predicate InBox(box: seq<TokMsg>, u: int) {
    Abort(u) in box || Ack(u) in box
  }

  /** Control and knowledge of the scheduler. */
  ghost predicate SchedOk(c: Chain) {
    FInv(c.sched, c.last) && Known(c.sched) <= c.seen
  }

  ghost predicate Unique(c: Chain) {
    forall u {:trigger OneCopy(c, u)} :: OneCopy(c, u)
  }

  /** While an abort is pending, it or its acknowledgement is on its way. */
  ghost predicate Alive(c: Chain) {
    forall u {:trigger Travelling(c, u)} | u in c.front.pending :: Travelling(c, u)
  }

  /** An aborted request is pending or forgotten. */
  ghost predicate Silenced(c: Chain) {
    forall u | u in c.marked :: u < c.front.counter && (u in c.front.pending || u !in c.front.acks)
  }

  /** What every reachable state satisfies. */
  ghost predicate CInv(c: Chain) {
    FrontOk(c.front) && SchedOk(c) && HasTokens(c) && Unique(c) && Alive(c) && Silenced(c) && 0 < |c.boxes|
  }

  // ---- copies step by step

  lemma {:induction false} CopiesNew(c: Chain, ids: seq<int>, params: Params, w: nat, u: int)
    requires w < |c.boxes|
    ensures BoxCount(PutBox(c, w, [Tokenize(c.front.counter, ids, params)]), u)
         == BoxCount(c.boxes, u) + (if u == c.front.counter then 1 else 0)
  {
    var m := Tokenize(c.front.counter, ids, params);
    BoxPut(c.boxes, w, c.boxes[w] + [m], u);
    TokenizeConcat(c.boxes[w], [m], u);
    assert [m][1..] == [];
  }

  lemma {:induction false} CopiesSend(c: Chain, v: int, w: nat, u: int)
    requires w < |c.boxes|
    ensures BoxCount(PutBox(c, w, [Abort(v)]), u) == BoxCount(c.boxes, u)
  {
    BoxPut(c.boxes, w, c.boxes[w] + [Abort(v)], u);
    TokenizeConcat(c.boxes[w], [Abort(v)], u);
    assert [Abort(v)][1..] == [];
  }

  lemma {:induction false} CopiesWork(c: Chain, w: nat, n: nat, u: int)
    requires w < |c.boxes| && n <= |c.boxes[w]|
    ensures BoxCount(c.boxes[w := c.boxes[w][n..]], u) + UserCount(c.back + ToBack(c.boxes[w][..n]), u)
         == BoxCount(c.boxes, u) + UserCount(c.back, u)
  {
    hide ToBack;
    var batch, rest := c.boxes[w][..n], c.boxes[w][n..];
    assert c.boxes[w] == batch + rest;
    BoxPut(c.boxes, w, rest, u);
    TokenizeConcat(batch, rest, u);
    UserConcat(c.back, ToBack(batch), u);
    UsersCounted(batch, u);
  }

  lemma {:induction false} NoTokenizeBack(rs: seq<Reply>, u: int)
    ensures TokenizeCount(FromScheduler(rs), u) == 0
    ensures Ack(u) in FromScheduler(rs) <==> AbortAck(u) in rs
    ensures forall m | m in FromScheduler(rs) :: !m.Tokenize? && !m.Abort?
    ensures (exists t, fin :: Detokenize(u, t, fin) in FromScheduler(rs)) ==>
              exists r :: r in rs && r.Detok? && r.uid == u
    decreases |rs|
  {
    if rs != [] {
      NoTokenizeBack(rs[1..], u);
      var first := FromScheduler(rs)[0];
      assert FromScheduler(rs)[1..] == FromScheduler(rs[1..]);
      assert rs == [rs[0]] + rs[1..];
      assert FromScheduler(rs) == [first] + FromScheduler(rs[1..]);
    }
  }

  lemma {:induction false} CopiesTick(c: Chain, n: nat, replies: seq<Reply>, u: int)
    requires n <= |c.back| && 0 < |c.boxes| && OneCopy(c, u)
    ensures BoxCount(PutBox(c, 0, FromScheduler(replies)), u) + UserCount(c.back[n..], u)
            + (if u in c.seen + Submitted(c.back[..n]) then 1 else 0) == Copies(c, u)
  {
    hide Submitted, FromScheduler;
    BoxPut(c.boxes, 0, c.boxes[0] + FromScheduler(replies), u);
    TokenizeConcat(c.boxes[0], FromScheduler(replies), u);
    NoTokenizeBack(replies, u);
    assert c.back == c.back[..n] + c.back[n..];
    UserConcat(c.back[..n], c.back[n..], u);
    SubmittedCount(c.back[..n], u);
  }

  lemma {:induction false} SubmittedCount(msgs: seq<Msg>, u: int)
    ensures u in Submitted(msgs) <==> UserCount(msgs, u) > 0
    decreases |msgs|
  {
    if msgs != [] {
      SubmittedCount(msgs[1..], u);
      SubmittedSplit(msgs);
      assert msgs[0] in [msgs[0]];
    }
  }

  /** Messages that submit each uid at most once, and none that is known, are newcomers. */
  lemma {:induction false} CountsNew(known: set<int>, msgs: seq<Msg>)
    requires forall u {:trigger UserCount(msgs, u)} :: UserCount(msgs, u) + (if u in known then 1 else 0) <= 1
    requires forall m | m in msgs && m.UserMsg? :: m.ids != []
    ensures Newcomers(known, msgs)
    decreases |msgs|
  {
    if msgs != [] {
      var m, known' := msgs[0], known + Submitted([msgs[0]]);
      assert m in msgs && forall x | x in msgs[1..] :: x in msgs;
      forall u
        ensures UserCount(msgs[1..], u) + (if u in known' then 1 else 0) <= 1
      {
        assert UserCount(msgs, u) + (if u in known then 1 else 0) <= 1;
        SubmittedOne(m, u);
      }
      if m.UserMsg? {
        assert UserCount(msgs, m.uid) >= 1;
      }
      CountsNew(known', msgs[1..]);
    }
  }

  lemma {:induction false} SubmittedOne(m: Msg, u: int)
    ensures u in Submitted([m]) <==> m.UserMsg? && m.uid == u
  {
    assert m in [m];
  }

  // ---- the steps keep the invariant

  lemma {:induction false} BoxedMore(boxes: seq<seq<TokMsg>>, w: nat, ms: seq<TokMsg>, u: int)
    requires w < |boxes|
    ensures Boxed(boxes, u) ==> Boxed(boxes[w := boxes[w] + ms], u)
    ensures InBox(ms, u) ==> Boxed(boxes[w := boxes[w] + ms], u)
  {
    var boxes' := boxes[w := boxes[w] + ms];
    if InBox(ms, u) {
      assert InBox(boxes'[w], u);
    }
    if Boxed(boxes, u) {
      var v :| 0 <= v < |boxes| && InBox(boxes[v], u);
      assert InBox(boxes'[v], u);
    }
  }

  /** A worker's batch takes nothing of an abort off its queue without passing it on. */
  lemma {:induction false} BoxedWork(boxes: seq<seq<TokMsg>>, w: nat, n: nat, u: int)
    requires w < |boxes| && n <= |boxes[w]|
    ensures Boxed(boxes, u) ==>
              || Boxed(boxes[w := boxes[w][n..]], u)
              || AbortMsg(u) in ToBack(boxes[w][..n]) || AbortAckReply(u) in ToFront(boxes[w][..n])
  {
    hide ToBack, ToFront;
    var boxes' := boxes[w := boxes[w][n..]];
    AbortsForwarded(boxes[w][..n], u);
    if Boxed(boxes, u) {
      var v :| 0 <= v < |boxes| && InBox(boxes[v], u);
      if v != w {
        assert InBox(boxes'[v], u);
      } else {
        assert boxes[w] == boxes[w][..n] + boxes[w][n..];
        assert InBox(boxes[w][..n], u) || InBox(boxes'[w], u);
      }
    }
  }

  lemma {:induction false} TokensPut(c: Chain, w: nat, ms: seq<TokMsg>)
    requires HasTokens(c) && w < |c.boxes| && forall m | m in ms && m.Tokenize? :: m.ids != []
    ensures HasTokens(c.(boxes := PutBox(c, w, ms)))
  {
    var c' := c.(boxes := PutBox(c, w, ms));
    forall v, m | 0 <= v < |c'.boxes| && m in c'.boxes[v] && m.Tokenize?
      ensures m.ids != []
    {
      assert m in c.boxes[v] || m in ms;
    }
  }

  lemma {:induction false} TokensWork(c: Chain, w: nat, n: nat)
    requires HasTokens(c) && w < |c.boxes| && n <= |c.boxes[w]|
    ensures HasTokens(c.(boxes := c.boxes[w := c.boxes[w][n..]], back := c.back + ToBack(c.boxes[w][..n])))
  {
    var c' := c.(boxes := c.boxes[w := c.boxes[w][n..]], back := c.back + ToBack(c.boxes[w][..n]));
    forall v, m | 0 <= v < |c'.boxes| && m in c'.boxes[v] && m.Tokenize?
      ensures m.ids != []
    {
      assert m in c.boxes[v];
    }
    assert forall m | m in c.boxes[w][..n] :: m in c.boxes[w];
    UsersHaveTokens(c.boxes[w][..n]);
  }

  lemma {:induction false} UsersHaveTokens(ms: seq<TokMsg>)
    requires forall m | m in ms && m.Tokenize? :: m.ids != []
    ensures forall m | m in ToBack(ms) && m.UserMsg? :: m.ids != []
    decreases |ms|
  {
    if ms != [] {
      Parts(ms);
      UsersHaveTokens(ms[1..]);
      assert forall m | m in ToBack(ms) :: m in Users(ms) || m in AbortMsgs(ms);
    }
  }

  lemma {:induction false} NewKeeps(cfg: Config, c: Chain, ids: seq<int>, params: Params, w: nat)
    requires CInv(c) && Enabled(c, NewRequest(ids, params, w))
    ensures CInv(Next(cfg, c, NewRequest(ids, params, w)))
  {
    hide FrontOk, SchedOk, HasTokens, Boxed, BoxCount, TokenizeCount, UserCount;
    var c' := Next(cfg, c, NewRequest(ids, params, w));
    var m := Tokenize(c.front.counter, ids, params);
    NewUserKeeps(c.front);
    TokensPut(c, w, [m]);
    TokensSame(c.(boxes := PutBox(c, w, [m])), c');
    SchedSame(c, c');
    forall u
      ensures OneCopy(c', u)
    {
      CopiesNew(c, ids, params, w, u);
      assert OneCopy(c, u);
    }
    forall u | u in c'.front.pending
      ensures Travelling(c', u)
    {
      assert Travelling(c, u);
      BoxedMore(c.boxes, w, [m], u);
    }
  }

  lemma {:induction false} SchedSame(c: Chain, c': Chain)
    requires SchedOk(c) && c'.sched == c.sched && c'.last == c.last && c'.seen == c.seen
    ensures SchedOk(c')
  {
  }

  lemma {:induction false} TokensSame(c: Chain, c': Chain)
    requires HasTokens(c) && c'.boxes == c.boxes && c'.back == c.back
    ensures HasTokens(c')
  {
  }

  lemma {:induction false} MarkStepKeeps(cfg: Config, c: Chain, v: int)
    requires CInv(c) && Enabled(c, MarkAbort(v))
    ensures CInv(Next(cfg, c, MarkAbort(v)))
  {
    hide FrontOk, SchedOk, HasTokens, Boxed, BoxCount, TokenizeCount, UserCount;
    var c' := Next(cfg, c, MarkAbort(v));
    MarkKeeps(c.front, v);
    TokensSame(c, c');
    SchedSame(c, c');
    forall u
      ensures OneCopy(c', u)
    {
      assert OneCopy(c, u);
    }
    assert (c.sending + [v])[|c.sending|] == v;
    forall u | u in c'.front.pending
      ensures Travelling(c', u)
    {
      assert u != v ==> Travelling(c, u);
    }
  }

  lemma {:induction false} SendKeeps(cfg: Config, c: Chain, k: nat, w: nat)
    requires CInv(c) && Enabled(c, SendAbort(k, w))
    ensures CInv(Next(cfg, c, SendAbort(k, w)))
  {
    hide FrontOk, SchedOk, HasTokens, Boxed, BoxCount, TokenizeCount, UserCount;
    var c', m := Next(cfg, c, SendAbort(k, w)), Abort(c.sending[k]);
    TokensPut(c, w, [m]);
    TokensSame(c.(boxes := PutBox(c, w, [m])), c');
    SchedSame(c, c');
    forall u
      ensures OneCopy(c', u)
    {
      CopiesSend(c, c.sending[k], w, u);
      assert OneCopy(c, u);
    }
    assert m in [m];
    forall u | u in c'.front.pending
      ensures Travelling(c', u)
    {
      assert Travelling(c, u);
      BoxedMore(c.boxes, w, [m], u);
      Remaining(c.sending, k, u);
    }
  }

  lemma {:induction false} Remaining(s: seq<int>, k: nat, u: int)
    requires k < |s|
    ensures u in s ==> u == s[k] || u in s[..k] + s[k + 1..]
  {
    if u in s {
      var i :| 0 <= i < |s| && s[i] == u;
      if i < k {
        assert (s[..k] + s[k + 1..])[i] == u;
      } else if i > k {
        assert (s[..k] + s[k + 1..])[i - 1] == u;
      }
    }
  }

  lemma {:induction false} WorkKeeps(cfg: Config, c: Chain, w: nat, n: nat)
    requires CInv(c) && Enabled(c, Work(w, n))
    ensures CInv(Next(cfg, c, Work(w, n)))
  {
    hide FrontOk, SchedOk, HasTokens, Boxed, BoxCount, TokenizeCount, UserCount, ToBack, ToFront;
    var c' := Next(cfg, c, Work(w, n));
    TokensWork(c, w, n);
    TokensSame(c.(boxes := c'.boxes, back := c'.back), c');
    SchedSame(c, c');
    forall u
      ensures OneCopy(c', u)
    {
      CopiesWork(c, w, n, u);
      assert OneCopy(c, u);
    }
    forall u | u in c'.front.pending
      ensures Travelling(c', u)
    {
      assert Travelling(c, u);
      BoxedWork(c.boxes, w, n, u);
    }
  }

  lemma {:induction false} HearStepKeeps(cfg: Config, c: Chain)
    requires CInv(c) && Enabled(c, Hear)
    ensures CInv(Next(cfg, c, Hear))
  {
    hide FrontOk, SchedOk, HasTokens, Boxed, BoxCount, TokenizeCount, UserCount;
    var c', m := Next(cfg, c, Hear), c.toFront[0];
    HearKeeps(c.front, m);
    TokensSame(c, c');
    SchedSame(c, c');
    forall u
      ensures OneCopy(c', u)
    {
      assert OneCopy(c, u);
    }
    assert c.toFront == [m] + c.toFront[1..];
    forall u | u in c'.front.pending
      ensures Travelling(c', u)
    {
      assert Travelling(c, u);
    }
  }

  lemma {:induction false} TakeStepKeeps(cfg: Config, c: Chain, v: int)
    requires CInv(c)
    ensures CInv(Next(cfg, c, Take(v)))
  {
    hide FrontOk, SchedOk, HasTokens, Boxed, BoxCount, TokenizeCount, UserCount;
    var c' := Next(cfg, c, Take(v));
    TakeKeeps(c.front, v);
    TokensSame(c, c');
    SchedSame(c, c');
    forall u
      ensures OneCopy(c', u)
    {
      assert OneCopy(c, u);
    }
    forall u | u in c'.front.pending
      ensures Travelling(c', u)
    {
      assert Travelling(c, u);
    }
  }

  // ---- the scheduler's tick

  /** The messages of a tick are newcomers, so the tick may take them. */
  lemma {:induction false} TickFresh(cfg: Config, c: Chain, n: nat)
    requires CInv(c) && n <= |c.back|
    ensures var s0 := c.sched.(inflight := LastUids(c.last));
            && AllFresh(cfg, s0, c.back[..n]) && Ctrl(s0)
            && Known(ProcessMsgs(cfg, s0, c.back[..n])) <= c.seen + Submitted(c.back[..n])
  {
    hide FrontOk, FInv, Travelling, BoxCount, TokenizeCount, UserCount, Uids, AllFresh, ProcessMsgs, Ctrl, Silenced,
      Alive;
    var msgs := c.back[..n];
    assert c.back == msgs + c.back[n..];
    forall u
      ensures UserCount(msgs, u) + (if u in c.seen then 1 else 0) <= 1
    {
      assert OneCopy(c, u);
      UserConcat(msgs, c.back[n..], u);
    }
    assert forall m | m in msgs :: m in c.back;
    CountsNew(c.seen, msgs);
    WithInflight(c.sched, c.last);
    KnownInflight(c.sched, LastUids(c.last));
    MsgsNew(cfg, c.sched.(inflight := LastUids(c.last)), msgs, c.seen);
  }

  /** Every abort a tick takes is acknowledged by the same tick. */
  lemma {:induction false} TickAcks(cfg: Config, s: Sched, last: Option<Flight>, i: Input, u: int)
    requires FInv(s, last) && OFresh(cfg, s, last, i.msgs) && AbortMsg(u) in i.msgs
    ensures AbortAck(u) in OverlapTick(cfg, s, last, i).2
  {
    hide FInv, OFresh, OverlapTick, Uids, AckTotal, AbortCount;
    AcksCounted(cfg, s, last, i, u);
    InAborts(i.msgs, u);
    AckTotalIn(OverlapTick(cfg, s, last, i).2, u);
  }

  lemma {:induction false} AckTotalIn(rs: seq<Reply>, u: int)
    ensures AckTotal(rs, u) > 0 ==> AbortAck(u) in rs
    decreases |rs|
  {
    if rs != [] {
      AckTotalIn(rs[1..], u);
      assert rs == [rs[0]] + rs[1..];
    }
  }

  lemma {:induction false} TokensTick(c: Chain, n: nat, replies: seq<Reply>)
    requires HasTokens(c) && n <= |c.back| && 0 < |c.boxes|
    ensures HasTokens(c.(boxes := PutBox(c, 0, FromScheduler(replies)), back := c.back[n..]))
  {
    hide FromScheduler;
    NoTokenizeBack(replies, 0);
    TokensPut(c, 0, FromScheduler(replies));
    assert forall m | m in c.back[n..] :: m in c.back;
  }

  lemma {:induction false} TickStepKeeps(cfg: Config, c: Chain, n: nat, ev: CacheSpec.Eviction, tokens: seq<int>)
    requires CInv(c) && Enabled(c, Tick(n, ev, tokens))
    ensures CInv(Next(cfg, c, Tick(n, ev, tokens)))
  {
    hide FrontOk, HasTokens, Boxed, BoxCount, TokenizeCount, UserCount, FInv, Known, OverlapTick, FromScheduler,
      AllFresh, ProcessMsgs, Ctrl, Submitted, Aborts, Uids;
    var c', i := Next(cfg, c, Tick(n, ev, tokens)), TickInput(c, n, ev, tokens);
    var replies := OverlapTick(cfg, c.sched, c.last, i).2;
    TickFresh(cfg, c, n);
    ControlKeeps(cfg, c.sched, c.last, i);
    TickKnown(cfg, c.sched, c.last, i, c'.seen);
    TokensTick(c, n, replies);
    TokensSame(c.(boxes := c'.boxes, back := c'.back), c');
    forall u
      ensures OneCopy(c', u)
    {
      assert OneCopy(c, u);
      CopiesTick(c, n, replies, u);
    }
    assert c.back == c.back[..n] + c.back[n..];
    forall u | u in c'.front.pending
      ensures Travelling(c', u)
    {
      assert Travelling(c, u);
      BoxedMore(c.boxes, 0, FromScheduler(replies), u);
      NoTokenizeBack(replies, u);
      if AbortMsg(u) in c.back[..n] {
        TickAcks(cfg, c.sched, c.last, i, u);
      }
    }
  }

  lemma {:induction false} StepKeeps(cfg: Config, c: Chain, st: Step)
    requires CInv(c) && Enabled(c, st)
    ensures CInv(Next(cfg, c, st))
  {
    hide CInv, Next;
    match st
    case NewRequest(ids, params, w) => NewKeeps(cfg, c, ids, params, w);
    case MarkAbort(u) => MarkStepKeeps(cfg, c, u);
    case SendAbort(k, w) => SendKeeps(cfg, c, k, w);
    case Work(w, n) => WorkKeeps(cfg, c, w, n);
    case Tick(n, ev, tokens) => TickStepKeeps(cfg, c, n, ev, tokens);
    case Hear => HearStepKeeps(cfg, c);
    case Take(u) => TakeStepKeeps(cfg, c, u);
  }

  // ---- runs

  /** One step, or none when it cannot be taken. */
  ghost function Do(cfg: Config, c: Chain, st: Step): Chain {
    if Enabled(c, st) then Next(cfg, c, st) else c
  }

  ghost function Run(cfg: Config, c: Chain, steps: seq<Step>): Chain
    decreases |steps|
  {
    if steps == [] then c else Run(cfg, Do(cfg, c, steps[0]), steps[1..])
  }

  lemma {:induction false} RunConcat(cfg: Config, c: Chain, a: seq<Step>, b: seq<Step>)
    ensures Run(cfg, c, a + b) == Run(cfg, Run(cfg, c, a), b)
    decreases |a|
  {
    hide Do;
    if a == [] {
      assert a + b == b;
    } else {
      RunConcat(cfg, Do(cfg, c, a[0]), a[1..], b);
      assert (a + b)[1..] == a[1..] + b;
    }
  }

  lemma {:induction false} DoKeeps(cfg: Config, c: Chain, st: Step)
    requires CInv(c)
    ensures CInv(Do(cfg, c, st))
  {
    hide CInv, Enabled, Next;
    if Enabled(c, st) {
      StepKeeps(cfg, c, st);
    }
  }

  lemma {:induction false} RunKeeps(cfg: Config, c: Chain, steps: seq<Step>)
    requires CInv(c)
    ensures CInv(Run(cfg, c, steps))
    decreases |steps|
  {
    hide CInv, Do;
    if steps != [] {
      DoKeeps(cfg, c, steps[0]);
      RunKeeps(cfg, Do(cfg, c, steps[0]), steps[1..]);
    }
  }

  lemma {:induction false} NoBoxes(workers: nat, u: int)
    ensures BoxCount(seq(workers, i => []), u) == 0
    decreases workers
  {
    if workers > 0 {
      NoBoxes(workers - 1, u);
      var boxes: seq<seq<TokMsg>> := seq(workers, i => []);
      assert boxes[1..] == seq(workers - 1, i => []);
    }
  }

  lemma {:induction false} StartKeeps(cfg: Config, workers: nat)
    requires workers > 0
    ensures CInv(Start(cfg, workers))
  {
    hide FInv;
    InitLoop(cfg);
    OInvControl(InitState(cfg), None);
    var c := Start(cfg, workers);
    forall u
      ensures OneCopy(c, u)
    {
      NoBoxes(workers, u);
    }
    StartKnown(cfg);
  }

  /** While an abort is pending, some abort or acknowledgement for it is on its way, in every reachable state. */
  lemma {:induction false} PendingTravels(cfg: Config, workers: nat, steps: seq<Step>, u: int)
    requires workers > 0 && u in Run(cfg, Start(cfg, workers), steps).front.pending
    ensures Travelling(Run(cfg, Start(cfg, workers), steps), u)
  {
    hide Run, Start, Travelling, SchedOk, HasTokens, Unique, Silenced, FrontOk;
    StartKeeps(cfg, workers);
    RunKeeps(cfg, Start(cfg, workers), steps);
    assert Alive(Run(cfg, Start(cfg, workers), steps));
  }

  // ---- no reply after an abort

  /** What one step does to the replies of an aborted request: nothing, or it hands them out or forgets them. */
  lemma {:induction false} StepSilent(cfg: Config, c: Chain, st: Step, u: int)
    requires CInv(c) && u in c.marked
    ensures var c' := Do(cfg, c, st);
            && u in c'.marked
            && (u in c'.front.acks ==>
                  u in c.front.acks && (c'.front.acks[u] == c.front.acks[u] || c'.front.acks[u] == []))
  {
    hide SchedOk, HasTokens, Unique, Alive, FrontOk, OverlapTick, ToBack, ToFront, FromScheduler;
  }

  /** From the moment `abort_user` marks a uid, no reply is ever added to its list: the list is at all times the one it
  had then, or empty, or gone. */
  lemma {:induction false} SilentAfterAbort(cfg: Config, c: Chain, steps: seq<Step>, u: int)
    requires CInv(c) && u in c.marked
    ensures var c' := Run(cfg, c, steps);
            u in c'.front.acks ==> u in c.front.acks && (c'.front.acks[u] == c.front.acks[u] || c'.front.acks[u] == [])
    decreases |steps|
  {
    hide CInv, Do;
    if steps != [] {
      StepSilent(cfg, c, steps[0], u);
      DoKeeps(cfg, c, steps[0]);
      SilentAfterAbort(cfg, Do(cfg, c, steps[0]), steps[1..], u);
    }
  }

  /** The same over runs from the start: after an abort of `u` was marked. */
  lemma {:induction false} NoReplyAfterAbort(cfg: Config, workers: nat, before: seq<Step>, after: seq<Step>, u: int)
    requires workers > 0 && Enabled(Run(cfg, Start(cfg, workers), before), MarkAbort(u))
    ensures var f := Run(cfg, Start(cfg, workers), before).front;
            var f' := Run(cfg, Start(cfg, workers), before + [MarkAbort(u)] + after).front;
            u in f'.acks ==> u in f.acks && (f'.acks[u] == f.acks[u] || f'.acks[u] == [])
  {
    hide Run, Start, CInv;
    var c := Run(cfg, Start(cfg, workers), before);
    StartKeeps(cfg, workers);
    RunKeeps(cfg, Start(cfg, workers), before);
    DoKeeps(cfg, c, MarkAbort(u));
    RunConcat(cfg, Start(cfg, workers), before + [MarkAbort(u)], after);
    RunConcat(cfg, Start(cfg, workers), before, [MarkAbort(u)]);
    RunOne(cfg, c, MarkAbort(u));
    SilentAfterAbort(cfg, Do(cfg, c, MarkAbort(u)), after, u);
  }

  lemma {:induction false} RunOne(cfg: Config, c: Chain, st: Step)
    ensures Run(cfg, c, [st]) == Do(cfg, c, st)
  {
    hide Do;
    assert [st][1..] == [];
  }

  // ---- every abort completes

  ghost predicate Empty(boxes: seq<seq<TokMsg>>, from: nat, to: nat) {
    forall w {:trigger boxes[w]} | from <= w < to && w < |boxes| :: boxes[w] == []
  }

  /** With nothing on its way, no abort is pending. */
  lemma {:induction false} QuietMeansDone(c: Chain)
    requires CInv(c) && c.sending == [] && c.back == [] && c.toFront == [] && Empty(c.boxes, 0, |c.boxes|)
    ensures c.front.pending == {}
  {
    hide SchedOk, HasTokens, Unique, Silenced, FrontOk;
    forall u
      ensures u !in c.front.pending
    {
      NotBoxed(c.boxes, u);
      assert !Travelling(c, u);
    }
  }

  lemma {:induction false} NotBoxed(boxes: seq<seq<TokMsg>>, u: int)
    requires Empty(boxes, 0, |boxes|)
    ensures !Boxed(boxes, u)
  {
    forall w | 0 <= w < |boxes|
      ensures !InBox(boxes[w], u)
    {
      assert boxes[w] == [];
    }
  }

  /** A step that only moves messages along. */
  predicate Delivers(st: Step) {
    st.SendAbort? || st.Work? || st.Tick? || st.Hear?
  }

  ghost predicate AllDeliver(steps: seq<Step>) {
    forall i {:trigger steps[i]} | 0 <= i < |steps| :: Delivers(steps[i])
  }

  lemma {:induction false} SendAll(cfg: Config, c: Chain) returns (steps: seq<Step>)
    requires CInv(c)
    ensures AllDeliver(steps) && Run(cfg, c, steps).sending == []
    decreases |c.sending|
  {
    hide SchedOk, HasTokens, Unique, Alive, Silenced, FrontOk;
    steps := [];
    if c.sending != [] {
      var st := SendAbort(0, 0);
      DoKeeps(cfg, c, st);
      var rest := SendAll(cfg, Do(cfg, c, st));
      steps := [st] + rest;
      assert steps[1..] == rest;
    }
  }

  /** The workers from `w` on empty their queues. */
  lemma {:induction false} WorkAll(cfg: Config, c: Chain, w: nat) returns (steps: seq<Step>)
    requires CInv(c) && c.sending == [] && Empty(c.boxes, 0, w) && w <= |c.boxes|
    ensures var c' := Run(cfg, c, steps);
            AllDeliver(steps) && c'.sending == [] && |c'.boxes| == |c.boxes| && Empty(c'.boxes, 0, |c'.boxes|)
    decreases |c.boxes| - w
  {
    hide SchedOk, HasTokens, Unique, Alive, Silenced, FrontOk, ToBack, ToFront;
    steps := [];
    if w < |c.boxes| {
      if c.boxes[w] == [] {
        steps := WorkAll(cfg, c, w + 1);
      } else {
        var st := Work(w, |c.boxes[w]|);
        DoKeeps(cfg, c, st);
        var rest := WorkAll(cfg, Do(cfg, c, st), w + 1);
        steps := [st] + rest;
        assert steps[1..] == rest;
      }
    }
  }

  lemma {:induction false} NothingBack(rs: seq<Reply>)
    ensures ToBack(FromScheduler(rs)) == []
    decreases |rs|
  {
    if rs != [] {
      NothingBack(rs[1..]);
      assert FromScheduler(rs)[1..] == FromScheduler(rs[1..]);
      assert Users(FromScheduler(rs)) == Users(FromScheduler(rs[1..]));
      assert AbortMsgs(FromScheduler(rs)) == AbortMsgs(FromScheduler(rs[1..]));
    }
  }

  /** The scheduler takes everything there is, and its detokenizer passes everything on. */
  lemma {:induction false} TickAll(cfg: Config, c: Chain) returns (steps: seq<Step>)
    requires CInv(c) && c.sending == [] && Empty(c.boxes, 0, |c.boxes|)
    ensures var c' := Run(cfg, c, steps);
            AllDeliver(steps) && c'.sending == [] && c'.back == [] && Empty(c'.boxes, 0, |c'.boxes|)
  {
    hide SchedOk, HasTokens, Unique, Alive, Silenced, FrontOk, ToBack, ToFront, FromScheduler, OverlapTick;
    var st := Tick(|c.back|, CacheSpec.Eviction(map[], []), []);
    var replies := OverlapTick(cfg, c.sched, c.last, TickInput(c, |c.back|, st.ev, st.tokens)).2;
    var c1 := Do(cfg, c, st);
    NothingBack(replies);
    RunOne(cfg, c, st);
    assert c.boxes[0] == [] && [] + FromScheduler(replies) == FromScheduler(replies);
    assert c1.boxes == c.boxes[0 := FromScheduler(replies)];
    if FromScheduler(replies) == [] {
      steps := [st];
    } else {
      var next := Work(0, |c1.boxes[0]|);
      steps := [st, next];
      assert steps == [st] + [next];
      RunConcat(cfg, c, [st], [next]);
      RunOne(cfg, c1, next);
      assert c1.boxes[0][..|c1.boxes[0]|] == FromScheduler(replies);
    }
  }

  lemma {:induction false} HearAll(cfg: Config, c: Chain) returns (steps: seq<Step>)
    requires c.sending == [] && c.back == [] && Empty(c.boxes, 0, |c.boxes|)
    ensures var c' := Run(cfg, c, steps);
            && AllDeliver(steps) && c'.sending == [] && c'.back == [] && Empty(c'.boxes, 0, |c'.boxes|)
              && c'.toFront == []
    decreases |c.toFront|
  {
    hide HearOp;
    steps := [];
    if c.toFront != [] {
      var rest := HearAll(cfg, Do(cfg, c, Hear));
      steps := [Hear] + rest;
      assert steps[1..] == rest;
    }
  }

  /** Every abort completes: from any reachable state, steps that only move messages along lead to one in which no abort
  is pending. */
  lemma {:induction false} AbortsComplete(cfg: Config, c: Chain) returns (steps: seq<Step>)
    requires CInv(c)
    ensures AllDeliver(steps) && Run(cfg, c, steps).front.pending == {}
  {
    hide CInv, Empty;
    NothingEmpty(c.boxes);
    var a := SendAll(cfg, c);
    var c1 := Run(cfg, c, a);
    RunKeeps(cfg, c, a);
    NothingEmpty(c1.boxes);
    var b := WorkAll(cfg, c1, 0);
    var c2 := Run(cfg, c1, b);
    RunKeeps(cfg, c1, b);
    var t := TickAll(cfg, c2);
    var c3 := Run(cfg, c2, t);
    RunKeeps(cfg, c2, t);
    var h := HearAll(cfg, c3);
    RunKeeps(cfg, c3, h);
    QuietMeansDone(Run(cfg, c3, h));
    steps := a + b + t + h;
    RunConcat(cfg, c, a, b);
    RunConcat(cfg, c, a + b, t);
    RunConcat(cfg, c, a + b + t, h);
  }

  lemma {:induction false} NothingEmpty(boxes: seq<seq<TokMsg>>)
    ensures Empty(boxes, 0, 0)
  {
  }
}
