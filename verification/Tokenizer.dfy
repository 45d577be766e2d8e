/** The tokenizer worker between the API server and the scheduler: it takes a batch of messages off its queue,
partitions it by kind and forwards each part. Text is not modelled: a reply carries its token. */
module Tokenizer {
  import opened Requests

  /** What a worker receives: the first two kinds from the API server, the last two from the scheduler. */
  datatype TokMsg =
    | Tokenize(uid: int, ids: seq<int>, params: Params)
    | Abort(uid: int)
    | Detokenize(uid: int, token: int, finished: bool)
    | Ack(uid: int)

  datatype FrontMsg = UserReply(uid: int, text: int, finished: bool) | AbortAckReply(uid: int)

  function FromScheduler(rs: seq<Reply>): seq<TokMsg> {
    if rs == [] then []
    else
      [match rs[0] case Detok(uid, token, finished) => Detokenize(uid, token, finished) case AbortAck(uid) => Ack(uid)]
      + FromScheduler(rs[1..])
  }

  // ---- the partition

  function Users(ms: seq<TokMsg>): seq<Msg> {
    if ms == [] then []
    else (if ms[0].Tokenize? then [UserMsg(ms[0].uid, ms[0].ids, ms[0].params)] else []) + Users(ms[1..])
  }

  function AbortMsgs(ms: seq<TokMsg>): seq<Msg> {
    if ms == [] then [] else (if ms[0].Abort? then [AbortMsg(ms[0].uid)] else []) + AbortMsgs(ms[1..])
  }

  function UserReplies(ms: seq<TokMsg>): seq<FrontMsg> {
    if ms == [] then []
    else (if ms[0].Detokenize? then [UserReply(ms[0].uid, ms[0].token, ms[0].finished)] else []) + UserReplies(ms[1..])
  }

  function AbortAcks(ms: seq<TokMsg>): seq<FrontMsg> {
    if ms == [] then [] else (if ms[0].Ack? then [AbortAckReply(ms[0].uid)] else []) + AbortAcks(ms[1..])
  }

  /** What a batch sends on to the scheduler: requests first, then aborts. */
  function ToBack(ms: seq<TokMsg>): seq<Msg> {
    Users(ms) + AbortMsgs(ms)
  }

  /** What it sends on to the API server: replies first, then acknowledgements. */
  function ToFront(ms: seq<TokMsg>): seq<FrontMsg> {
    UserReplies(ms) + AbortAcks(ms)
  }

  // ---- counting messages of one uid

  function TokenizeCount(ms: seq<TokMsg>, u: int): nat {
    if ms == [] then 0 else (if ms[0].Tokenize? && ms[0].uid == u then 1 else 0) + TokenizeCount(ms[1..], u)
  }

  function UserCount(ms: seq<Msg>, u: int): nat {
    if ms == [] then 0 else (if ms[0].UserMsg? && ms[0].uid == u then 1 else 0) + UserCount(ms[1..], u)
  }

  lemma {:induction false} TokenizeConcat(a: seq<TokMsg>, b: seq<TokMsg>, u: int)
    ensures TokenizeCount(a + b, u) == TokenizeCount(a, u) + TokenizeCount(b, u)
    decreases |a|
  {
    if a == [] {
      assert a + b == b;
    } else {
      TokenizeConcat(a[1..], b, u);
      assert (a + b)[1..] == a[1..] + b;
    }
  }

  lemma {:induction false} UserConcat(a: seq<Msg>, b: seq<Msg>, u: int)
    ensures UserCount(a + b, u) == UserCount(a, u) + UserCount(b, u)
    decreases |a|
  {
    if a == [] {
      assert a + b == b;
    } else {
      UserConcat(a[1..], b, u);
      assert (a + b)[1..] == a[1..] + b;
    }
  }

  /** A batch forwards each request exactly once. */
  lemma {:induction false} UsersCounted(ms: seq<TokMsg>, u: int)
    ensures UserCount(ToBack(ms), u) == TokenizeCount(ms, u)
  {
    UsersCount(ms, u);
    AbortsCount(ms, u);
    UserConcat(Users(ms), AbortMsgs(ms), u);
  }

  lemma {:induction false} UsersCount(ms: seq<TokMsg>, u: int)
    ensures UserCount(Users(ms), u) == TokenizeCount(ms, u)
    decreases |ms|
  {
    if ms != [] {
      UsersCount(ms[1..], u);
      if ms[0].Tokenize? {
        assert Users(ms)[1..] == Users(ms[1..]);
      } else {
        assert Users(ms) == Users(ms[1..]);
      }
    }
  }

  lemma {:induction false} AbortsCount(ms: seq<TokMsg>, u: int)
    ensures UserCount(AbortMsgs(ms), u) == 0
    decreases |ms|
  {
    if ms != [] {
      AbortsCount(ms[1..], u);
      if ms[0].Abort? {
        assert AbortMsgs(ms)[1..] == AbortMsgs(ms[1..]);
      } else {
        assert AbortMsgs(ms) == AbortMsgs(ms[1..]);
      }
    }
  }

  /** A batch forwards every abort and every acknowledgement, and makes none up. */
  lemma {:induction false} AbortsForwarded(ms: seq<TokMsg>, u: int)
    ensures AbortMsg(u) in ToBack(ms) <==> Abort(u) in ms
    ensures AbortMsg(u) !in Users(ms)
    ensures AbortAckReply(u) in ToFront(ms) <==> Ack(u) in ms
    decreases |ms|
  {
    if ms != [] {
      AbortsForwarded(ms[1..], u);
      Parts(ms);
    }
  }

  /** The parts of a batch in terms of those of its tail. */
  lemma {:induction false} Parts(ms: seq<TokMsg>)
    requires ms != []
    ensures forall m :: m in ms <==> m == ms[0] || m in ms[1..]
    ensures forall m :: m in Users(ms) <==>
              (ms[0].Tokenize? && m == UserMsg(ms[0].uid, ms[0].ids, ms[0].params)) || m in Users(ms[1..])
    ensures forall m :: m in AbortMsgs(ms) <==> (ms[0].Abort? && m == AbortMsg(ms[0].uid)) || m in AbortMsgs(ms[1..])
    ensures forall m :: m in AbortAcks(ms) <==> (ms[0].Ack? && m == AbortAckReply(ms[0].uid)) || m in AbortAcks(ms[1..])
    ensures forall m :: m in UserReplies(ms) <==>
              (ms[0].Detokenize? && m == UserReply(ms[0].uid, ms[0].token, ms[0].finished)) || m in UserReplies(ms[1..])
  {
    assert ms == [ms[0]] + ms[1..];
  }

  // ---- the worker's turn

  function Flat<T>(units: seq<seq<T>>): seq<T> {
    if units == [] then [] else units[0] + Flat(units[1..])
  }

  lemma {:induction false} FlatSnoc<T>(units: seq<seq<T>>, k: nat)
    requires k < |units|
    ensures Flat(units[..k + 1]) == Flat(units[..k]) + units[k]
    decreases k
  {
    if k == 0 {
      assert units[..1] == [units[0]] && units[..1][1..] == [] && units[..0] == [];
    } else {
      FlatSnoc(units[1..], k - 1);
      assert units[..k + 1][1..] == units[1..][..k] && units[..k][1..] == units[1..][..k - 1];
    }
  }

  /** Takes the first unit off the queue, and more while the batch is short and the queue holds any. */
  method Collect(inbox: seq<seq<TokMsg>>, localBs: nat) returns (pending: seq<TokMsg>, k: nat)
    requires inbox != []
    ensures 1 <= k <= |inbox| && pending == Flat(inbox[..k])
    ensures k == |inbox| || |pending| >= localBs
    ensures forall j {:trigger inbox[..j]} | 1 <= j < k :: |Flat(inbox[..j])| < localBs
  {
    FlatSnoc(inbox, 0);
    pending, k := inbox[0], 1;
    assert Flat(inbox[..0]) == [];
    while |pending| < localBs && k < |inbox|
      invariant 1 <= k <= |inbox| && pending == Flat(inbox[..k])
      invariant forall j {:trigger inbox[..j]} | 1 <= j < k :: |Flat(inbox[..j])| < localBs
    {
      FlatSnoc(inbox, k);
      pending, k := pending + inbox[k], k + 1;
    }
  }

  /** Partitions a batch and forwards each part that is not empty as one unit. */
  method Dispatch(pending: seq<TokMsg>) returns (front: seq<seq<FrontMsg>>, back: seq<seq<Msg>>)
    ensures Flat(front) == ToFront(pending) && Flat(back) == ToBack(pending)
    ensures (forall unit | unit in front :: unit != []) && (forall unit | unit in back :: unit != [])
  {
    front, back := [], [];
    var replies, users, aborts, acks := UserReplies(pending), Users(pending), AbortMsgs(pending), AbortAcks(pending);
    if |replies| > 0 {
      front := front + [replies];
    }
    if |users| > 0 {
      back := back + [users];
    }
    if |aborts| > 0 {
      back := back + [aborts];
    }
    if |acks| > 0 {
      front := front + [acks];
    }
    TwoUnits(replies, acks);
    TwoUnits(users, aborts);
  }

  lemma {:induction false} TwoUnits<T>(a: seq<T>, b: seq<T>)
    ensures Flat<T>([]) == [] && Flat([a]) == a && Flat([b]) == b && Flat([a, b]) == a + b
    ensures a == [] ==> a + b == b
    ensures b == [] ==> a + b == a
  {
    assert [a, b][1..] == [b] && [b][1..] == [] && [a][1..] == [];
  }
}
