/** Every abort completes under every fair schedule: whatever else the endless run does, an abort that is pending gets
its acknowledgement as long as no queue with something in it is left unserved for ever. */
module AbortFair {
  import opened Requests
  import opened SchedSpec
  import opened SchedRun
  import opened Overlap
  import opened OverlapRun
  import opened Arrivals
  import opened Tokenizer
  import opened Frontend
  import opened AbortChain

  /** The state of an endless run before its step `t`. */
  ghost function At(cfg: Config, c: Chain, run: nat -> Step, t: nat): Chain
    decreases t
  {
    if t == 0 then c else Do(cfg, At(cfg, c, run, t - 1), run(t - 1))
  }

  lemma {:induction false} AtKeeps(cfg: Config, c: Chain, run: nat -> Step, t: nat)
    requires CInv(c)
    ensures CInv(At(cfg, c, run, t))
    decreases t
  {
    hide CInv, Do;
    if t > 0 {
      AtKeeps(cfg, c, run, t - 1);
      DoKeeps(cfg, At(cfg, c, run, t - 1), run(t - 1));
    }
  }

  // ---- fairness

  /** What the system waits for: a coroutine of the API server that has an abort of `u` to put on a queue, a worker, the
  scheduler or the listener of the API server. */
  datatype Line = Sender(u: int) | Worker(w: nat) | Scheduler | Listener

  ghost predicate Waits(c: Chain, line: Line) {
    match line
    case Sender(u) => u in c.sending
    case Worker(w) => w < |c.boxes| && c.boxes[w] != []
    case Scheduler => c.back != []
    case Listener => c.toFront != []
  }

  /** The step takes something off the line: any number of messages, but at least one. */
  ghost predicate Serves(c: Chain, st: Step, line: Line) {
    && Enabled(c, st)
    && match line
       case Sender(u) => st.SendAbort? && c.sending[st.k] == u
       case Worker(w) => st.Work? && st.w == w
       case Scheduler => st.Tick? && st.n > 0
       case Listener => st.Hear?
  }

  /** No line that waits is left unserved for ever. */
  ghost predicate Fair(cfg: Config, c: Chain, run: nat -> Step) {
    forall t: nat, line | Waits(At(cfg, c, run, t), line) :: ServedFrom(cfg, c, run, t, line)
  }

  ghost predicate ServedFrom(cfg: Config, c: Chain, run: nat -> Step, t: nat, line: Line) {
    exists d: nat :: t <= d && Serves(At(cfg, c, run, d), run(d), line)
  }

  // ---- where an abort is, and how far it has to go

  datatype Place = Unsent | AtWorker(w: nat, pos: nat, ack: bool) | ToScheduler(pos: nat) | ToServer(pos: nat)

  ghost predicate IsAt(c: Chain, u: int, pl: Place) {
    match pl
    case Unsent => u in c.sending
    case AtWorker(w, pos, ack) =>
      w < |c.boxes| && pos < |c.boxes[w]| && c.boxes[w][pos] == if ack then Ack(u) else Abort(u)
    case ToScheduler(pos) => pos < |c.back| && c.back[pos] == AbortMsg(u)
    case ToServer(pos) => pos < |c.toFront| && c.toFront[pos] == AbortAckReply(u)
  }

  ghost function LineOf(u: int, pl: Place): Line {
    match pl
    case Unsent => Sender(u)
    case AtWorker(w, pos, ack) => Worker(w)
    case ToScheduler(pos) => Scheduler
    case ToServer(pos) => Listener
  }

  ghost function Stage(pl: Place): nat {
    match pl
    case Unsent => 4
    case AtWorker(w, pos, ack) => if ack then 1 else 3
    case ToScheduler(pos) => 2
    case ToServer(pos) => 0
  }

  ghost function Ahead(pl: Place): nat {
    if pl.Unsent? then 0 else pl.pos
  }

  ghost predicate Nearer(pl': Place, pl: Place) {
    Stage(pl') < Stage(pl) || (Stage(pl') == Stage(pl) && Ahead(pl') < Ahead(pl))
  }

  /** The abort stays where it is or gets nearer, and gets nearer when its line is served. */
  ghost predicate Advances(c: Chain, st: Step, c': Chain, u: int, pl: Place, pl': Place) {
    IsAt(c', u, pl') && (Nearer(pl', pl) || (pl' == pl && !Serves(c, st, LineOf(u, pl))))
  }

  ghost predicate MovesOn(c: Chain, st: Step, c': Chain, u: int, pl: Place) {
    exists pl' :: Advances(c, st, c', u, pl, pl')
  }

  lemma {:induction false} PlaceOf(c: Chain, u: int) returns (pl: Place)
    requires Travelling(c, u)
    ensures IsAt(c, u, pl)
  {
    if u in c.sending {
      pl := Unsent;
    } else if AbortMsg(u) in c.back {
      var k :| 0 <= k < |c.back| && c.back[k] == AbortMsg(u);
      pl := ToScheduler(k);
    } else if AbortAckReply(u) in c.toFront {
      var k :| 0 <= k < |c.toFront| && c.toFront[k] == AbortAckReply(u);
      pl := ToServer(k);
    } else {
      var w :| 0 <= w < |c.boxes| && InBox(c.boxes[w], u);
      var m := if Abort(u) in c.boxes[w] then Abort(u) else Ack(u);
      var k :| 0 <= k < |c.boxes[w]| && c.boxes[w][k] == m;
      pl := AtWorker(w, k, m.Ack?);
    }
  }

  // ---- one lemma a place

  lemma {:induction false} UnsentMoves(cfg: Config, c: Chain, st: Step, u: int)
    requires IsAt(c, u, Unsent)
    ensures MovesOn(c, st, Do(cfg, c, st), u, Unsent)
  {
    hide OverlapTick, ToBack, ToFront, FromScheduler;
    var c' := Do(cfg, c, st);
    if Enabled(c, st) && st.SendAbort? {
      Remaining(c.sending, st.k, u);
      if c.sending[st.k] == u {
        var pl' := AtWorker(st.w, |c.boxes[st.w]|, false);
        assert Advances(c, st, c', u, Unsent, pl');
      } else {
        assert Advances(c, st, c', u, Unsent, Unsent);
      }
    } else {
      assert Advances(c, st, c', u, Unsent, Unsent);
    }
  }

  /** Steps other than a batch of its worker leave a message where it is in its box. */
  lemma {:induction false} WorkerKeeps(cfg: Config, c: Chain, st: Step, u: int, pl: Place)
    requires pl.AtWorker? && IsAt(c, u, pl) && !Serves(c, st, Worker(pl.w))
    ensures IsAt(Do(cfg, c, st), u, pl)
  {
    hide OverlapTick, ToBack, ToFront, FromScheduler;
  }

  lemma {:induction false} WorkerMoves(cfg: Config, c: Chain, st: Step, u: int, pl: Place)
    requires pl.AtWorker? && IsAt(c, u, pl)
    ensures MovesOn(c, st, Do(cfg, c, st), u, pl)
  {
    hide OverlapTick, ToBack, ToFront, FromScheduler;
    var c' := Do(cfg, c, st);
    if !Serves(c, st, Worker(pl.w)) {
      WorkerKeeps(cfg, c, st, u, pl);
      assert Advances(c, st, c', u, pl, pl);
    } else if st.n <= pl.pos {
      assert Advances(c, st, c', u, pl, pl.(pos := pl.pos - st.n));
    } else {
      var batch := c.boxes[pl.w][..st.n];
      assert batch[pl.pos] == c.boxes[pl.w][pl.pos];
      AbortsForwarded(batch, u);
      if pl.ack {
        var k :| 0 <= k < |ToFront(batch)| && ToFront(batch)[k] == AbortAckReply(u);
        assert Advances(c, st, c', u, pl, ToServer(|c.toFront| + k));
      } else {
        var k :| 0 <= k < |ToBack(batch)| && ToBack(batch)[k] == AbortMsg(u);
        assert Advances(c, st, c', u, pl, ToScheduler(|c.back| + k));
      }
    }
  }

  lemma {:induction false} SchedulerMoves(cfg: Config, c: Chain, st: Step, u: int, pos: nat)
    requires CInv(c) && IsAt(c, u, ToScheduler(pos))
    ensures MovesOn(c, st, Do(cfg, c, st), u, ToScheduler(pos))
  {
    hide OverlapTick, ToBack, ToFront, FromScheduler, FrontOk, HasTokens, Unique, Alive, Silenced, FInv, OFresh;
    var c', pl := Do(cfg, c, st), ToScheduler(pos);
    if !Serves(c, st, Scheduler) {
      assert Advances(c, st, c', u, pl, pl);
    } else if st.n <= pos {
      assert Advances(c, st, c', u, pl, ToScheduler(pos - st.n));
    } else {
      var k := AckPut(cfg, c, st, u, pos);
      assert Advances(c, st, c', u, pl, AtWorker(0, k, true));
    }
  }

  /** A tick that takes the abort puts its acknowledgement on the detokenizer's queue. */
  lemma {:induction false} AckPut(cfg: Config, c: Chain, st: Step, u: int, pos: nat) returns (k: nat)
    requires CInv(c) && IsAt(c, u, ToScheduler(pos)) && Enabled(c, st) && st.Tick? && pos < st.n
    ensures IsAt(Do(cfg, c, st), u, AtWorker(0, k, true))
  {
    hide OverlapTick, ToBack, ToFront, FromScheduler, FrontOk, HasTokens, Unique, Alive, Silenced, FInv, AllFresh,
      Ctrl, Known, ProcessMsgs;
    var i := TickInput(c, st.n, st.ev, st.tokens);
    var replies := OverlapTick(cfg, c.sched, c.last, i).2;
    TickFresh(cfg, c, st.n);
    assert i.msgs[pos] == AbortMsg(u);
    TickAcks(cfg, c.sched, c.last, i, u);
    NoTokenizeBack(replies, u);
    var j :| 0 <= j < |FromScheduler(replies)| && FromScheduler(replies)[j] == Ack(u);
    k := |c.boxes[0]| + j;
  }

  lemma {:induction false} ServerMoves(cfg: Config, c: Chain, st: Step, u: int, pos: nat)
    requires IsAt(c, u, ToServer(pos))
    ensures u !in Do(cfg, c, st).front.pending || MovesOn(c, st, Do(cfg, c, st), u, ToServer(pos))
  {
    hide OverlapTick, ToBack, ToFront, FromScheduler;
    var c', pl := Do(cfg, c, st), ToServer(pos);
    if !Serves(c, st, Listener) {
      assert Advances(c, st, c', u, pl, pl);
    } else if pos > 0 {
      assert Advances(c, st, c', u, pl, ToServer(pos - 1));
    }
  }

  /** Whatever the step: the abort is over, or it moves on. */
  lemma {:induction false} AbortMoves(cfg: Config, c: Chain, st: Step, u: int, pl: Place)
    requires CInv(c) && IsAt(c, u, pl)
    ensures u !in Do(cfg, c, st).front.pending || MovesOn(c, st, Do(cfg, c, st), u, pl)
  {
    hide CInv, Do, MovesOn;
    match pl
    case Unsent => UnsentMoves(cfg, c, st, u);
    case AtWorker(w, pos, ack) => WorkerMoves(cfg, c, st, u, pl);
    case ToScheduler(pos) => SchedulerMoves(cfg, c, st, u, pos);
    case ToServer(pos) => ServerMoves(cfg, c, st, u, pos);
  }

  // ---- every abort completes

  /** An abort at a place whose line is next served at `d` completes: it gets nearer at `d` at the latest. */
  lemma {:induction false} Arrives(cfg: Config, c: Chain, run: nat -> Step, t: nat, u: int, pl: Place, d: nat)
    returns (end: nat)
    requires CInv(c) && Fair(cfg, c, run) && IsAt(At(cfg, c, run, t), u, pl)
    requires t <= d && Serves(At(cfg, c, run, d), run(d), LineOf(u, pl))
    ensures end >= t && u !in At(cfg, c, run, end).front.pending
    decreases Stage(pl), Ahead(pl), d - t
  {
    hide CInv, Do, IsAt, Serves;
    var now, next := At(cfg, c, run, t), At(cfg, c, run, t + 1);
    AtKeeps(cfg, c, run, t);
    AbortMoves(cfg, now, run(t), u, pl);
    if u !in next.front.pending {
      end := t + 1;
    } else {
      var pl' :| Advances(now, run(t), next, u, pl, pl');
      var d' := d;
      if pl' != pl {
        d' := NextService(cfg, c, run, t + 1, u, pl');
      }
      end := Arrives(cfg, c, run, t + 1, u, pl', d');
    }
  }

  lemma {:induction false} NextService(cfg: Config, c: Chain, run: nat -> Step, t: nat, u: int, pl: Place)
    returns (d: nat)
    requires Fair(cfg, c, run) && IsAt(At(cfg, c, run, t), u, pl)
    ensures t <= d && Serves(At(cfg, c, run, d), run(d), LineOf(u, pl))
  {
    hide At, Serves;
    assert Waits(At(cfg, c, run, t), LineOf(u, pl));
    assert ServedFrom(cfg, c, run, t, LineOf(u, pl));
    d :| t <= d && Serves(At(cfg, c, run, d), run(d), LineOf(u, pl));
  }

  /** Under every fair schedule, from the start and for any number of workers: a pending abort does not stay pending. */
  lemma {:induction false} AbortsCompleteFairly(cfg: Config, workers: nat, run: nat -> Step, t: nat, u: int)
    returns (end: nat)
    requires workers > 0 && Fair(cfg, Start(cfg, workers), run)
    ensures end >= t && u !in At(cfg, Start(cfg, workers), run, end).front.pending
  {
    hide Fair, Start, IsAt, Travelling, Serves, SchedOk, HasTokens, Unique, Silenced, FrontOk, At;
    var c := Start(cfg, workers);
    StartKeeps(cfg, workers);
    AtKeeps(cfg, c, run, t);
    if u !in At(cfg, c, run, t).front.pending {
      end := t;
    } else {
      var pl := PlaceOf(At(cfg, c, run, t), u);
      var d := NextService(cfg, c, run, t, u, pl);
      end := Arrives(cfg, c, run, t, u, pl, d);
    }
  }
}
