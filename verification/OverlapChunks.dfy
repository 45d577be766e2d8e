/** Chunked prefill under the overlap loop: the chunks of a request tile its prompt as they do in the normal loop,
although each batch is scheduled while the tokens of the one before are still to be appended. */
module OverlapChunks {
  import Sums
  import opened Requests
  import opened SchedSpec
  import opened SchedInv
  import opened SchedAdmit
  import opened SchedBatch
  import opened SchedForward
  import opened SchedPost
  import opened SchedRun
  import opened SchedSound
  import opened SchedChunks
  import opened Overlap
  import opened OverlapRun
  import opened OverlapLag
  import opened OverlapOwn
  import opened OverlapPages
  import opened OverlapSound

  // ---- catching up

  lemma {:induction false} CaughtTiled(s: Sched, lag: map<int, int>, l: seq<Span>, u: int, ids: seq<int>, start: nat)
    ensures Tiled(Caught(s, lag), l, u, ids, start) <==> Tiled(s, l, u, ids, start)
  {
    hide Later, ChunkUids, Queued, Tiled;
    var t := Caught(s, lag);
    LaterGet(s.reqs, lag, u);
    if Tiled(s, l, u, ids, start) {
      TiledQueued(s, l, u, ids, start);
      TiledSame(s, t, l, u, ids, start);
    }
    if Tiled(t, l, u, ids, start) {
      TiledQueued(t, l, u, ids, start);
      TiledSame(t, s, l, u, ids, start);
    }
  }

  lemma {:induction false} CaughtSpan(cfg: Config, s: Sched, lag: map<int, int>, u: int)
    requires Unqueued(s.pending, lag)
    ensures BatchSpan(cfg, Caught(s, lag), u) == BatchSpan(cfg, s, u)
  {
    hide Later, Schedule, Uids, Unqueued;
    ScheduleSame(cfg, s, lag);
    LaterGet(Schedule(cfg, s).0.reqs, lag, u);
  }

  /** Shape of a prefill batch: queue order, budget and the one prompt that may be cut, stated on the state with the
  lagging tokens appended. */
  lemma {:induction false} LoopPrefillShape(cfg: Config, ins: seq<Input>, i: Input)
    requires IsServed(cfg, ins + [i]) && Timely(cfg, ins)
    requires var l := LoopAfter(cfg, ins);
             var b := Schedule(cfg, ProcessMsgs(cfg, l.s.(inflight := LastUids(l.last)), i.msgs)).1;
             b.Some? && b.value.prefill
    ensures var l := LoopAfter(cfg, ins);
            var s := ProcessMsgs(cfg, l.s.(inflight := LastUids(l.last)), i.msgs);
            var (s1, b) := Schedule(cfg, s);
            var t1, es := Caught(s1, LagOf(LastEntries(l.last), OverlapOwn.Tokens(l.last), s.deferred)),
                b.value.entries;
            && 0 < |es| <= |s.pending|
            && (forall k {:trigger es[k]} | 0 <= k < |es| :: Taken(t1, s.pending[k], es[k]))
            && (forall k {:trigger es[k]} | 0 <= k < |es| - 1 :: !es[k].chunked)
            && SchedChunks.Tokens(t1, es) <= cfg.budget
            && (es[|es| - 1].chunked ==> SchedChunks.Tokens(t1, es) == cfg.budget)
            && s1.pending == (if es[|es| - 1].chunked then [s.pending[|es| - 1].(chunk := true)] else [])
                             + s.pending[|es|..]
  {
    hide OwnInv, Hearing, FInv, Ctrl, Timely, LoopAfter, Schedule, ProcessMsgs, OFresh, Uids, StagesOf, IsServed,
      DistinctEntries, LInv, Aside, Later, LagOf, Unqueued, Taken, SchedChunks.Tokens;
    var l := LoopAfter(cfg, ins);
    TickFits(cfg, ins, i);
    FlightShape(l.s, l.last);
    StagesShape(l.s, l.last);
    var s := StagesOf(cfg, l.s, l.last, i).heard;
    FitsFresh(cfg, l.s, l.last, i);
    HeardReady(cfg, l.s, l.last, i);
    var lag := LagOf(LastEntries(l.last), OverlapOwn.Tokens(l.last), s.deferred);
    HeardCaught(cfg, s, LastEntries(l.last), OverlapOwn.Tokens(l.last), IsPrefill(l.last));
    ScheduleSame(cfg, s, lag);
    PrefillShape(cfg, Caught(s, lag), OverlapOwn.Idle(Caught(s, lag)));
  }

  // ---- a tick

  lemma {:induction false} LoopMsgsTiled(cfg: Config, s: Sched, msgs: seq<Msg>, l: seq<Span>, u: int, ids: seq<int>,
                                         start: nat)
    requires Ctrl(s) && AllFresh(cfg, s, msgs) && Tiled(s, l, u, ids, start)
    ensures Tiled(ProcessMsgs(cfg, s, msgs), l, u, PromptAfterAll(cfg, ids, msgs, u), start)
    decreases |msgs|
  {
    hide Ctrl, Fresh, ProcessMsg, Tiled, PromptAfter;
    if msgs != [] {
      OneCtrl(cfg, s, msgs[0]);
      CtrlDistinct(s);
      MsgTiled(cfg, s, msgs[0], l, u, ids, start);
      LoopMsgsTiled(cfg, ProcessMsg(cfg, s, msgs[0]), msgs[1..], l, u, PromptAfter(cfg, ids, msgs[0], u), start);
    }
  }

  lemma {:induction false} CtrlDistinct(s: Sched)
    requires Ctrl(s)
    ensures DistinctUids(s.pending)
  {
    hide DistinctUids;
  }

  lemma {:induction false} LaunchTiled(cfg: Config, t: Sched, i: Input, l: seq<Span>, u: int, ids: seq<int>, start: nat,
                                       others: set<int>)
    requires LInv(cfg, t, t.pending, others) && Aside(t, others) && CanLaunch(cfg, t, i) && Tiled(t, l, u, ids, start)
    ensures Tiled(Launch(cfg, t, i).0, l + BatchSpan(cfg, t, u), u, ids, StartAfter(cfg, t, start, ids, u))
  {
    hide LInv, Aside, Schedule, Prepare, Forward, CanPrepare, Planned, RInv, Forwarded, Tiled, Uids, StartAfter;
    ScheduleLive(cfg, t, others);
    var (t1, b) := Schedule(cfg, t);
    if b.None? {
      assert l + [] == l;
      TiledStart(cfg, t, l, u, ids, start);
    } else {
      var tokens := TokensFor(b.value, i.tokens);
      ForwardIs(cfg, t1, b.value, i.ev, tokens, others);
      ForwardKeys(cfg, t1, b.value, i.ev, tokens, others);
      BatchTiled(cfg, t, Forward(cfg, Prepare(cfg, t1, b.value, i.ev), b.value, tokens), l, u, ids, start, others);
    }
  }

  lemma {:induction false} HeardTiled(cfg: Config, s: Sched, es: seq<Entry>, tokens: seq<int>, prefill: bool, i: Input,
                                      l: seq<Span>, u: int, ids: seq<int>, start: nat)
    requires Hearing(cfg, s, es, prefill) && Ctrl(s) && DistinctEntries(es) && |tokens| == |es| && CanLaunch(cfg, s, i)
    requires Tiled(s, l, u, ids, start)
    ensures Tiled(Launch(cfg, s, i).0, l + BatchSpan(cfg, s, u), u, ids, StartAfter(cfg, s, start, ids, u))
  {
    hide Hearing, Launch, LInv, Later, LagOf, Ctrl, CanLaunch, DistinctEntries, Aside, Unqueued, Tiled, BatchSpan,
      StartAfter;
    var lag := LagOf(es, tokens, s.deferred);
    var t, s2 := Caught(s, lag), Launch(cfg, s, i).0;
    HeardCaught(cfg, s, es, tokens, prefill);
    LaunchSame(cfg, s, lag, i);
    CaughtSpan(cfg, s, lag, u);
    CaughtStart(cfg, s, lag, start, ids, u);
    CaughtTiled(s, lag, l, u, ids, start);
    LaunchTiled(cfg, t, i, l, u, ids, start, OverlapOwn.Idle(t));
    CaughtTiled(s2, lag, l + BatchSpan(cfg, s, u), u, ids, StartAfter(cfg, s, start, ids, u));
  }

  lemma {:induction false} CaughtStart(cfg: Config, s: Sched, lag: map<int, int>, start: nat, ids: seq<int>, u: int)
    ensures StartAfter(cfg, Caught(s, lag), start, ids, u) == StartAfter(cfg, s, start, ids, u)
  {
    LaterGet(s.reqs, lag, u);
  }

  /** Post-processing and the release of aborted requests move no chunk. */
  lemma {:induction false} TailTiled(cfg: Config, s: Sched, last: Option<Flight>, i: Input, l: seq<Span>, u: int,
                                     ids: seq<int>, start: nat)
    requires FInv(s, last) && OFresh(cfg, s, last, i.msgs)
    requires Tiled(StagesOf(cfg, s, last, i).launched, l, u, ids, start)
    ensures Tiled(OverlapTick(cfg, s, last, i).0, l, u, ids, start)
  {
    hide FInv, OverlapTick, StagesOk, OFresh, ProcessMsgs, Launch, ProcessEntries, ApplyEntries, Tiled, Uids,
      DistinctEntries, DistinctUids;
    FlightShape(s, last);
    StagesShape(s, last);
    TickStages(cfg, s, last, i);
    TickIs(cfg, s, last, i);
    StagesApply(cfg, s, last, i);
    var g := StagesOf(cfg, s, last, i);
    StagesKeys(s, last, i, g);
    if last.Some? {
      forall k | 0 <= k < |last.value.batch.entries|
        ensures last.value.batch.entries[k].uid in g.launched.reqs
      {
        InUids(last.value.batch.entries, k);
      }
      EntriesTiled(cfg, Post(g.launched, [], {}), last.value.batch.prefill, last.value.batch.entries, last.value.tokens,
                   l, u, ids, start);
    }
    ApplyIs(cfg, g.post.s.(finished := g.post.finished), LastEntries(last), {});
    AppliedTiled(g.post.s, g.applied, LastEntries(last), l, u, ids, start, g.post.finished);
  }

  lemma {:induction false} AppliedTiled(s: Sched, s': Sched, es: seq<Entry>, l: seq<Span>, u: int, ids: seq<int>,
                                        start: nat, done: set<int>)
    requires Applied(s.(finished := done), s', es, {}) && Tiled(s, l, u, ids, start)
    ensures Tiled(s'.(deferred := {}, acks := [], inflight := {}), l, u, ids, start)
  {
    hide Uids, Sums.Count, Tiled, ChunkUids, Queued;
    TiledQueued(s, l, u, ids, start);
    TiledSame(s, s'.(deferred := {}, acks := [], inflight := {}), l, u, ids, start);
  }

  /** The stretch of `u`'s prompt that a tick of the overlap loop computes, if any. */
  ghost function LoopSpan(cfg: Config, l: Loop, i: Input, u: int): seq<Span> {
    TickSpan(cfg, l.s.(inflight := LastUids(l.last)), i, u)
  }

  lemma {:induction false} LoopTickTiled(cfg: Config, s: Sched, last: Option<Flight>, i: Input, l: seq<Span>, u: int,
                                         ids: seq<int>, start: nat)
    requires FInv(s, last) && OwnInv(cfg, s, last) && Fits(cfg, s, last, i) && Tiled(s, l, u, ids, start)
    ensures var s0, ids' := s.(inflight := LastUids(last)), PromptAfterAll(cfg, ids, i.msgs, u);
            Tiled(OverlapTick(cfg, s, last, i).0, l + TickSpan(cfg, s0, i, u), u, ids',
                  StartAfter(cfg, ProcessMsgs(cfg, s0, i.msgs), start, ids', u))
  {
    hide FInv, OwnInv, Hearing, CanLaunch, OverlapTick, OFresh, ProcessMsgs, Launch, ProcessEntries, ApplyEntries,
      Tiled, Uids, DistinctEntries, DistinctUids, Ctrl, StartAfter, PromptAfterAll, BatchSpan;
    var s0, ids' := s.(inflight := LastUids(last)), PromptAfterAll(cfg, ids, i.msgs, u);
    FlightShape(s, last);
    StagesShape(s, last);
    WithInflight(s, last);
    HeardOf(cfg, s, last, i);
    HeardReady(cfg, s, last, i);
    var g := StagesOf(cfg, s, last, i);
    InflightTiled(s, s0, l, u, ids, start);
    MsgsFresh(cfg, s, last, i);
    LoopMsgsTiled(cfg, s0, i.msgs, l, u, ids, start);
    HeardTiled(cfg, g.heard, LastEntries(last), OverlapOwn.Tokens(last), IsPrefill(last), i, l, u, ids', start);
    TailTiled(cfg, s, last, i, l + BatchSpan(cfg, g.heard, u), u, ids', StartAfter(cfg, g.heard, start, ids', u));
  }

  lemma {:induction false} MsgsFresh(cfg: Config, s: Sched, last: Option<Flight>, i: Input)
    requires OFresh(cfg, s, last, i.msgs)
    ensures AllFresh(cfg, s.(inflight := LastUids(last)), i.msgs)
  {
    hide AllFresh;
  }

  lemma {:induction false} InflightTiled(s: Sched, s0: Sched, l: seq<Span>, u: int, ids: seq<int>, start: nat)
    requires Tiled(s, l, u, ids, start) && s0 == s.(inflight := s0.inflight)
    ensures Tiled(s0, l, u, ids, start)
  {
    hide ChunkUids, Queued;
  }

  // ---- whole runs

  /** All stretches of `u`'s prompt computed in a run of the overlap loop, in order. */
  ghost function LoopSpans(cfg: Config, ins: seq<Input>, u: int): seq<Span>
    decreases |ins|
  {
    if ins == [] then []
    else LoopSpans(cfg, ins[..|ins| - 1], u) + LoopSpan(cfg, LoopAfter(cfg, ins[..|ins| - 1]), ins[|ins| - 1], u)
  }

  /** The matched length of `u` at the tick that admitted it. */
  ghost function LoopMatched(cfg: Config, ins: seq<Input>, u: int): nat
    decreases |ins|
  {
    if ins == [] then 0
    else
      var was, i := ins[..|ins| - 1], ins[|ins| - 1];
      var l := LoopAfter(cfg, was);
      StartAfter(cfg, ProcessMsgs(cfg, l.s.(inflight := LastUids(l.last)), i.msgs), LoopMatched(cfg, was, u),
                 PromptOf(cfg, ins, u), u)
  }

  /** Under overlap too the stretches of a request's prompt lie end to end, begin where the prefix matched at its
  admission ends, and end exactly at the end of the submitted prompt once the request is past prefill. */
  lemma {:induction false} LoopChunksTile(cfg: Config, ins: seq<Input>, u: int)
    requires IsServed(cfg, ins) && Timely(cfg, ins)
    ensures Tiled(LoopAfter(cfg, ins).s, LoopSpans(cfg, ins, u), u, PromptOf(cfg, ins, u), LoopMatched(cfg, ins, u))
    decreases |ins|
  {
    hide FInv, OwnInv, OverlapTick, Fits, LateAbort, StagesOf, InitState, Tiled, TickSpan, StartAfter, PromptAfterAll,
      ProcessMsgs, Uids, IsServed;
    if ins == [] {
      InitTiled(cfg, u);
    } else {
      var was, i := ins[..|ins| - 1], ins[|ins| - 1];
      var l := LoopAfter(cfg, was);
      assert was + [i] == ins;
      TickFits(cfg, was, i);
      LoopChunksTile(cfg, was, u);
      LoopTickTiled(cfg, l.s, l.last, i, LoopSpans(cfg, was, u), u, PromptOf(cfg, was, u), LoopMatched(cfg, was, u));
    }
  }

  /** And every prompt position behind the matched prefix is computed in exactly one batch. */
  lemma {:induction false} LoopComputesOnce(cfg: Config, ins: seq<Input>, u: int, x: int)
    requires IsServed(cfg, ins) && Timely(cfg, ins)
    requires u in LoopAfter(cfg, ins).s.reqs && !LoopAfter(cfg, ins).s.reqs[u].chunked
    ensures var l := LoopSpans(cfg, ins, u);
            && (LoopMatched(cfg, ins, u) <= x < |PromptOf(cfg, ins, u)| <==> exists k :: ComputedIn(l, k, x))
            && (forall j, k :: ComputedIn(l, j, x) && ComputedIn(l, k, x) ==> j == k)
            && LoopMatched(cfg, ins, u) < |PromptOf(cfg, ins, u)|
  {
    hide IsServed, Timely, LoopAfter, LoopSpans, PromptOf, LoopMatched, Contiguous, Queued, ChunkUids, ComputedIn;
    LoopChunksTile(cfg, ins, u);
    EndToEnd(LoopSpans(cfg, ins, u), x);
  }
}
