/** What the overlap loop replies to one request: a tick sends exactly one token for each request in flight that is past
its prefill and not aborted, and after the token marked as the last one at most one more, in the very next tick. */
module OverlapReplies {
  import Sums
  import opened Requests
  import opened SchedSpec
  import opened SchedAdmit
  import opened SchedPost
  import opened SchedEntries
  import opened Overlap
  import opened OverlapRun

  // ---- one tick

  lemma {:induction false} EntrySays(cfg: Config, p: Post, prefill: bool, e: Entry, token: int, u: int)
    ensures var p' := ProcessEntry(cfg, p, prefill, e, token);
            && p'.s.deferred == p.s.deferred
            && |Said(p'.replies, u)| == |Said(p.replies, u)| + (if e.uid == u && !e.chunked
              && u !in p.s.deferred then 1 else 0)
  {
    hide HandOver, IsFinished, Said;
    if !e.chunked && e.uid !in p.s.deferred {
      var r := Detok(e.uid, token, IsFinished(cfg, Get(p.s.reqs, e.uid).AppendHost(token), token));
      SaidConcat(p.replies, [r], u);
      SaidOne(r, u);
    }
  }

  lemma {:induction false} EntriesSay(cfg: Config, p: Post, prefill: bool, es: seq<Entry>, tokens: seq<int>, u: int)
    requires |tokens| == |es| && DistinctEntries(es)
    ensures |Said(ProcessEntries(cfg, p, prefill, es, tokens).replies, u)|
         == |Said(p.replies, u)| + (if u in Waiting(es) && u !in p.s.deferred then 1 else 0)
    decreases |es|
  {
    hide ProcessEntry, Waiting, Said, Uids;
    if es == [] {
      NoWaiting();
    } else {
      assert es == [es[0]] + es[1..];
      WaitingCons(es[0], es[1..]);
      WaitingUids(es[1..]);
      DistinctRest(es);
      EntrySays(cfg, p, prefill, es[0], tokens[0], u);
      EntriesSay(cfg, ProcessEntry(cfg, p, prefill, es[0], tokens[0]), prefill, es[1..], tokens[1..], u);
    }
  }

  lemma {:induction false} DeferredNow(s: Sched, last: Option<Flight>, i: Input, g: Stages, u: int)
    requires FInv(s, last) && StagesOk(s, last, i, g) && u in Waiting(LastEntries(last))
    ensures u in g.launched.deferred <==> u in Aborts(i.msgs)
  {
    WaitingUids(LastEntries(last));
    hide Aborts, Uids, Ctrl, Released, Waiting, PendingUids, AbortCount, Sums.Count, DistinctEntries, DistinctUids,
      Processed, Applied;
  }

  /** How many tokens of `u` a tick sends: one if `u` is in the batch in flight, past prefill, and none of the tick's
  aborts names it - whether `u` was finished before or not - and none otherwise. */
  lemma {:induction false} SentExactly(cfg: Config, s: Sched, last: Option<Flight>, i: Input, u: int)
    requires FInv(s, last) && OFresh(cfg, s, last, i.msgs)
    ensures |Said(OverlapTick(cfg, s, last, i).2, u)|
         == if u in Waiting(LastEntries(last)) && u !in Aborts(i.msgs) then 1 else 0
  {
    hide Aborts, Uids, StagesOk, OverlapTick, Ctrl, OFresh, DistinctEntries, PlainIdle, Waiting, Said, ProcessMsgs,
      Launch, ProcessEntries, ApplyEntries;
    StagesShape(s, last);
    TickStages(cfg, s, last, i);
    TickIs(cfg, s, last, i);
    var g := StagesOf(cfg, s, last, i);
    SaidConcat(g.post.replies, AckReplies(g.applied.acks), u);
    NothingSaid(g.applied.acks, u);
    NoneSaid(u);
    NoWaiting();
    if last.Some? {
      EntriesSay(cfg, Post(g.launched, [], {}), last.value.batch.prefill, last.value.batch.entries, last.value.tokens,
        u);
      if u in Waiting(LastEntries(last)) {
        DeferredNow(s, last, i, g, u);
      }
    }
  }

  lemma {:induction false} Unsaid(rs: seq<Reply>, u: int)
    requires forall r {:trigger r in rs} | r in rs && r.Detok? :: r.uid != u
    ensures Said(rs, u) == []
    decreases |rs|
  {
    if rs != [] {
      assert rs[0] in rs && forall r | r in rs[1..] :: r in rs;
      Unsaid(rs[1..], u);
    }
  }

  // ---- after the last token

  /** A reply marks the request as finished. */
  ghost predicate Marked(rs: seq<Reply>, u: int) {
    exists r {:trigger r in rs} :: r in rs && r.Detok? && r.uid == u && r.finished
  }

  /** What is finished was admitted and is neither queued nor running. */
  ghost predicate DoneGone(s: Sched) {
    forall u {:trigger u in s.finished} | u in s.finished :: u in s.reqs && Gone(s, u)
  }

  lemma {:induction false} EntryMarks(cfg: Config, p: Post, prefill: bool, e: Entry, token: int, u: int)
    ensures var p' := ProcessEntry(cfg, p, prefill, e, token);
            && p'.s.finished == p.s.finished && p.finished <= p'.finished
            && (Marked(p'.replies, u) ==> Marked(p.replies, u) || u in p.s.finished || u in p'.finished)
  {
    hide HandOver, IsFinished;
  }

  lemma {:induction false} EntriesMark(cfg: Config, p: Post, prefill: bool, es: seq<Entry>, tokens: seq<int>, u: int)
    requires |tokens| == |es|
    ensures var p' := ProcessEntries(cfg, p, prefill, es, tokens);
            && p.finished <= p'.finished
            && (Marked(p'.replies, u) ==> Marked(p.replies, u) || u in p.s.finished || u in p'.finished)
    decreases |es|
  {
    hide ProcessEntry, Marked;
    if es != [] {
      EntryMarks(cfg, p, prefill, es[0], tokens[0], u);
      EntriesMark(cfg, ProcessEntry(cfg, p, prefill, es[0], tokens[0]), prefill, es[1..], tokens[1..], u);
    }
  }

  /** A request that was admitted and is gone stays gone, and is left out of the batch of the tick. */
  lemma {:induction false} GoneKeeps(s: Sched, last: Option<Flight>, i: Input, g: Stages, u: int)
    requires FInv(s, last) && StagesOk(s, last, i, g) && u in s.reqs && Gone(s, u)
    ensures Gone(g.applied, u) && u !in LastUids(g.flight) && u in g.applied.reqs
  {
    assert Gone(g.heard, u) by {
      hide Launched, Processed, Applied, Ctrl, Aborts, Uids, PendingUids, DistinctEntries, DistinctUids, Sums.Count;
    }
    hide StagesOk, FInv, Uids, PendingUids;
    GoneStays(s, last, i, g, u);
    StagesKeys(s, last, i, g);
  }

  /** What the tick itself finishes is gone at its end. */
  lemma {:induction false} FinishedGone(s: Sched, last: Option<Flight>, i: Input, g: Stages, u: int)
    requires FInv(s, last) && StagesOk(s, last, i, g) && last.Some? && u in g.post.finished
    ensures Gone(g.applied, u) && u in g.applied.reqs
  {
    WaitingUids(LastEntries(last));
    hide Aborts, Ctrl, Released, AbortCount, Sums.Count, DistinctUids;
    assert u in g.post.finished - {};
    var k := WaitingOf(LastEntries(last), u);
    assert LastEntries(last)[k].uid !in PendingUids(s.pending);
  }

  lemma {:induction false} DoneKeeps(cfg: Config, s: Sched, last: Option<Flight>, i: Input)
    requires FInv(s, last) && OFresh(cfg, s, last, i.msgs) && DoneGone(s)
    ensures DoneGone(OverlapTick(cfg, s, last, i).0)
  {
    hide FInv, Uids, OverlapTick, StagesOf, StagesOk, OFresh, Gone;
    StagesShape(s, last);
    TickStages(cfg, s, last, i);
    TickIs(cfg, s, last, i);
    var g := StagesOf(cfg, s, last, i);
    forall u | u in g.applied.finished
      ensures u in g.applied.reqs && Gone(g.applied, u)
    {
      StagesKeys(s, last, i, g);
      if last.Some? {
        FinishedGone(s, last, i, g, u);
      } else {
        FinishedStays(s, last, i, g);
        GoneKeeps(s, last, i, g, u);
      }
    }
    forall u | u in g.applied.finished
      ensures Gone(g.applied.(deferred := {}, acks := [], inflight := {}), u)
    {
      GoneFrame(g.applied, g.applied.(deferred := {}, acks := [], inflight := {}), u);
    }
  }

  lemma {:induction false} GoneFrame(s: Sched, s': Sched, u: int)
    requires s'.pending == s.pending && s'.running == s.running
    ensures Gone(s', u) <==> Gone(s, u)
  {
  }

  lemma {:induction false} FinishedStays(s: Sched, last: Option<Flight>, i: Input, g: Stages)
    requires FInv(s, last) && StagesOk(s, last, i, g) && last.None?
    ensures g.post.finished == s.finished
  {
    hide Ctrl, Released, Aborts, AbortCount, Sums.Count, PendingUids, DistinctEntries, DistinctUids, Uids;
    NoWaiting();
    assert forall u | u in g.post.finished :: u in g.launched.finished || u in g.post.finished - g.launched.finished;
  }

  /** After a tick that marks `u` as finished, `u` is gone, though it may be in flight once more. */
  lemma {:induction false} MarkedGone(cfg: Config, s: Sched, last: Option<Flight>, i: Input, u: int)
    requires FInv(s, last) && OFresh(cfg, s, last, i.msgs) && DoneGone(s) && Marked(OverlapTick(cfg, s, last, i).2, u)
    ensures var s' := OverlapTick(cfg, s, last, i).0; Gone(s', u) && u in s'.reqs
  {
    hide FInv, Uids, OverlapTick, StagesOk, OFresh, Gone, ProcessMsgs, Launch, ProcessEntries, ApplyEntries;
    StagesShape(s, last);
    TickStages(cfg, s, last, i);
    TickIs(cfg, s, last, i);
    var g := StagesOf(cfg, s, last, i);
    AckRepliesAre(g.applied.acks);
    assert Marked(g.post.replies, u);
    EntriesMark(cfg, Post(g.launched, [], {}), last.value.batch.prefill, last.value.batch.entries, last.value.tokens,
      u);
    FinishedBefore(s, last, i, g);
    if u in s.finished {
      GoneKeeps(s, last, i, g, u);
    } else {
      FinishedGone(s, last, i, g, u);
    }
    GoneFrame(g.applied, g.applied.(deferred := {}, acks := [], inflight := {}), u);
  }

  lemma {:induction false} FinishedBefore(s: Sched, last: Option<Flight>, i: Input, g: Stages)
    requires StagesOk(s, last, i, g)
    ensures g.launched.finished == s.finished
  {
    hide Ctrl, Processed, Applied, Aborts, AbortCount, Sums.Count, PendingUids, DistinctEntries, DistinctUids, Uids;
  }

  /** And from then on it is in no batch that is launched. */
  lemma {:induction false} GoneOn(cfg: Config, s: Sched, last: Option<Flight>, i: Input, u: int)
    requires FInv(s, last) && OFresh(cfg, s, last, i.msgs) && u in s.reqs && Gone(s, u)
    ensures var (s', f, replies) := OverlapTick(cfg, s, last, i); Gone(s', u) && u in s'.reqs && u !in LastUids(f)
  {
    hide FInv, Uids, OverlapTick, StagesOf, StagesOk, OFresh, Gone;
    StagesShape(s, last);
    TickStages(cfg, s, last, i);
    TickIs(cfg, s, last, i);
    var g := StagesOf(cfg, s, last, i);
    GoneKeeps(s, last, i, g, u);
    GoneFrame(g.applied, g.applied.(deferred := {}, acks := [], inflight := {}), u);
  }

  // ---- whole runs

  lemma {:induction false} LoopDone(cfg: Config, ins: seq<Input>)
    requires IsLoop(cfg, ins)
    ensures DoneGone(LoopAfter(cfg, ins).s)
    decreases |ins|
  {
    hide FInv, OverlapTick, OFresh, DoneGone, InitState;
    if ins == [] {
      NothingDone(cfg);
    } else {
      var l := LoopAfter(cfg, ins[..|ins| - 1]);
      LoopDone(cfg, ins[..|ins| - 1]);
      LoopControl(cfg, ins[..|ins| - 1]);
      DoneKeeps(cfg, l.s, l.last, ins[|ins| - 1]);
    }
  }

  lemma {:induction false} NothingDone(cfg: Config)
    ensures DoneGone(InitState(cfg))
  {
    hide Range;
  }

  /** Once a tick of a run marks a request as finished, the request is neither queued nor running nor in a batch
  launched later; the next tick sends one more token for it exactly when it is in flight again and not aborted by then,
  and no later tick sends any. */
  lemma {:induction false} AfterFinish(cfg: Config, ins: seq<Input>, i: Input, more: seq<Input>, u: int)
    requires IsLoop(cfg, ins + [i] + more) && Marked(LoopAfter(cfg, ins + [i]).replies, u) && more != []
    ensures var l := LoopAfter(cfg, ins + [i] + more);
            && Gone(l.s, u) && u in l.s.reqs && u !in LastUids(l.last)
            && (|more| == 1 ==>
                  |Said(l.replies, u)|
                  == if u in Waiting(LastEntries(LoopAfter(cfg, ins + [i]).last))
                    && u !in Aborts(more[0].msgs) then 1 else 0)
            && (|more| > 1 ==> Said(l.replies, u) == [])
    decreases |more|
  {
    hide FInv, OverlapTick, OFresh, Gone, Uids, Said, Waiting, Marked, LoopAfter, IsLoop, Aborts;
    var front, x := more[..|more| - 1], more[|more| - 1];
    var was := ins + [i] + front;
    assert ins + [i] + more == was + [x];
    LoopStep(cfg, was, x);
    LoopControl(cfg, was);
    var l := LoopAfter(cfg, was);
    SentExactly(cfg, l.s, l.last, x, u);
    if front == [] {
      assert was == ins + [i];
      LoopStep(cfg, ins, i);
      LoopControl(cfg, ins);
      LoopDone(cfg, ins);
      MarkedGone(cfg, LoopAfter(cfg, ins).s, LoopAfter(cfg, ins).last, i, u);
    } else {
      AfterFinish(cfg, ins, i, front, u);
      WaitingUids(LastEntries(l.last));
    }
    GoneOn(cfg, l.s, l.last, x, u);
  }
}
