/** Chunked prefill covers every prompt exactly once: a batch stays within the budget, cuts at most its last prompt and
keeps arrival order, and over a whole run the chunks of a request tile its prompt from the matched prefix to the end. */
module SchedChunks {
  import opened PrefixStore
  import opened CacheSpec
  import opened Requests
  import opened SchedSpec
  import opened SchedInv
  import opened SchedAdmit
  import opened SchedRound
  import opened SchedBatch
  import opened SchedForward
  import opened SchedPost
  import opened SchedRun
  import opened SchedSound
  import opened SchedProgress

  // ---- one prefill batch

  /** What the entry `p` of the queue became: its tokens from where it stood up to `deviceLen`. */
  ghost predicate Taken(s: Sched, p: Pending, e: Entry) {
    var r := Get(s.reqs, e.uid);
    && e.uid == p.uid && r.ids <= p.ids && |r.ids| == r.deviceLen <= |p.ids| && r.cachedLen < r.deviceLen
    && (e.chunked <==> r.deviceLen < |p.ids|)
  }

  /** A prefill batch takes the queue from the front, in order; its chunks together stay within the budget; only its
  last request may be cut, and then the budget is used up and the rest of the prompt heads the queue. */
  lemma {:induction false} PrefillShape(cfg: Config, s: Sched, others: set<int> := {})
    requires LInv(cfg, s, s.pending, others) && Aside(s, others)
    requires Schedule(cfg, s).1.Some? && Schedule(cfg, s).1.value.prefill
    ensures var (s1, b) := Schedule(cfg, s);
            var es := b.value.entries;
            && 0 < |es| <= |s.pending|
            && (forall i {:trigger es[i]} | 0 <= i < |es| :: Taken(s1, s.pending[i], es[i]))
            && (forall i {:trigger es[i]} | 0 <= i < |es| - 1 :: !es[i].chunked)
            && Tokens(s1, es) <= cfg.budget
            && (es[|es| - 1].chunked ==> Tokens(s1, es) == cfg.budget)
            && s1.pending == (if es[|es| - 1].chunked then [s.pending[|es| - 1].(chunk := true)] else [])
                             + s.pending[|es|..]
  {
    hide LInv, Aside, Apart, Kept, AllAdded, AddAll, InflightTokens, LastChunked, NextQueue, Work, Tokens, Taken,
      Sorted;
    PrefillLive(cfg, s, others);
    var a := Adder(cfg.budget, InflightTokens(cfg, s));
    var r := AddAll(cfg, s, a, s.pending);
    var (s1, b) := Schedule(cfg, s);
    EntriesAre(r.added);
    RoundTaken(s, s1, r);
    TokensAreWork(r.s, s1, r.added, s.pending);
    NextQueueIs(s.pending, r.added);
  }

  lemma {:induction false} NextQueueIs(queue: seq<Pending>, added: seq<Req>)
    requires 0 < |added| <= |queue|
    ensures NextQueue(queue, added)
         == (if added[|added| - 1].chunked then [queue[|added| - 1].(chunk := true)] else []) + queue[|added|..]
  {
  }

  /** Tokens the batch computes. */
  ghost function Tokens(s: Sched, es: seq<Entry>): int {
    if es == [] then 0 else Get(s.reqs, es[0].uid).ExtendLen() + Tokens(s, es[1..])
  }

  lemma {:induction false} RoundTaken(s: Sched, s1: Sched, r: Round)
    requires AllAdded(r.s, r.added, s.pending) && LastChunked(r.added) && s1.reqs == r.s.reqs
    ensures var es := EntriesOf(r.added);
            && |es| == |r.added|
            && (forall i {:trigger es[i]} | 0 <= i < |es| :: Taken(s1, s.pending[i], es[i]))
            && (forall i {:trigger es[i]} | 0 <= i < |es| - 1 :: !es[i].chunked)
  {
    hide Uids;
    EntriesAre(r.added);
    var es := EntriesOf(r.added);
    forall i | 0 <= i < |es|
      ensures Taken(s1, s.pending[i], es[i])
    {
      assert AddedFrom(r.s, r.added[i], s.pending[i]);
    }
    forall i | 0 <= i < |es| - 1
      ensures !es[i].chunked
    {
      assert !r.added[i].chunked;
    }
  }

  lemma {:induction false} TokensAreWork(s: Sched, s1: Sched, added: seq<Req>, queue: seq<Pending>)
    requires AllAdded(s, added, queue) && s1.reqs == s.reqs
    ensures Tokens(s1, EntriesOf(added)) == Work(added)
    decreases |added|
  {
    if added != [] {
      AllAddedRest(s, added, queue);
      TokensAreWork(s, s1, added[1..], queue[1..]);
      assert EntriesOf(added)[1..] == EntriesOf(added[1..]);
    }
  }

  // ---- over a whole run

  /** A stretch of token positions computed in one prefill batch. */
  datatype Span = Span(from: nat, to: nat)

  /** The stretch of `u`'s prompt that the batch scheduled next computes, if any. */
  ghost function BatchSpan(cfg: Config, s: Sched, u: int): seq<Span> {
    var (s1, b) := Schedule(cfg, s);
    if b.Some? && b.value.prefill && u in Uids(b.value.entries)
    then [Span(Get(s1.reqs, u).cachedLen, Get(s1.reqs, u).deviceLen)]
    else []
  }

  /** The stretch of `u`'s prompt that a tick computes, if any. */
  ghost function TickSpan(cfg: Config, s: Sched, i: Input, u: int): seq<Span> {
    BatchSpan(cfg, ProcessMsgs(cfg, s, i.msgs), u)
  }

  /** All stretches of `u`'s prompt computed in a run, in order. */
  ghost function Spans(cfg: Config, ins: seq<Input>, u: int): seq<Span>
    decreases |ins|
  {
    if ins == [] then []
    else Spans(cfg, ins[..|ins| - 1], u) + TickSpan(cfg, StateAfter(cfg, ins[..|ins| - 1]), ins[|ins| - 1], u)
  }

  /** Nonempty stretches without gap or overlap. */
  ghost predicate Contiguous(l: seq<Span>) {
    && (forall i {:trigger l[i]} | 0 <= i < |l| :: l[i].from < l[i].to)
    && forall i {:trigger l[i]} | 0 < i < |l| :: l[i - 1].to == l[i].from
  }

  /** Every queue entry of `u` holds this prompt. */
  ghost predicate Queued(ps: seq<Pending>, u: int, ids: seq<int>) {
    forall p | p in ps && p.uid == u :: p.ids == ids
  }

  /** The stretches so far against the state, for the prompt `ids`: none before admission; the first begins at `start`
  and none reaches beyond the prompt; for a queued chunk they end where it stands; once `u` is past prefill they end
  exactly where the prompt does. */
  ghost predicate Tiled(s: Sched, l: seq<Span>, u: int, ids: seq<int>, start: nat) {
    && Contiguous(l) && (u !in s.reqs ==> l == []) && Queued(s.pending, u, ids)
    && (l != [] ==> l[0].from == start && l[|l| - 1].to <= |ids|)
    && (u in ChunkUids(s.pending) ==> l != [] && l[|l| - 1].to == Get(s.reqs, u).cachedLen)
    && (u in s.reqs && !Get(s.reqs, u).chunked ==> l != [] && l[|l| - 1].to == |ids|)
  }

  /** The prompt of `u` after a message: the last one that was accepted. */
  ghost function PromptAfter(cfg: Config, ids: seq<int>, m: Msg, u: int): seq<int> {
    if m.UserMsg? && m.uid == u && |m.ids| < cfg.maxSeqLen then m.ids else ids
  }

  ghost function PromptAfterAll(cfg: Config, ids: seq<int>, msgs: seq<Msg>, u: int): seq<int>
    decreases |msgs|
  {
    if msgs == [] then ids else PromptAfterAll(cfg, PromptAfter(cfg, ids, msgs[0], u), msgs[1..], u)
  }

  /** The prompt that a run submitted for `u`. */
  ghost function PromptOf(cfg: Config, ins: seq<Input>, u: int): seq<int>
    decreases |ins|
  {
    if ins == [] then [] else PromptAfterAll(cfg, PromptOf(cfg, ins[..|ins| - 1], u), ins[|ins| - 1].msgs, u)
  }

  /** Where prefill of `u` starts: until it is admitted, what the prefix map now holds of its prompt but for the last
  token; from its admission on, what it held then. */
  ghost function StartAfter(cfg: Config, s: Sched, start: nat, ids: seq<int>, u: int): nat {
    if u in s.reqs || ids == [] then start else LongestMatch(s.cache.store, ids[..|ids| - 1], cfg.ps)
  }

  /** The matched length of `u` at the tick that admitted it. */
  ghost function MatchedLen(cfg: Config, ins: seq<Input>, u: int): nat
    decreases |ins|
  {
    if ins == [] then 0
    else
      var was, i := ins[..|ins| - 1], ins[|ins| - 1];
      StartAfter(cfg, ProcessMsgs(cfg, StateAfter(cfg, was), i.msgs), MatchedLen(cfg, was, u), PromptOf(cfg, ins, u), u)
  }

  /** A step that leaves `u`'s request alone and queues no chunk of it. */
  lemma {:induction false} TiledSame(s: Sched, s': Sched, l: seq<Span>, u: int, ids: seq<int>, start: nat)
    requires Tiled(s, l, u, ids, start) && (u in s'.reqs <==> u in s.reqs) && Queued(s'.pending, u, ids)
    requires u in ChunkUids(s'.pending) ==> u in ChunkUids(s.pending)
    requires u in ChunkUids(s'.pending) ==> Get(s'.reqs, u).cachedLen == Get(s.reqs, u).cachedLen
    requires Get(s'.reqs, u).chunked == Get(s.reqs, u).chunked
    ensures Tiled(s', l, u, ids, start)
  {
    hide ChunkUids, Queued;
  }

  /** A submission of `u` finds nothing of it. */
  lemma {:induction false} TiledSubmit(cfg: Config, s: Sched, m: Msg, l: seq<Span>, ids: seq<int>, start: nat)
    requires m.UserMsg? && Fresh(s, m) && Tiled(s, l, m.uid, ids, start) && |m.ids| < cfg.maxSeqLen
    ensures Tiled(ProcessMsg(cfg, s, m), l, m.uid, m.ids, start)
  {
    hide Clamp;
    var p := Pending(m.uid, m.ids, Clamp(cfg, m.params, |m.ids|), false);
    ChunkUidsAppend(s.pending, p);
    forall q | q in s.pending
      ensures q.uid != m.uid
    {
      var i :| 0 <= i < |s.pending| && s.pending[i] == q;
    }
    assert forall q | q in s.pending + [p] :: q in s.pending || q == p;
  }

  lemma {:induction false} MsgTiled(cfg: Config, s: Sched, m: Msg, l: seq<Span>, u: int, ids: seq<int>, start: nat)
    requires DistinctUids(s.pending) && Fresh(s, m) && Tiled(s, l, u, ids, start)
    ensures Tiled(ProcessMsg(cfg, s, m), l, u, PromptAfter(cfg, ids, m, u), start)
  {
    hide HandOver, DropPending, FindPending, ChunkUids, Clamp, Fresh, Tiled, DistinctUids;
    var s' := ProcessMsg(cfg, s, m);
    if m.UserMsg? {
      if |m.ids| < cfg.maxSeqLen {
        ChunkUidsAppend(s.pending, Pending(m.uid, m.ids, Clamp(cfg, m.params, |m.ids|), false));
        if m.uid == u {
          TiledSubmit(cfg, s, m, l, ids, start);
        } else {
          TiledQueued(s, l, u, ids, start);
          TiledSame(s, s', l, u, ids, start);
        }
      }
    } else {
      DropChunks(s.pending, m.uid);
      DropMembers(s.pending, m.uid);
      TiledQueued(s, l, u, ids, start);
      TiledSame(s, s', l, u, ids, start);
    }
  }

  lemma {:induction false} TiledQueued(s: Sched, l: seq<Span>, u: int, ids: seq<int>, start: nat)
    requires Tiled(s, l, u, ids, start)
    ensures Queued(s.pending, u, ids)
  {
    hide Queued;
  }

  lemma {:induction false} QueueDistinct(cfg: Config, s: Sched)
    requires NInv(cfg, s)
    ensures DistinctUids(s.pending)
  {
    hide RInv, HeadOk, RunningOk, DistinctUids;
  }

  lemma {:induction false} MsgsTiled(cfg: Config, s: Sched, msgs: seq<Msg>, l: seq<Span>, u: int, ids: seq<int>,
                                     start: nat)
    requires NInv(cfg, s) && AllFresh(cfg, s, msgs) && Tiled(s, l, u, ids, start)
    ensures Tiled(ProcessMsgs(cfg, s, msgs), l, u, PromptAfterAll(cfg, ids, msgs, u), start)
    decreases |msgs|
  {
    hide NInv, Fresh, ProcessMsg, Tiled, PromptAfter;
    if msgs != [] {
      MsgKeeps(cfg, s, msgs[0]);
      QueueDistinct(cfg, s);
      MsgTiled(cfg, s, msgs[0], l, u, ids, start);
      MsgsTiled(cfg, ProcessMsg(cfg, s, msgs[0]), msgs[1..], l, u, PromptAfter(cfg, ids, msgs[0], u), start);
    }
  }

  lemma {:induction false} TiledAppend(l: seq<Span>, x: Span)
    requires Contiguous(l) && x.from < x.to && (l == [] || l[|l| - 1].to == x.from)
    ensures Contiguous(l + [x])
  {
  }

  /** The stretch a scheduled prefill batch computes for `u` continues those before it. */
  lemma {:induction false} BatchTiled(cfg: Config, s: Sched, s': Sched, l: seq<Span>, u: int, ids: seq<int>, start: nat,
                                      others: set<int> := {})
    requires LInv(cfg, s, s.pending, others) && Aside(s, others)
    requires Tiled(s, l, u, ids, start) && Schedule(cfg, s).1.Some?
    requires Forwarded(Schedule(cfg, s).0, s', Schedule(cfg, s).1.value) && s'.reqs.Keys == Schedule(cfg, s).0.reqs.Keys
    ensures Tiled(s', l + BatchSpan(cfg, s, u), u, ids, StartAfter(cfg, s, start, ids, u))
  {
    hide LInv, Aside, Forwarded, AddAll, InflightTokens, NextQueue, RoundOk, SchedulePrefill, Sorted, Tiled, Uids,
      StartAfter;
    PrefillLive(cfg, s, others);
    var a := Adder(cfg.budget, InflightTokens(cfg, s));
    var r := AddAll(cfg, s, a, s.pending);
    RoundSize(cfg, s, a, s.pending, others, r);
    TiledStart(cfg, s, l, u, ids, start);
    if r.added == [] {
      DecodeTiled(cfg, s, s', l, u, ids, StartAfter(cfg, s, start, ids, u), others);
      assert l + [] == l;
    } else {
      EntriesAre(r.added);
      if u in UidsOf(r.added) {
        PrefillTiled(cfg, s, a, s', l, u, ids, start, others);
      } else {
        OtherTiled(cfg, s, a, s', l, u, ids, StartAfter(cfg, s, start, ids, u), others);
        assert l + [] == l;
      }
    }
  }

  /** Before admission the start may still move. */
  lemma {:induction false} TiledStart(cfg: Config, s: Sched, l: seq<Span>, u: int, ids: seq<int>, start: nat)
    requires Tiled(s, l, u, ids, start)
    ensures Tiled(s, l, u, ids, StartAfter(cfg, s, start, ids, u))
  {
    hide ChunkUids, Queued, LongestMatch, Contiguous;
  }

  lemma {:induction false} DecodeTiled(cfg: Config, s: Sched, s': Sched, l: seq<Span>, u: int, ids: seq<int>,
                                       start: nat, others: set<int>)
    requires LInv(cfg, s, s.pending, others)
    requires Tiled(s, l, u, ids, start) && s'.reqs.Keys == s.reqs.Keys
    requires Forwarded(s, s', Batch(DecodeEntries(Sorted(s.running)), false))
    ensures Tiled(s', l, u, ids, start)
  {
    hide RInv, PendOk, Sorted, Waiting, Uids, DoneOk, HeadOk, RunningOk, DistinctUids, ChunkUids, Tiled, Queued;
    SortedUids(s.running);
    ChunkHead(cfg, s, s.pending, u);
    TiledQueued(s, l, u, ids, start);
    assert Get(s'.reqs, u) == Get(s.reqs, u) || Get(s'.reqs, u) == Get(s.reqs, u).CompleteOne();
    TiledSame(s, s', l, u, ids, start);
  }

  lemma {:induction false} QueuedNext(queue: seq<Pending>, added: seq<Req>, u: int, ids: seq<int>)
    requires |added| <= |queue| && Queued(queue, u, ids)
    ensures Queued(NextQueue(queue, added), u, ids)
  {
    var k := |added|;
    assert queue == queue[..k] + queue[k..];
    if added != [] {
      assert queue[k - 1] in queue;
    }
  }

  lemma {:induction false} OtherTiled(cfg: Config, s: Sched, a: Adder, s': Sched, l: seq<Span>, u: int, ids: seq<int>,
                                      start: nat, others: set<int>)
    requires LInv(cfg, s, s.pending, others) && Tiled(s, l, u, ids, start)
    requires var r := AddAll(cfg, s, a, s.pending);
             && RoundOk(cfg, s, a, s.pending, others, r) && r.added != [] && u !in UidsOf(r.added)
             && s'.reqs.Keys == r.s.reqs.Keys
             && Forwarded(r.s.(pending := NextQueue(s.pending, r.added)), s', Batch(EntriesOf(r.added), true))
    ensures Tiled(s', l, u, ids, start)
  {
    hide RInv, AddAll, HeadOk, RunningOk, LastChunked, NextQueue, Waiting, Uids, UidsOf, Work, ChunkUids, PendOk,
      Tiled, AllAdded, Queued;
    var r := AddAll(cfg, s, a, s.pending);
    EntriesAre(r.added);
    OtherKeys(cfg, s, a, u);
    ChunksAfter(cfg, s, r.s, r.added, UidsOf(r.added));
    TiledQueued(s, l, u, ids, start);
    QueuedNext(s.pending, r.added, u, ids);
    assert u in s.reqs ==> Get(r.s.reqs, u) == Get(s.reqs, u);
    assert Get(s'.reqs, u) == Get(r.s.reqs, u);
    assert u !in s.reqs ==> Get(s.reqs, u) == Get(s'.reqs, u);
    TiledSame(s, s', l, u, ids, start);
  }

  /** A round admits no request but those it adds. */
  lemma {:induction false} OtherKeys(cfg: Config, s: Sched, a: Adder, u: int)
    requires u !in UidsOf(AddAll(cfg, s, a, s.pending).added)
    ensures u in AddAll(cfg, s, a, s.pending).s.reqs <==> u in s.reqs
  {
    hide AddAll;
    RoundKeys(cfg, s, a, s.pending, u);
  }

  lemma {:induction false} RoundKeys(cfg: Config, s: Sched, a: Adder, queue: seq<Pending>, u: int)
    requires u !in UidsOf(AddAll(cfg, s, a, queue).added)
    ensures u in AddAll(cfg, s, a, queue).s.reqs <==> u in s.reqs
    decreases |queue|
  {
    hide LongestMatch, WriteRow, Avail, SlotsOf;
    if queue != [] && TryAddOne(cfg, s, a, queue[0]).Some? {
      var (s1, a1, q) := TryAddOne(cfg, s, a, queue[0]).value;
      var r := AddAll(cfg, s1, a1, queue[1..]);
      assert ([q] + r.added)[1..] == r.added;
      RoundKeys(cfg, s1, a1, queue[1..], u);
      StepUid(cfg, s, a, queue[0]);
    }
  }

  lemma {:induction false} PrefillTiled(cfg: Config, s: Sched, a: Adder, s': Sched, l: seq<Span>, u: int, ids: seq<int>,
                                        start: nat, others: set<int>)
    requires LInv(cfg, s, s.pending, others) && Tiled(s, l, u, ids, start)
    requires var r := AddAll(cfg, s, a, s.pending);
             && RoundOk(cfg, s, a, s.pending, others, r) && r.added != [] && u in UidsOf(r.added)
             && s'.reqs.Keys == r.s.reqs.Keys
             && Forwarded(r.s.(pending := NextQueue(s.pending, r.added)), s', Batch(EntriesOf(r.added), true))
    ensures var r := AddAll(cfg, s, a, s.pending);
            Tiled(s', l + [Span(Get(r.s.reqs, u).cachedLen, Get(r.s.reqs, u).deviceLen)], u, ids,
                  StartAfter(cfg, s, start, ids, u))
  {
    hide LInv, AddAll, LastChunked, NextQueue, Waiting, Uids, UidsOf, Work, ChunkUids, Kept, StartAfter, Queued;
    var r := AddAll(cfg, s, a, s.pending);
    QueueOfLive(cfg, s, others);
    EntriesAre(r.added);
    UidsAreQueued(r.s, r.added, s.pending, u);
    var i :| 0 <= i < |r.added| && s.pending[i].uid == u;
    assert AddedFrom(r.s, r.added[i], s.pending[i]);
    TiledStart(cfg, s, l, u, ids, start);
    StartsAtEnd(cfg, s, a, l, ids, start, i, others);
    TiledAppend(l, Span(r.added[i].cachedLen, r.added[i].deviceLen));
    QueueHead(cfg, s, r.added);
    QueuedNext(s.pending, r.added, u, ids);
    assert Get(s'.reqs, u) == Get(r.s.reqs, u).CompleteOne();
  }

  /** The first stretch of a new request starts at the longest stored prefix of its prompt but for the last token. */
  lemma {:induction false} FirstStart(cfg: Config, s: Sched, a: Adder, queue: seq<Pending>, i: nat)
    requires i < |AddAll(cfg, s, a, queue).added| <= |queue| && !queue[i].chunk && queue[i].ids != []
    ensures AddAll(cfg, s, a, queue).added[i].cachedLen
         == LongestMatch(s.cache.store, queue[i].ids[..|queue[i].ids| - 1], cfg.ps)
    decreases |queue|
  {
    hide LongestMatch, WriteRow, Avail, SlotsOf;
    var (s1, a1, q) := TryAddOne(cfg, s, a, queue[0]).value;
    var r := AddAll(cfg, s1, a1, queue[1..]);
    assert AddAll(cfg, s, a, queue).added == [q] + r.added;
    assert s1.cache.store == s.cache.store;
    if i > 0 {
      FirstStart(cfg, s1, a1, queue[1..], i - 1);
    }
  }

  /** Where the next stretch of an entry begins: at the end of what is computed, and for a new request at the end of
  what is matched. */
  lemma {:induction false} StartsAtEnd(cfg: Config, s: Sched, a: Adder, l: seq<Span>, ids: seq<int>, start: nat, i: nat,
                                       others: set<int>)
    requires LInv(cfg, s, s.pending, others) && i < |AddAll(cfg, s, a, s.pending).added| <= |s.pending|
    requires Tiled(s, l, s.pending[i].uid, ids, start)
    ensures s.pending[i].ids == ids
    ensures var from := AddAll(cfg, s, a, s.pending).added[i].cachedLen;
            if l == [] then from == StartAfter(cfg, s, start, ids, s.pending[i].uid) else l[|l| - 1].to == from
  {
    hide RInv, AddAll, HeadOk, RunningOk, DistinctUids, Contiguous, LongestMatch;
    assert s.pending[i] in s.pending;
    if s.pending[i].chunk {
      ChunkContinues(cfg, s, a, s.pending);
    } else {
      assert PendOk(cfg, s.pending[i]);
      FirstStart(cfg, s, a, s.pending, i);
    }
  }

  // ---- the whole tick

  /** A step that moves no chunk and changes of a request only its tokens. */
  lemma {:induction false} EntryTiled(cfg: Config, p: Post, prefill: bool, e: Entry, token: int, l: seq<Span>, u: int,
                                      ids: seq<int>, start: nat)
    requires Tiled(p.s, l, u, ids, start) && (e.uid in p.s.reqs || e.chunked)
    ensures Tiled(ProcessEntry(cfg, p, prefill, e, token).s, l, u, ids, start)
    ensures ProcessEntry(cfg, p, prefill, e, token).s.reqs.Keys == p.s.reqs.Keys
  {
    hide HandOver, IsFinished, ChunkUids, Tiled, Queued;
    TiledQueued(p.s, l, u, ids, start);
    TiledSame(p.s, ProcessEntry(cfg, p, prefill, e, token).s, l, u, ids, start);
  }

  lemma {:induction false} EntriesTiled(cfg: Config, p: Post, prefill: bool, es: seq<Entry>, tokens: seq<int>,
                                        l: seq<Span>, u: int, ids: seq<int>, start: nat)
    requires |tokens| == |es| && Tiled(p.s, l, u, ids, start)
    requires forall i {:trigger es[i]} | 0 <= i < |es| :: es[i].uid in p.s.reqs || es[i].chunked
    ensures Tiled(ProcessEntries(cfg, p, prefill, es, tokens).s, l, u, ids, start)
    decreases |es|
  {
    hide ProcessEntry, Tiled;
    if es != [] {
      var p1 := ProcessEntry(cfg, p, prefill, es[0], tokens[0]);
      EntryTiled(cfg, p, prefill, es[0], tokens[0], l, u, ids, start);
      assert forall i | 0 <= i < |es[1..]| :: es[1..][i] == es[i + 1];
      EntriesTiled(cfg, p1, prefill, es[1..], tokens[1..], l, u, ids, start);
    }
  }

  lemma {:induction false} ProcessTiled(cfg: Config, s: Sched, b: Batch, tokens: seq<int>, l: seq<Span>, u: int,
                                        ids: seq<int>, start: nat)
    requires |tokens| == |b.entries| && Tiled(s, l, u, ids, start) && WaitsOk(cfg, s, b.entries)
    ensures Tiled(ProcessLast(cfg, s, b, tokens).0, l, u, ids, start)
  {
    hide ProcessEntries, ChunkUids, Tiled, DistinctEntries, Queued;
    forall i | 0 <= i < |b.entries|
      ensures b.entries[i].uid in s.reqs || b.entries[i].chunked
    {
      assert !b.entries[i].chunked ==> WaitOk(cfg, s, b.entries[i]);
    }
    EntriesTiled(cfg, Post(s, [], {}), b.prefill, b.entries, tokens, l, u, ids, start);
    var p := ProcessEntries(cfg, Post(s, [], {}), b.prefill, b.entries, tokens);
    TiledQueued(p.s, l, u, ids, start);
    TiledSame(p.s, p.s.(finished := p.finished), l, u, ids, start);
  }

  lemma {:induction false} ForwardKeys(cfg: Config, s: Sched, b: Batch, ev: Eviction, tokens: seq<int>,
                                       others: set<int> := {})
    requires RInv(cfg, s, {}, []) && Planned(cfg, s, b, others) && CanPrepare(cfg, s, b, ev) && |tokens| == |b.entries|
    ensures Forward(cfg, Prepare(cfg, s, b, ev), b, tokens).reqs.Keys == s.reqs.Keys
  {
    hide RInv, Planned, CanPrepare, Prepare, Commit, Uids, DistinctEntries;
    PrepareKeeps(cfg, s, b, ev, others);
    var s1 := Prepare(cfg, s, b, ev);
    PlannedPrepared(cfg, s, s1, b, others);
    PlannedEntries(cfg, s1, b, others);
    CommitAdvances(cfg, s1, b.entries, tokens);
    FilterQueue(cfg, s1, Commit(cfg, s1, b.entries, tokens), b, others);
  }

  lemma {:induction false} TickTiled(cfg: Config, s: Sched, i: Input, l: seq<Span>, u: int, ids: seq<int>, start: nat)
    requires NInv(cfg, s) && Admissible(cfg, s, i) && Tiled(s, l, u, ids, start)
    ensures var ids' := PromptAfterAll(cfg, ids, i.msgs, u);
            Tiled(NormalTick(cfg, s, i).0, l + TickSpan(cfg, s, i, u), u, ids',
                  StartAfter(cfg, ProcessMsgs(cfg, s, i.msgs), start, ids', u))
  {
    hide AllFresh, ProcessMsgs, Schedule, CanPrepare, Forward, Prepare, RInv, Planned, LInv, WaitsOk, ProcessLast,
      Forwarded, Tiled, Uids, ChunkUids, StartAfter, PromptAfterAll, Queued;
    var s0, ids' := ProcessMsgs(cfg, s, i.msgs), PromptAfterAll(cfg, ids, i.msgs, u);
    var start' := StartAfter(cfg, s0, start, ids', u);
    MsgsKeep(cfg, s, i.msgs);
    MsgsTiled(cfg, s, i.msgs, l, u, ids, start);
    var (s1, b) := Schedule(cfg, s0);
    ScheduleKeeps(cfg, s0);
    if b.None? {
      assert l + [] == l;
      TiledStart(cfg, s0, l, u, ids', start);
      TiledAcks(s0, l, u, ids', start');
    } else {
      var tokens := TokensFor(b.value, i.tokens);
      var s2 := Forward(cfg, Prepare(cfg, s1, b.value, i.ev), b.value, tokens);
      ForwardIs(cfg, s1, b.value, i.ev, tokens);
      ForwardKeys(cfg, s1, b.value, i.ev, tokens);
      BatchTiled(cfg, s0, s2, l, u, ids', start);
      BatchRuns(cfg, s1, b.value, i.ev, tokens);
      ProcessTiled(cfg, s2, b.value, tokens, l + TickSpan(cfg, s, i, u), u, ids', start');
      TiledAcks(ProcessLast(cfg, s2, b.value, tokens).0, l + TickSpan(cfg, s, i, u), u, ids', start');
    }
  }

  lemma {:induction false} TiledAcks(s: Sched, l: seq<Span>, u: int, ids: seq<int>, start: nat)
    requires Tiled(s, l, u, ids, start)
    ensures Tiled(s.(acks := []), l, u, ids, start)
  {
    hide Queued, ChunkUids;
  }

  /** In every run, the stretches of a request's prompt that are computed lie end to end and begin where the prefix
  matched at its admission ends; for a queued chunk they end where it continues, and once the request is past prefill
  exactly at the end of the prompt that was submitted. */
  lemma {:induction false} ChunksTile(cfg: Config, ins: seq<Input>, u: int)
    requires IsRun(cfg, ins)
    ensures Tiled(StateAfter(cfg, ins), Spans(cfg, ins, u), u, PromptOf(cfg, ins, u), MatchedLen(cfg, ins, u))
    decreases |ins|
  {
    hide NInv, NormalTick, Admissible, CfgOk, InitState, Tiled, TickSpan, StartAfter, PromptAfterAll, ProcessMsgs;
    if ins == [] {
      InitTiled(cfg, u);
    } else {
      var was := ins[..|ins| - 1];
      Reachable(cfg, was);
      ChunksTile(cfg, was, u);
      TickTiled(cfg, StateAfter(cfg, was), ins[|ins| - 1], Spans(cfg, was, u), u, PromptOf(cfg, was, u),
                MatchedLen(cfg, was, u));
    }
  }

  lemma {:induction false} InitTiled(cfg: Config, u: int)
    ensures Tiled(InitState(cfg), [], u, [], 0)
  {
    hide Range;
    assert ChunkUids([]) == {};
  }

  /** Token position `x` is computed in the `k`-th stretch. */
  predicate ComputedIn(l: seq<Span>, k: int, x: int) {
    0 <= k < |l| && l[k].from <= x < l[k].to
  }

  lemma {:induction false} EndToEnd(l: seq<Span>, x: int)
    requires Contiguous(l) && l != []
    ensures l[0].from < l[|l| - 1].to
    ensures l[0].from <= x < l[|l| - 1].to <==> exists k :: ComputedIn(l, k, x)
    ensures forall j, k :: ComputedIn(l, j, x) && ComputedIn(l, k, x) ==> j == k
    decreases |l|
  {
    var n := |l| - 1;
    if n == 0 {
      assert l[0].from <= x < l[0].to <==> ComputedIn(l, 0, x);
    } else {
      var was := l[..n];
      EndToEnd(was, x);
      assert forall k :: ComputedIn(l, k, x) <==> ComputedIn(was, k, x) || (k == n && l[n].from <= x < l[n].to);
      assert l[n].from <= x < l[n].to ==> ComputedIn(l, n, x);
      if l[0].from <= x < l[n].from {
        var k :| ComputedIn(was, k, x);
        assert ComputedIn(l, k, x);
      }
    }
  }

  /** Chunked prefill equals one-shot prefill: of a request past prefill, every prompt position behind the matched
  prefix was computed in exactly one batch, and no other position in any. */
  lemma {:induction false} PrefillComputesOnce(cfg: Config, ins: seq<Input>, u: int, x: int)
    requires IsRun(cfg, ins) && u in StateAfter(cfg, ins).reqs && !StateAfter(cfg, ins).reqs[u].chunked
    ensures var l := Spans(cfg, ins, u);
            && (MatchedLen(cfg, ins, u) <= x < |PromptOf(cfg, ins, u)| <==> exists k :: ComputedIn(l, k, x))
            && (forall j, k :: ComputedIn(l, j, x) && ComputedIn(l, k, x) ==> j == k)
            && MatchedLen(cfg, ins, u) < |PromptOf(cfg, ins, u)|
  {
    hide IsRun, StateAfter, Spans, PromptOf, MatchedLen, Contiguous, Queued, ChunkUids, ComputedIn;
    ChunksTile(cfg, ins, u);
    EndToEnd(Spans(cfg, ins, u), x);
  }
}
