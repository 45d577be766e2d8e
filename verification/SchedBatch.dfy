/** The batch a tick schedules: what holds of its requests, the queue and the running set before the forward pass. */
module SchedBatch {
  import opened Sums
  import opened Requests
  import opened SchedSpec
  import opened SchedInv
  import opened SchedAdmit
  import opened SchedRound

  /** A request of a batch: it has tokens to compute, all on the host, and stays within the longest sequence. */
  ghost predicate EntryOk(cfg: Config, s: Sched, e: Entry) {
    var r := Get(s.reqs, e.uid);
    && e.uid in s.reqs && r.chunked == e.chunked && |r.ids| == r.deviceLen && r.cachedLen < r.deviceLen
    && (if e.chunked then r.deviceLen < cfg.maxSeqLen else r.deviceLen <= r.maxLen <= cfg.maxSeqLen)
  }

  ghost predicate EntriesOk(cfg: Config, s: Sched, es: seq<Entry>) {
    && (forall i, j {:trigger es[i], es[j]} | 0 <= i < j < |es| :: es[i].uid != es[j].uid)
    && forall i {:trigger es[i]} | 0 <= i < |es| :: EntryOk(cfg, s, es[i])
  }

  /** The chunk at the head of the queue, computed so far or in the batch. */
  ghost predicate ChunkReady(s: Sched, p: Pending, us: set<int>) {
    if p.uid in us then
      var r := Get(s.reqs, p.uid);
      p.uid in s.reqs && r.chunked && r.deviceLen < |p.ids| && r.ids == p.ids[..r.deviceLen]
    else ChunkOk(s, p)
  }

  ghost predicate HeadReady(s: Sched, us: set<int>) {
    s.pending != [] && s.pending[0].chunk ==> ChunkReady(s, s.pending[0], us)
  }

  /** Every chunk of the batch is the head of the queue. */
  ghost predicate ChunksQueued(s: Sched, es: seq<Entry>) {
    forall i {:trigger es[i]} | 0 <= i < |es| && es[i].chunked ::
      s.pending != [] && s.pending[0].chunk && s.pending[0].uid == es[i].uid
  }

  /** The requests of `others` are neither queued nor running. */
  ghost predicate Aside(s: Sched, others: set<int>) {
    others !! s.running && others !! ChunkUids(s.pending)
  }

  /** Queue, running set and batch between scheduling and the forward pass, while the requests of `others` hold
  resources and wait for something else. */
  ghost predicate Planned(cfg: Config, s: Sched, b: Batch, others: set<int> := {}) {
    var us := Uids(b.entries);
    && QueueOk(cfg, s, s.pending) && RunningOk(cfg, s, us) && others !! s.running + ChunkUids(s.pending) + us
    && s.cache.held.Keys == s.running + ChunkUids(s.pending) + us + others
    && EntriesOk(cfg, s, b.entries) && HeadReady(s, us) && ChunksQueued(s, b.entries)
    && DoneOk(s, s.finished) && s.inflight == {} && s.deferred == {}
  }

  // ---- a prefill batch

  /** The queue after a round: the chunk, if any, then what was not taken. */
  ghost function NextQueue(queue: seq<Pending>, added: seq<Req>): seq<Pending>
    requires |added| <= |queue|
  {
    (if added != [] && added[|added| - 1].chunked then [queue[|added| - 1].(chunk := true)] else [])
    + queue[|added|..]
  }

  lemma {:induction false} PrefillLive(cfg: Config, s: Sched, others: set<int>)
    requires LInv(cfg, s, s.pending, others) && Aside(s, others)
    ensures var a := Adder(cfg.budget, InflightTokens(cfg, s));
            var r := AddAll(cfg, s, a, s.pending);
            && RoundOk(cfg, s, a, s.pending, others, r)
            && SchedulePrefill(cfg, s) == (if r.added == [] then (s, None)
                 else (r.s.(pending := NextQueue(s.pending, r.added)), Some(Batch(EntriesOf(r.added), true))))
  {
    hide LInv, Apart, Kept, AllAdded, AddAll, InflightTokens, LastChunked, Aside;
    var a := Adder(cfg.budget, InflightTokens(cfg, s));
    QueueApart(cfg, s, others);
    AddAllKeeps(cfg, s, a, s.pending, others);
    var r := AddAll(cfg, s, a, s.pending);
    ChunkListIs(r.added, s.pending);
  }

  lemma {:induction false} QueueApart(cfg: Config, s: Sched, others: set<int>)
    requires LInv(cfg, s, s.pending, others) && Aside(s, others)
    ensures Apart(s.pending, others)
  {
    hide Shapes, Owned, ReqInv, PendOk, DistinctUids, HeadOk, RunningOk, DoneOk;
    forall i | 0 <= i < |s.pending|
      ensures s.pending[i].uid !in others
    {
      var u := s.pending[i].uid;
      assert s.pending[i] in s.pending;
      if u in others {
        assert ReqInv(cfg, s, {}, u);
        HeldKnown(cfg, s, u);
      }
    }
  }

  lemma {:induction false} HeldKnown(cfg: Config, s: Sched, u: int)
    requires ReqInv(cfg, s, {}, u)
    ensures u in s.reqs
  {
  }

  lemma {:induction false} PrefillIs(cfg: Config, s: Sched)
    requires NInv(cfg, s)
    ensures var a := Adder(cfg.budget, InflightTokens(cfg, s));
            var r := AddAll(cfg, s, a, s.pending);
            && RoundOk(cfg, s, a, s.pending, {}, r)
            && SchedulePrefill(cfg, s) == (if r.added == [] then (s, None)
                 else (r.s.(pending := NextQueue(s.pending, r.added)), Some(Batch(EntriesOf(r.added), true))))
  {
    hide LInv, RoundOk, AddAll, InflightTokens, SchedulePrefill;
    PrefillLive(cfg, s, {});
  }

  lemma {:induction false} RestIndex(cfg: Config, s: Sched, k: nat)
    requires QueueOk(cfg, s, s.pending) && 0 < k <= |s.pending|
    ensures forall i {:trigger s.pending[k..][i]} | 0 <= i < |s.pending| - k ::
              s.pending[k..][i] == s.pending[k + i] && !s.pending[k..][i].chunk
  {
    hide PendOk, DistinctUids;
  }

  lemma {:induction false} QueueHead(cfg: Config, s: Sched, added: seq<Req>)
    requires QueueOk(cfg, s, s.pending) && 0 < |added| <= |s.pending|
    ensures var q, last := NextQueue(s.pending, added), |added| - 1;
            if added[last].chunked then q != [] && q[0] == s.pending[last].(chunk := true)
            else q == [] || !q[0].chunk
  {
    hide QueueOk;
    RestIndex(cfg, s, |added|);
  }

  lemma {:induction false} QueueAfter(cfg: Config, s: Sched, s': Sched, added: seq<Req>)
    requires QueueOk(cfg, s, s.pending) && AllAdded(s', added, s.pending) && added != []
    requires QueueOk(cfg, s', s.pending[|added|..]) && s'.running == s.running
    ensures QueueOk(cfg, s', NextQueue(s.pending, added))
  {
    hide PendOk;
    RestIndex(cfg, s, |added|);
    var q, rest, p := NextQueue(s.pending, added), s.pending[|added|..], s.pending[|added| - 1];
    if added[|added| - 1].chunked {
      assert AddedFrom(s', added[|added| - 1], p);
      PendSame(cfg, p);
      assert q == [p.(chunk := true)] + rest;
      assert forall i | 1 <= i < |q| :: q[i] == rest[i - 1];
    } else {
      assert q == rest;
    }
  }

  lemma {:induction false} PendSame(cfg: Config, p: Pending)
    ensures PendOk(cfg, p.(chunk := true)) <==> PendOk(cfg, p)
  {
  }

  lemma {:induction false} AddedEntries(cfg: Config, s: Sched, added: seq<Req>, queue: seq<Pending>)
    requires AllAdded(s, added, queue) && DistinctUids(queue)
    requires forall i {:trigger queue[i]} | 0 <= i < |queue| :: PendOk(cfg, queue[i])
    ensures EntriesOk(cfg, s, EntriesOf(added))
  {
    hide Uids;
    EntriesAre(added);
    var es := EntriesOf(added);
    forall i | 0 <= i < |es|
      ensures EntryOk(cfg, s, es[i])
    {
      assert AddedFrom(s, added[i], queue[i]);
    }
    forall i, j | 0 <= i < j < |es|
      ensures es[i].uid != es[j].uid
    {
      assert AddedFrom(s, added[i], queue[i]) && AddedFrom(s, added[j], queue[j]);
    }
  }

  lemma {:induction false} ChunkLast(added: seq<Req>, i: nat)
    requires LastChunked(added) && i < |added| && added[i].chunked
    ensures i == |added| - 1
  {
  }

  lemma {:induction false} PrefillPlanned(cfg: Config, s: Sched, added: seq<Req>, s1: Sched, busy: set<int>,
                                          others: set<int>)
    requires LInv(cfg, s, s.pending, others) && others !! s.running && others !! busy
    requires added != [] && |added| <= |s.pending| && busy == UidsOf(added)
    requires LInv(cfg, s1, s.pending[|added|..], others + busy) && Kept(s, s1, busy)
    requires AllAdded(s1, added, s.pending) && LastChunked(added)
    ensures var s' := s1.(pending := NextQueue(s.pending, added));
            RInv(cfg, s', {}, []) && Planned(cfg, s', Batch(EntriesOf(added), true), others)
  {
    hide RInv, UidsOf, Uids, NextQueue, EntryOk, PendOk, ChunkUids;
    var s' := s1.(pending := NextQueue(s.pending, added));
    EntriesAre(added);
    QueueAfter(cfg, s, s1, added);
    QueuePlaced(cfg, s1, s');
    RInvSameOf(cfg, s1, s');
    AddedEntries(cfg, s1, added, s.pending);
    EntriesFrame(cfg, s1, s', EntriesOf(added));
    ChunksAfter(cfg, s, s1, added, busy);
    HeadAfter(cfg, s, s1, s', added);
    RunningAside(cfg, s', others, busy);
  }

  lemma {:induction false} RunningAside(cfg: Config, s: Sched, others: set<int>, busy: set<int>)
    requires RunningOk(cfg, s, others + busy) && others !! s.running
    ensures RunningOk(cfg, s, busy)
  {
  }

  lemma {:induction false} EntriesFrame(cfg: Config, s: Sched, s': Sched, es: seq<Entry>)
    requires EntriesOk(cfg, s, es) && s'.reqs == s.reqs
    ensures EntriesOk(cfg, s', es)
  {
    forall i | 0 <= i < |es|
      ensures EntryOk(cfg, s', es[i])
    {
      assert EntryOk(cfg, s, es[i]);
    }
  }

  lemma {:induction false} QueuePlaced(cfg: Config, s: Sched, s': Sched)
    requires QueueOk(cfg, s, s'.pending) && s'.running == s.running && s'.reqs == s.reqs
    ensures QueueOk(cfg, s', s'.pending)
    ensures forall busy {:trigger RunningOk(cfg, s', busy)} :: RunningOk(cfg, s, busy) ==> RunningOk(cfg, s', busy)
  {
    hide PendOk;
    forall busy | RunningOk(cfg, s, busy)
      ensures RunningOk(cfg, s', busy)
    {
      RunningSame(cfg, s, s', busy);
    }
  }

  /** The chunk uids after a round all belong to the batch. */
  lemma {:induction false} ChunksAfter(cfg: Config, s: Sched, s1: Sched, added: seq<Req>, busy: set<int>)
    requires QueueOk(cfg, s, s.pending) && AllAdded(s1, added, s.pending) && added != [] && busy == UidsOf(added)
    requires QueueOk(cfg, s1, s.pending[|added|..]) && s1.running == s.running
    ensures ChunkUids(NextQueue(s.pending, added)) <= busy && ChunkUids(s.pending[|added|..]) == {}
  {
    hide PendOk, UidsOf, NextQueue;
    QueueAfter(cfg, s, s1, added);
    QueueHead(cfg, s, added);
    var q := NextQueue(s.pending, added);
    forall u | u in ChunkUids(q)
      ensures u in busy
    {
      ChunkHead(cfg, s1, q, u);
      AddedUid(s1, added, s.pending, |added| - 1);
    }
    RestPlain(cfg, s, |added|);
  }

  lemma {:induction false} RestPlain(cfg: Config, s: Sched, k: nat)
    requires QueueOk(cfg, s, s.pending) && 0 < k <= |s.pending|
    ensures ChunkUids(s.pending[k..]) == {}
  {
    hide PendOk, DistinctUids;
    forall p | p in s.pending[k..]
      ensures !p.chunk
    {
      var i :| 0 <= i < |s.pending[k..]| && s.pending[k..][i] == p;
      assert s.pending[k + i] == p;
    }
  }

  lemma {:induction false} AddedUid(s: Sched, added: seq<Req>, queue: seq<Pending>, i: nat)
    requires AllAdded(s, added, queue) && i < |added|
    ensures added[i].uid == queue[i].uid && added[i].uid in UidsOf(added)
  {
    assert AddedFrom(s, added[i], queue[i]);
    UidsAreQueued(s, added, queue, added[i].uid);
  }

  lemma {:induction false} HeadAfter(cfg: Config, s: Sched, s1: Sched, s': Sched, added: seq<Req>)
    requires QueueOk(cfg, s, s.pending) && AllAdded(s1, added, s.pending) && added != [] && LastChunked(added)
    requires QueueOk(cfg, s1, s.pending[|added|..]) && s1.running == s.running
    requires s' == s1.(pending := NextQueue(s.pending, added))
    ensures HeadReady(s', Uids(EntriesOf(added))) && ChunksQueued(s', EntriesOf(added))
  {
    hide PendOk, NextQueue, UidsOf, Uids;
    QueueHead(cfg, s, added);
    EntriesAre(added);
    AddedUid(s1, added, s.pending, |added| - 1);
    assert AddedFrom(s1, added[|added| - 1], s.pending[|added| - 1]);
    var es := EntriesOf(added);
    forall i | 0 <= i < |es| && es[i].chunked
      ensures s'.pending != [] && s'.pending[0].chunk && s'.pending[0].uid == es[i].uid
    {
      ChunkLast(added, i);
    }
  }

  // ---- a decode batch

  lemma {:induction false} DecodePlanned(cfg: Config, s: Sched, others: set<int>)
    requires LInv(cfg, s, s.pending, others) && Aside(s, others)
    ensures Planned(cfg, s, Batch(DecodeEntries(Sorted(s.running)), false), others)
  {
    hide RInv, QueueOk, ChunkUids, Uids, EntriesOk, Sorted, HeadReady, DecodeEntries, RunOk;
    var es := DecodeEntries(Sorted(s.running));
    RunningAside(cfg, s, others, {});
    assert others + {} == others;
    SortedUids(s.running);
    SortedEntries(cfg, s);
    HeadIdle(cfg, s);
    PlainEntries(s, Sorted(s.running));
  }

  lemma {:induction false} PlainEntries(s: Sched, us: seq<int>)
    ensures ChunksQueued(s, DecodeEntries(us))
  {
  }

  lemma {:induction false} SortedUids(us: set<int>)
    ensures Uids(DecodeEntries(Sorted(us))) == us
  {
    var es := DecodeEntries(Sorted(us));
    forall u | u in us
      ensures u in Uids(es)
    {
      var i :| 0 <= i < |Sorted(us)| && Sorted(us)[i] == u;
      assert es[i] in es;
    }
  }

  lemma {:induction false} SortedEntries(cfg: Config, s: Sched)
    requires RunningOk(cfg, s, {})
    ensures EntriesOk(cfg, s, DecodeEntries(Sorted(s.running)))
  {
    var us := Sorted(s.running);
    var es := DecodeEntries(us);
    forall i | 0 <= i < |es|
      ensures EntryOk(cfg, s, es[i])
    {
      assert us[i] in us;
      assert RunOk(cfg, s, us[i]);
    }
  }

  lemma {:induction false} HeadIdle(cfg: Config, s: Sched)
    requires QueueOk(cfg, s, s.pending) && HeadOk(s, s.pending)
    ensures HeadReady(s, s.running)
  {
  }

  /** What scheduling the next batch leaves: a planned batch, or nothing to do. */
  lemma {:induction false} ScheduleLive(cfg: Config, s: Sched, others: set<int>)
    requires LInv(cfg, s, s.pending, others) && Aside(s, others)
    ensures var (s', b) := Schedule(cfg, s);
            && s'.running == s.running && s'.finished == s.finished && s'.acks == s.acks && s'.freed == s.freed
            && (b.None? ==> s' == s && s.running == {})
            && (b.Some? ==> RInv(cfg, s', {}, []) && Planned(cfg, s', b.value, others) && b.value.entries != [])
  {
    hide LInv, Planned, RInv, AddAll, InflightTokens, NextQueue, RoundOk, SchedulePrefill, Sorted, Aside;
    PrefillLive(cfg, s, others);
    var a := Adder(cfg.budget, InflightTokens(cfg, s));
    var r := AddAll(cfg, s, a, s.pending);
    if r.added != [] {
      RoundPlanned(cfg, s, a, r, others);
      EntriesAre(r.added);
    } else if s.running != {} {
      DecodePlanned(cfg, s, others);
      SortedSome(s.running);
      RInvOf(cfg, s, others);
    }
  }

  lemma {:induction false} ScheduleKeeps(cfg: Config, s: Sched)
    requires NInv(cfg, s)
    ensures var (s', b) := Schedule(cfg, s);
            && s'.running == s.running && s'.finished == s.finished && s'.acks == s.acks && s'.freed == s.freed
            && (b.None? ==> s' == s && s.running == {})
            && (b.Some? ==> RInv(cfg, s', {}, []) && Planned(cfg, s', b.value) && b.value.entries != [])
  {
    hide LInv, Planned, RInv, Schedule;
    ScheduleLive(cfg, s, {});
  }

  lemma {:induction false} SortedSome(us: set<int>)
    requires us != {}
    ensures Sorted(us) != []
  {
    var u := Member(us);
    assert u in Sorted(us);
  }

  lemma {:induction false} RInvOf(cfg: Config, s: Sched, others: set<int>)
    requires LInv(cfg, s, s.pending, others)
    ensures RInv(cfg, s, {}, [])
  {
    hide RInv;
  }

  lemma {:induction false} RoundPlanned(cfg: Config, s: Sched, a: Adder, r: Round, others: set<int>)
    requires LInv(cfg, s, s.pending, others) && Aside(s, others)
    requires RoundOk(cfg, s, a, s.pending, others, r) && r.added != []
    ensures var s' := r.s.(pending := NextQueue(s.pending, r.added));
            && RInv(cfg, s', {}, []) && Planned(cfg, s', Batch(EntriesOf(r.added), true), others)
            && Kept(s, r.s, UidsOf(r.added)) && r.s.running == s.running
  {
    hide LInv, AllAdded, NextQueue, Planned, RInv, Apart, UidsOf;
    QueueApart(cfg, s, others);
    AddedApart(r.s, r.added, s.pending, others);
    PrefillPlanned(cfg, s, r.added, r.s, UidsOf(r.added), others);
  }

  lemma {:induction false} AddedApart(s: Sched, added: seq<Req>, queue: seq<Pending>, others: set<int>)
    requires AllAdded(s, added, queue) && Apart(queue, others)
    ensures others !! UidsOf(added)
  {
    hide UidsOf;
    forall u | u in UidsOf(added)
      ensures u !in others
    {
      UidsAreQueued(s, added, queue, u);
    }
  }
}
