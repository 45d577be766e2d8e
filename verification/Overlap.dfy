/** The overlap loop: one batch is always processed while the next one runs. An abort that hits the batch in flight is
deferred; the fence it raises, its acknowledgement, and when a request is released exactly once. */
module Overlap {
  import opened PrefixStore
  import opened CacheSpec
  import opened Requests
  import opened SchedSpec
  import opened SchedAdmit
  import opened SchedRound
  import opened SchedBatch
  import opened SchedForward
  import opened SchedPost

  ghost function PendingUids(ps: seq<Pending>): set<int> {
    set p | p in ps :: p.uid
  }

  ghost function LastEntries(last: Option<Flight>): seq<Entry> {
    if last.None? then [] else last.value.batch.entries
  }

  ghost function LastUids(last: Option<Flight>): set<int> {
    Uids(LastEntries(last))
  }

  // ---- what scheduling does to queue and running set

  lemma {:induction false} AddedUids(cfg: Config, s: Sched, a: Adder, queue: seq<Pending>, i: nat)
    requires i < |AddAll(cfg, s, a, queue).added|
    ensures AddAll(cfg, s, a, queue).added[i].uid == queue[i].uid
    decreases |queue|
  {
    hide TryAddOne;
    StepUid(cfg, s, a, queue[0]);
    var (s1, a1, q) := TryAddOne(cfg, s, a, queue[0]).value;
    if i > 0 {
      AddedUids(cfg, s1, a1, queue[1..], i - 1);
    }
  }

  /** A round changes requests, rows, cache and tables only. */
  ghost predicate RoundFrame(s: Sched, s': Sched) {
    && s'.pending == s.pending && s'.running == s.running && s'.finished == s.finished && s'.freed == s.freed
    && s'.inflight == s.inflight && s'.deferred == s.deferred && s'.acks == s.acks
  }

  lemma {:induction false} StepFrame(cfg: Config, s: Sched, a: Adder, p: Pending)
    requires TryAddOne(cfg, s, a, p).Some?
    ensures var (s', a', q) := TryAddOne(cfg, s, a, p).value;
            RoundFrame(s, s') && q.uid == p.uid && s'.reqs == s.reqs[p.uid := q]
  {
    hide LongestMatch, WriteRow, Avail, SlotsOf;
  }

  lemma {:induction false} RoundIs(cfg: Config, s: Sched, a: Adder, queue: seq<Pending>)
    requires DistinctUids(queue)
    ensures var r := AddAll(cfg, s, a, queue);
            && RoundFrame(s, r.s) && r.s.reqs.Keys == s.reqs.Keys + UidsOf(r.added)
            && (forall i {:trigger r.added[i]} | 0 <= i < |r.added| :: Get(r.s.reqs, r.added[i].uid) == r.added[i])
            && (forall u {:trigger Get(r.s.reqs, u)} | u !in UidsOf(r.added) :: Get(r.s.reqs, u) == Get(s.reqs, u))
    decreases |queue|
  {
    hide TryAddOne;
    if queue != [] && TryAddOne(cfg, s, a, queue[0]).Some? {
      var (s1, a1, q) := TryAddOne(cfg, s, a, queue[0]).value;
      StepFrame(cfg, s, a, queue[0]);
      assert forall i | 0 <= i < |queue[1..]| :: queue[1..][i] == queue[i + 1];
      RoundIs(cfg, s1, a1, queue[1..]);
      var rest := AddAll(cfg, s1, a1, queue[1..]);
      var r := AddAll(cfg, s, a, queue);
      assert r.added == [q] + rest.added && r.added[1..] == rest.added;
      NotAgain(cfg, s1, a1, queue[1..], q.uid);
      forall i | 0 <= i < |r.added|
        ensures Get(r.s.reqs, r.added[i].uid) == r.added[i]
      {
        if i > 0 {
          assert r.added[i] == rest.added[i - 1];
        }
      }
      forall u | u !in UidsOf(r.added)
        ensures Get(r.s.reqs, u) == Get(s.reqs, u)
      {
        assert Get(s1.reqs, u) == Get(s.reqs, u);
      }
    }
  }

  lemma {:induction false} NotAgain(cfg: Config, s: Sched, a: Adder, queue: seq<Pending>, u: int)
    requires forall i {:trigger queue[i]} | 0 <= i < |queue| :: queue[i].uid != u
    ensures u !in UidsOf(AddAll(cfg, s, a, queue).added)
  {
    hide AddAll;
    var added := AddAll(cfg, s, a, queue).added;
    if u in UidsOf(added) {
      var i := UidAt(added, u);
      AddedUids(cfg, s, a, queue, i);
    }
  }

  lemma {:induction false} UidAt(added: seq<Req>, u: int) returns (i: nat)
    requires u in UidsOf(added)
    ensures i < |added| && added[i].uid == u
    decreases |added|
  {
    if added[0].uid == u {
      i := 0;
    } else {
      i := UidAt(added[1..], u);
      i := i + 1;
    }
  }

  /** A queue entry that was taken, and comes back for the next chunk of its prompt. */
  ghost predicate CameBack(todo: seq<Pending>, added: seq<Req>, p: Pending)
    requires |added| <= |todo|
  {
    p.chunk && exists i {:trigger added[i]} :: 0 <= i < |added| && todo[i].uid == p.uid && added[i].chunked
  }

  lemma {:induction false} CameBackRest(todo: seq<Pending>, added: seq<Req>, p: Pending)
    requires 0 < |added| <= |todo| && DistinctUids(todo) && CameBack(todo[1..], added[1..], p)
    ensures CameBack(todo, added, p) && p.uid != todo[0].uid
  {
    var i :| 0 <= i < |added[1..]| && todo[1..][i].uid == p.uid && added[1..][i].chunked;
    assert added[i + 1].chunked && todo[i + 1].uid == p.uid && todo[0].uid != todo[i + 1].uid;
  }

  /** The entries that come back for their next chunk are among those taken, in order. */
  lemma {:induction false} ChunkBack(todo: seq<Pending>, added: seq<Req>)
    requires |added| <= |todo| && DistinctUids(todo)
    ensures DistinctUids(ChunkList(todo, added))
    ensures forall p | p in ChunkList(todo, added) :: CameBack(todo, added, p)
    decreases |added|
  {
    hide CameBack;
    if added != [] {
      assert forall i | 0 <= i < |todo[1..]| :: todo[1..][i] == todo[i + 1];
      ChunkBack(todo[1..], added[1..]);
      var rest := ChunkList(todo[1..], added[1..]);
      forall p | p in rest
        ensures CameBack(todo, added, p) && p.uid != todo[0].uid
      {
        CameBackRest(todo, added, p);
      }
      ChunkFront(todo, added, rest);
    }
  }

  lemma {:induction false} ChunkFront(todo: seq<Pending>, added: seq<Req>, rest: seq<Pending>)
    requires 0 < |added| <= |todo| && rest == ChunkList(todo[1..], added[1..]) && DistinctUids(rest)
    requires forall p | p in rest :: CameBack(todo, added, p) && p.uid != todo[0].uid
    ensures DistinctUids(ChunkList(todo, added))
    ensures forall p | p in ChunkList(todo, added) :: CameBack(todo, added, p)
  {
    var l := ChunkList(todo, added);
    if added[0].chunked {
      assert l == [todo[0].(chunk := true)] + rest;
      assert forall i | 0 < i < |l| :: l[i] == rest[i - 1] && l[i] in rest;
    } else {
      assert l == rest;
    }
  }

  lemma {:induction false} QueueBack(todo: seq<Pending>, added: seq<Req>)
    requires |added| <= |todo| && DistinctUids(todo)
    ensures var q := ChunkList(todo, added) + todo[|added|..];
            && DistinctUids(q) && PendingUids(q) <= PendingUids(todo)
            && (forall p | p in q :: p in todo[|added|..] || CameBack(todo, added, p))
            && (forall p | p in q && !p.chunk :: p in todo[|added|..])
  {
    hide ChunkList;
    ChunkBack(todo, added);
    BackDistinct(todo, added);
    var c := ChunkList(todo, added);
    forall p | p in c + todo[|added|..]
      ensures p.uid in PendingUids(todo)
    {
      if p in c {
        var k :| 0 <= k < |added| && todo[k].uid == p.uid && added[k].chunked;
        assert todo[k] in todo;
      } else {
        assert p in todo;
      }
    }
  }

  lemma {:induction false} BackDistinct(todo: seq<Pending>, added: seq<Req>)
    requires |added| <= |todo| && DistinctUids(todo)
    ensures DistinctUids(ChunkList(todo, added) + todo[|added|..])
  {
    hide ChunkList;
    ChunkBack(todo, added);
    var c, rest := ChunkList(todo, added), todo[|added|..];
    var q := c + rest;
    forall i, j | 0 <= i < j < |q|
      ensures q[i].uid != q[j].uid
    {
      if i < |c| <= j {
        assert c[i] in c;
        var k :| 0 <= k < |added| && todo[k].uid == c[i].uid && added[k].chunked;
        assert q[j] == todo[|added| + (j - |c|)];
      } else if i >= |c| {
        assert q[i] == todo[|added| + (i - |c|)] && q[j] == todo[|added| + (j - |c|)];
      }
    }
  }

  /** The control part of launching a batch. */
  ghost predicate Launched(s: Sched, s': Sched, f: Option<Flight>) {
    && s'.finished == s.finished && s'.freed == s.freed && s'.acks == s.acks
    && s'.inflight == s.inflight && s'.deferred == s.deferred
    && DistinctUids(s'.pending) && PendingUids(s'.pending) <= PendingUids(s.pending)
    && DistinctEntries(LastEntries(f)) && LastUids(f) <= PendingUids(s.pending) + s.running
    && s'.running <= s.running + LastUids(f)
    && s'.reqs.Keys == s.reqs.Keys + LastUids(f)
    && (f.Some? ==> |f.value.tokens| == |f.value.batch.entries|)
    && PlainIdle(s', f)
  }

  /** A request of the batch in flight that is not a chunk is not queued. */
  ghost predicate PlainIdle(s: Sched, f: Option<Flight>) {
    forall i {:trigger LastEntries(f)[i]} | 0 <= i < |LastEntries(f)| && !LastEntries(f)[i].chunked ::
      LastEntries(f)[i].uid !in PendingUids(s.pending)
  }

  /** What the loop keeps between its steps: a new queue entry was never admitted, a chunk was, and nothing queued runs.
  */
  ghost predicate Ctrl(s: Sched) {
    && DistinctUids(s.pending) && s.running <= s.reqs.Keys && PendingUids(s.pending) !! s.running
    && forall p {:trigger p in s.pending} | p in s.pending :: p.chunk <==> p.uid in s.reqs
  }

  // ---- scheduling

  /** Queue, batch and requests after scheduling. */
  ghost predicate Scheduled(s: Sched, s1: Sched, es: seq<Entry>) {
    && s1.finished == s.finished && s1.freed == s.freed && s1.acks == s.acks && s1.running == s.running
    && s1.inflight == s.inflight && s1.deferred == s.deferred
    && DistinctUids(s1.pending) && PendingUids(s1.pending) <= PendingUids(s.pending)
    && DistinctEntries(es) && Uids(es) <= PendingUids(s.pending) + s.running
    && s1.reqs.Keys == s.reqs.Keys + Uids(es)
    && (forall p {:trigger p in s1.pending} | p in s1.pending :: p.chunk <==> p.uid in s1.reqs)
    && (forall i {:trigger es[i]} | 0 <= i < |es| ::
          if es[i].chunked then Get(s1.reqs, es[i].uid).chunked else es[i].uid !in PendingUids(s1.pending))
  }

  /** The queue after a prefill batch was taken. */
  ghost function QueueAfterRound(s: Sched, r: Round): seq<Pending>
    requires |r.added| <= |s.pending|
  {
    ChunkList(s.pending, r.added) + s.pending[|r.added|..]
  }

  /** One entry of a prefill batch: it was queued, and a chunk is the only kind that still is. */
  lemma {:induction false} PrefillEntry(cfg: Config, s: Sched, a: Adder, i: nat)
    requires Ctrl(s) && i < |AddAll(cfg, s, a, s.pending).added|
    ensures var r := AddAll(cfg, s, a, s.pending);
            var e := EntriesOf(r.added);
            && |e| == |r.added| && e[i].uid in PendingUids(s.pending)
            && (if e[i].chunked then Get(r.s.reqs, e[i].uid).chunked
                else e[i].uid !in PendingUids(QueueAfterRound(s, r)))
  {
    hide AddAll, ChunkList, UidsOf, CameBack;
    var r := AddAll(cfg, s, a, s.pending);
    RoundIs(cfg, s, a, s.pending);
    QueueBack(s.pending, r.added);
    EntriesAre(r.added);
    AddedUids(cfg, s, a, s.pending, i);
    var q := QueueAfterRound(s, r);
    assert s.pending[i] in s.pending;
    if r.added[i].uid in PendingUids(q) {
      var p :| p in q && p.uid == r.added[i].uid;
      BackChunked(s.pending, r.added, p, i);
    }
  }

  lemma {:induction false} PrefillScheduled(cfg: Config, s: Sched, a: Adder)
    requires Ctrl(s)
    ensures var r := AddAll(cfg, s, a, s.pending);
            Scheduled(s, r.s.(pending := QueueAfterRound(s, r)), EntriesOf(r.added))
  {
    hide AddAll, ChunkList, UidsOf, PendingUids, CameBack, Uids;
    var r := AddAll(cfg, s, a, s.pending);
    var q, es := QueueAfterRound(s, r), EntriesOf(r.added);
    RoundIs(cfg, s, a, s.pending);
    QueueBack(s.pending, r.added);
    EntriesAre(r.added);
    forall i | 0 <= i < |es|
      ensures es[i].uid in PendingUids(s.pending) && es[i].uid == s.pending[i].uid
      ensures if es[i].chunked then Get(r.s.reqs, es[i].uid).chunked else es[i].uid !in PendingUids(q)
    {
      PrefillEntry(cfg, s, a, i);
      AddedUids(cfg, s, a, s.pending, i);
    }
    forall u | u in Uids(es)
      ensures u in PendingUids(s.pending)
    {
      var i := EntryOf(es, u);
    }
    forall p | p in q
      ensures p.chunk <==> p.uid in r.s.reqs
    {
      BackKeys(cfg, s, a, p);
    }
  }

  /** A queued entry with the uid of a taken one is that one, come back as a chunk. */
  lemma {:induction false} BackChunked(todo: seq<Pending>, added: seq<Req>, p: Pending, i: nat)
    requires DistinctUids(todo) && |added| <= |todo| && i < |added| && todo[i].uid == p.uid == added[i].uid
    requires p in todo[|added|..] || CameBack(todo, added, p)
    ensures added[i].chunked
  {
    RestApart(todo, |added|, p, i);
    var j :| 0 <= j < |added| && todo[j].uid == p.uid && added[j].chunked;
    assert !(i < j) && !(j < i);
  }

  lemma {:induction false} RestApart(todo: seq<Pending>, k: nat, p: Pending, i: nat)
    requires DistinctUids(todo) && i < k <= |todo|
    ensures p in todo[k..] ==> p.uid != todo[i].uid
  {
    if p in todo[k..] {
      var j :| 0 <= j < |todo[k..]| && todo[k..][j] == p;
      assert todo[k + j] == p;
    }
  }

  lemma {:induction false} BackKeys(cfg: Config, s: Sched, a: Adder, p: Pending)
    requires Ctrl(s)
    requires p in ChunkList(s.pending, AddAll(cfg, s, a, s.pending).added)
                  + s.pending[|AddAll(cfg, s, a, s.pending).added|..]
    ensures p.chunk <==> p.uid in AddAll(cfg, s, a, s.pending).s.reqs
  {
    hide AddAll, ChunkList, UidsOf;
    var r := AddAll(cfg, s, a, s.pending);
    RoundIs(cfg, s, a, s.pending);
    QueueBack(s.pending, r.added);
    ChunkBack(s.pending, r.added);
    if p in s.pending[|r.added|..] {
      var k :| 0 <= k < |s.pending[|r.added|..]| && s.pending[|r.added|..][k] == p;
      assert s.pending[|r.added| + k] == p && p in s.pending;
      if p.uid in UidsOf(r.added) {
        var i := UidAt(r.added, p.uid);
        AddedUids(cfg, s, a, s.pending, i);
      }
    } else {
      var i :| 0 <= i < |r.added| && s.pending[i].uid == p.uid && r.added[i].chunked;
      AddedUids(cfg, s, a, s.pending, i);
      UidIn(r.added, i);
    }
  }

  lemma {:induction false} UidIn(added: seq<Req>, i: nat)
    requires i < |added|
    ensures added[i].uid in UidsOf(added)
    decreases |added|
  {
    if i > 0 {
      UidIn(added[1..], i - 1);
    }
  }

  lemma {:induction false} DecodeScheduled(s: Sched)
    requires Ctrl(s)
    ensures Scheduled(s, s, DecodeEntries(Sorted(s.running)))
  {
    hide Sorted;
    var es := DecodeEntries(Sorted(s.running));
    SortedUids(s.running);
    forall i | 0 <= i < |es|
      ensures es[i].uid in s.running
    {
      assert Sorted(s.running)[i] in Sorted(s.running);
    }
  }

  lemma {:induction false} ScheduleIs(cfg: Config, s: Sched)
    requires Ctrl(s)
    ensures var (s1, b) := Schedule(cfg, s);
            if b.None? then s1 == s else Scheduled(s, s1, b.value.entries)
  {
    hide AddAll, ChunkList, Scheduled, Sorted, InflightTokens, Ctrl;
    PrefillScheduled(cfg, s, Adder(cfg.budget, InflightTokens(cfg, s)));
    DecodeScheduled(s);
  }

  lemma {:induction false} PrepareFrame(cfg: Config, s: Sched, b: Batch, ev: Eviction)
    ensures Prepare(cfg, s, b, ev) == s.(cache := Prepare(cfg, s, b, ev).cache, table := Prepare(cfg, s, b, ev).table)
  {
    hide AssignPages, PagesFor, Allocated, AllocOp;
  }

  lemma {:induction false} RunLaunched(cfg: Config, s: Sched, s1: Sched, b: Batch, ev: Eviction, tokens: seq<int>)
    requires Ctrl(s) && Scheduled(s, s1, b.entries) && |tokens| == |b.entries|
    ensures var s' := Forward(cfg, Prepare(cfg, s1, b, ev), b, tokens);
            Launched(s, s', Some(Flight(b, tokens))) && Ctrl(s')
  {
    hide Prepare, Commit, Uids, DistinctEntries, PendingUids, DistinctUids;
    PrepareFrame(cfg, s1, b, ev);
    var s2 := Prepare(cfg, s1, b, ev);
    CommitAdvances(cfg, s2, b.entries, tokens);
    var s3 := Commit(cfg, s2, b.entries, tokens);
    var s' := Filter(s3, b.entries);
    assert s'.reqs.Keys == s1.reqs.Keys;
    forall u | u in s'.running
      ensures u !in PendingUids(s'.pending)
    {
      if u in Uids(b.entries) {
        var i := EntryOf(b.entries, u);
        assert Get(s3.reqs, u) == Get(s1.reqs, u).CompleteOne();
      }
    }
  }

  /** Launching a batch keeps the control invariant. */
  lemma {:induction false} LaunchIs(cfg: Config, s: Sched, i: Input)
    requires Ctrl(s)
    ensures var (s', f) := Launch(cfg, s, i); Launched(s, s', f) && Ctrl(s')
  {
    hide Schedule, Prepare, Forward, Scheduled, Ctrl, Launched;
    ScheduleIs(cfg, s);
    var (s1, b) := Schedule(cfg, s);
    if b.Some? {
      RunLaunched(cfg, s, s1, b.value, i.ev, TokensFor(b.value, i.tokens));
    } else {
      NothingLaunched(s);
    }
  }

  lemma {:induction false} NothingLaunched(s: Sched)
    requires Ctrl(s)
    ensures Launched(s, s, None)
  {
    NoUids();
  }

  // ---- messages

  lemma {:induction false} UserCtrl(cfg: Config, s: Sched, m: Msg)
    requires Ctrl(s) && Fresh(s, m) && m.UserMsg?
    ensures Ctrl(ProcessMsg(cfg, s, m))
    ensures PendingUids(ProcessMsg(cfg, s, m).pending) <= PendingUids(s.pending) + {m.uid}
  {
    hide Clamp;
    if |m.ids| < cfg.maxSeqLen {
      var p := Pending(m.uid, m.ids, Clamp(cfg, m.params, |m.ids|), false);
      AppendUids(s.pending, p);
    }
  }

  lemma {:induction false} AppendUids(ps: seq<Pending>, p: Pending)
    requires DistinctUids(ps) && forall i | 0 <= i < |ps| :: ps[i].uid != p.uid
    ensures DistinctUids(ps + [p]) && PendingUids(ps + [p]) == PendingUids(ps) + {p.uid}
  {
    forall x
      ensures x in ps + [p] <==> x in ps || x == p
    {
    }
    assert p in ps + [p];
  }

  /** The state after the queue and the running set were cleared of `u`. */
  ghost function Cleared(s: Sched, u: int): Sched {
    s.(pending := DropPending(s.pending, u), running := s.running - {u})
  }

  lemma {:induction false} ClearedCtrl(s: Sched, u: int)
    requires Ctrl(s)
    ensures Ctrl(Cleared(s, u)) && PendingUids(Cleared(s, u).pending) == PendingUids(s.pending) - {u}
  {
    hide DropPending;
    DropMembers(s.pending, u);
    DropDistinct(s.pending, u);
    forall p | p in s.pending && p.uid != u
      ensures p in DropPending(s.pending, u)
    {
    }
  }

  lemma {:induction false} DropDistinct(ps: seq<Pending>, u: int)
    requires DistinctUids(ps)
    ensures DistinctUids(DropPending(ps, u))
  {
    DropIndex(ps, u);
    hide DropPending;
    var q, k := DropPending(ps, u), FindPending(ps, u);
    forall i, j | 0 <= i < j < |q|
      ensures q[i].uid != q[j].uid
    {
      assert q[i] == ps[if i < k then i else i + 1] && q[j] == ps[if j < k then j else j + 1];
    }
  }

  /** What an abort does, case by case: deferred while the request is in flight, released at once if it holds anything,
  and otherwise only acknowledged. */
  ghost predicate Aborted(s: Sched, s': Sched, u: int) {
    && s'.pending == Cleared(s, u).pending && s'.running == s.running - {u} && s'.reqs == s.reqs
    && s'.finished == s.finished && s'.inflight == s.inflight
    && s'.deferred == (if u in s.inflight then s.deferred + {u} else s.deferred)
    && s'.acks == (if u in s.inflight then s.acks else s.acks + [u])
    && s'.freed == (if u !in s.inflight && (u in s.running || (u in PendingUids(s.pending) && u in s.reqs))
                    then s.freed + [u] else s.freed)
  }

  lemma {:induction false} AbortIs(cfg: Config, s: Sched, u: int)
    requires Ctrl(s)
    ensures Aborted(s, ProcessMsg(cfg, s, AbortMsg(u)), u)
  {
    hide HandOver, DropPending;
    var k := FindPending(s.pending, u);
    if k < |s.pending| {
      assert s.pending[k] in s.pending;
    } else {
      forall p | p in s.pending
        ensures p.uid != u
      {
        var i :| 0 <= i < |s.pending| && s.pending[i] == p;
      }
    }
    if u !in s.running {
      assert s.running - {u} == s.running;
    }
    PendingHas(s.pending, u);
  }

  lemma {:induction false} PendingHas(ps: seq<Pending>, u: int)
    ensures u in PendingUids(ps) <==> FindPending(ps, u) < |ps|
  {
    var k := FindPending(ps, u);
    if k < |ps| {
      assert ps[k] in ps;
    }
    if u in PendingUids(ps) {
      var p :| p in ps && p.uid == u;
      var i :| 0 <= i < |ps| && ps[i] == p;
    }
  }

  lemma {:induction false} AbortCtrl(cfg: Config, s: Sched, u: int)
    requires Ctrl(s)
    ensures Aborted(s, ProcessMsg(cfg, s, AbortMsg(u)), u) && Ctrl(ProcessMsg(cfg, s, AbortMsg(u)))
    ensures PendingUids(ProcessMsg(cfg, s, AbortMsg(u)).pending) == PendingUids(s.pending) - {u}
  {
    hide HandOver, DropPending, ProcessMsg;
    AbortIs(cfg, s, u);
    ClearedCtrl(s, u);
  }
}
