/** Admission is sound when a page holds one token: what running requests and the queued chunk may still need never
exceeds what the cache can hand out, so no batch asks for more pages than are free or evictable. */
module SchedSound {
  import opened Paging
  import opened Sums
  import opened PrefixStore
  import opened CacheSpec
  import opened Requests
  import opened SchedSpec
  import opened SchedInv
  import opened SchedAdmit
  import opened SchedRound
  import opened SchedBatch
  import opened SchedForward
  import opened SchedPost
  import opened SchedRun

  // ---- what is still needed

  /** Tokens the running requests may still need. */
  ghost function RunNeed(s: Sched): nat {
    Total(RemainSum(s.reqs, s.running))
  }

  /** Tokens the queued chunk may still need: the rest of its prompt and all of its output. */
  ghost function ChunkNeed(s: Sched, queue: seq<Pending>): nat {
    if queue != [] && queue[0].chunk && Get(s.reqs, queue[0].uid).cachedLen <= |queue[0].ids|
    then |queue[0].ids| - Get(s.reqs, queue[0].uid).cachedLen + queue[0].params.maxTokens
    else 0
  }

  ghost function Need(s: Sched): nat {
    RunNeed(s) + ChunkNeed(s, s.pending)
  }

  /** What is still needed can be handed out. */
  ghost predicate Covered(s: Sched) {
    Need(s) <= Avail(s.cache)
  }

  // ---- sums over sets of requests

  ghost function Rem(reqs: map<int, Req>, u: int): nat {
    if Get(reqs, u).RemainLen() > 0 then Get(reqs, u).RemainLen() else 0
  }

  lemma {:induction false} RemAdd(reqs: map<int, Req>, us: set<int>, u: int)
    ensures Total(RemainSum(reqs, us + {u})) == Total(RemainSum(reqs, us)) + (if u in us then 0 else Rem(reqs, u))
  {
    if u in us {
      assert us + {u} == us;
    } else {
      TotalAdd(RemainSum(reqs, us), RemainSum(reqs, us + {u}), u);
    }
  }

  lemma {:induction false} RemSubset(reqs: map<int, Req>, us: set<int>, vs: set<int>)
    requires us <= vs
    ensures Total(RemainSum(reqs, us)) <= Total(RemainSum(reqs, vs))
    decreases |vs - us|
  {
    if vs - us == {} {
      assert us == vs;
    } else {
      var u := Member(vs - us);
      RemAdd(reqs, us, u);
      assert vs - (us + {u}) == (vs - us) - {u};
      RemSubset(reqs, us + {u}, vs);
    }
  }

  lemma {:induction false} RemSame(reqs: map<int, Req>, reqs': map<int, Req>, us: set<int>)
    requires forall u | u in us :: Get(reqs', u).RemainLen() == Get(reqs, u).RemainLen()
    ensures Total(RemainSum(reqs', us)) == Total(RemainSum(reqs, us))
  {
    assert RemainSum(reqs', us) == RemainSum(reqs, us);
  }

  /** When every request of the set advances by one step, the sum drops by one for each. */
  lemma {:induction false} RemStep(reqs: map<int, Req>, reqs': map<int, Req>, us: set<int>)
    requires forall u | u in us :: Get(reqs', u).RemainLen() == Get(reqs, u).RemainLen() - 1 >= 0
    ensures Total(RemainSum(reqs', us)) + |us| == Total(RemainSum(reqs, us))
    decreases |us|
  {
    if us == {} {
      assert RemainSum(reqs', us) == RemainSum(reqs, us) == map[];
    } else {
      var u := Member(us);
      var rest := us - {u};
      RemStep(reqs, reqs', rest);
      RemAdd(reqs, rest, u);
      RemAdd(reqs', rest, u);
      assert rest + {u} == us && |us| == |rest| + 1;
    }
  }

  // ---- messages

  lemma {:induction false} UserCovered(cfg: Config, s: Sched, m: Msg)
    requires Covered(s) && Fresh(s, m) && m.UserMsg?
    ensures Covered(ProcessMsg(cfg, s, m))
  {
    hide Avail, Clamp;
  }

  lemma {:induction false} DropNeed(cfg: Config, s: Sched, u: int)
    requires QueueOk(cfg, s, s.pending)
    ensures ChunkNeed(s, DropPending(s.pending, u)) <= ChunkNeed(s, s.pending)
  {
    DropQueue(cfg, s, s.(pending := DropPending(s.pending, u)), u);
    hide DropPending, PendOk, DistinctUids;
  }

  lemma {:induction false} AbortCovered(cfg: Config, s: Sched, u: int)
    requires NInv(cfg, s) && Covered(s)
    ensures Covered(ProcessMsg(cfg, s, AbortMsg(u)))
  {
    AbortKeeps(cfg, s, u);
    QueueOf(cfg, s, s.pending, {});
    AbortNeed(cfg, s, u);
  }

  lemma {:induction false} AbortNeed(cfg: Config, s: Sched, u: int)
    requires QueueOk(cfg, s, s.pending)
    ensures Need(ProcessMsg(cfg, s, AbortMsg(u))) <= Need(s)
  {
    hide HandOver, DropPending, FindPending, QueueOk;
    var s' := ProcessMsg(cfg, s, AbortMsg(u));
    DropNeed(cfg, s, u);
    RemSubset(s.reqs, s.running - {u}, s.running);
    assert s'.reqs == s.reqs && s'.pending == DropPending(s.pending, u);
    assert s'.running == s.running || s'.running == s.running - {u};
    assert ChunkNeed(s', s'.pending) == ChunkNeed(s, s'.pending);
  }

  lemma {:induction false} MsgsCovered(cfg: Config, s: Sched, msgs: seq<Msg>)
    requires NInv(cfg, s) && Covered(s) && AllFresh(cfg, s, msgs)
    ensures Covered(ProcessMsgs(cfg, s, msgs))
    decreases |msgs|
  {
    hide NInv, Fresh, ProcessMsg, Covered;
    if msgs != [] {
      MsgKeeps(cfg, s, msgs[0]);
      if msgs[0].UserMsg? {
        UserCovered(cfg, s, msgs[0]);
      } else {
        AbortCovered(cfg, s, msgs[0].uid);
      }
      MsgsCovered(cfg, ProcessMsg(cfg, s, msgs[0]), msgs[1..]);
    }
  }

  // ---- the admission round

  /** Tokens reserved for the entries a round took. */
  ghost function Reserve(added: seq<Req>, queue: seq<Pending>): int
    requires |added| <= |queue|
  {
    if added == [] then 0
    else |queue[0].ids| - added[0].cachedLen + queue[0].params.maxTokens + Reserve(added[1..], queue[1..])
  }

  lemma {:induction false} NoChunkNeed(cfg: Config, s: Sched, s': Sched, queue: seq<Pending>)
    requires QueueOk(cfg, s, queue) && queue != []
    ensures ChunkNeed(s', queue[1..]) == 0
  {
    hide PendOk, DistinctUids;
    assert |queue| > 1 ==> queue[1..][0] == queue[1];
  }

  /** A step of the round reserves what the entry may need, and only what the cache can hand out. */
  lemma {:induction false} StepCovered(cfg: Config, s: Sched, a: Adder, queue: seq<Pending>, busy: set<int>)
    requires cfg.ps == 1 && LInv(cfg, s, queue, busy) && Apart(queue, busy) && queue != []
    requires TryAddOne(cfg, s, a, queue[0]).Some? && a.reserved + ChunkNeed(s, queue) <= Avail(s.cache)
    ensures var (s', a', q) := TryAddOne(cfg, s, a, queue[0]).value;
            && a'.reserved + ChunkNeed(s', queue[1..]) <= Avail(s'.cache)
            && a'.reserved == a.reserved + |queue[0].ids| - q.cachedLen + queue[0].params.maxTokens
  {
    hide LInv, Avail, AddedFrom, Gave, NewAdmit, LongestMatch, AddReq, Apart;
    QueueOf(cfg, s, queue, busy);
    var (s', a', q) := TryAddOne(cfg, s, a, queue[0]).value;
    NoChunkNeed(cfg, s, s', queue);
    if queue[0].chunk {
      ChunkStep(cfg, s, a, queue, busy);
      StepUid(cfg, s, a, queue[0]);
      HeadNeed(cfg, s, queue, busy);
    } else {
      NewStep(cfg, s, a, queue, busy);
      EstimateFits(cfg, s, a, queue[0]);
    }
  }

  lemma {:induction false} QueueOf(cfg: Config, s: Sched, queue: seq<Pending>, busy: set<int>)
    requires LInv(cfg, s, queue, busy)
    ensures QueueOk(cfg, s, queue)
  {
    hide RInv, QueueOk, HeadOk, RunningOk;
  }

  lemma {:induction false} HeadNeed(cfg: Config, s: Sched, queue: seq<Pending>, busy: set<int>)
    requires LInv(cfg, s, queue, busy) && queue != [] && queue[0].chunk
    ensures ChunkNeed(s, queue) == |queue[0].ids| - Get(s.reqs, queue[0].uid).cachedLen + queue[0].params.maxTokens
  {
    hide RInv, QueueOk, RunningOk;
  }

  lemma {:induction false} EstimateFits(cfg: Config, s: Sched, a: Adder, p: Pending)
    requires cfg.ps == 1 && !p.chunk && TryAddOne(cfg, s, a, p).Some?
    ensures var (s', a', q) := TryAddOne(cfg, s, a, p).value;
            |p.ids| - q.cachedLen + p.params.maxTokens + a.reserved <= Avail(s'.cache)
  {
    hide Avail, LongestMatch, WriteRow, SlotsOf;
  }

  lemma {:induction false} RoundCovered(cfg: Config, s: Sched, a: Adder, queue: seq<Pending>, busy: set<int>)
    requires cfg.ps == 1 && LInv(cfg, s, queue, busy) && Apart(queue, busy) && a.budget >= 0
    requires a.reserved + ChunkNeed(s, queue) <= Avail(s.cache)
    ensures var r := AddAll(cfg, s, a, queue);
            && r.a.reserved == a.reserved + Reserve(r.added, queue)
            && r.a.reserved + ChunkNeed(r.s, queue[|r.added|..]) <= Avail(r.s.cache)
    decreases |queue|
  {
    hide LInv, Apart, TryAddOne, Avail, ChunkNeed, AddedFrom, Gave;
    if queue == [] || TryAddOne(cfg, s, a, queue[0]).None? {
      assert queue[0..] == queue;
    } else {
      var (s1, a1, q) := TryAddOne(cfg, s, a, queue[0]).value;
      StepKeeps(cfg, s, a, queue, busy);
      StepCovered(cfg, s, a, queue, busy);
      RoundCovered(cfg, s1, a1, queue[1..], busy + {q.uid});
      var r := AddAll(cfg, s1, a1, queue[1..]);
      assert ([q] + r.added)[1..] == r.added;
      assert queue[|r.added| + 1..] == queue[1..][|r.added|..];
    }
  }

  // ---- the batch a round makes

  /** Pages of a batch when a page holds one token: one for each token it computes. */
  lemma {:induction false} PagesAreWork(cfg: Config, s: Sched, added: seq<Req>, queue: seq<Pending>)
    requires cfg.ps == 1 && AllAdded(s, added, queue)
    ensures PagesFor(cfg, s.reqs, EntriesOf(added)) == Work(added)
    decreases |added|
  {
    if added != [] {
      AllAddedRest(s, added, queue);
      PagesAreWork(cfg, s, added[1..], queue[1..]);
      OnePageEach(added[0]);
      var es := EntriesOf(added);
      assert es[1..] == EntriesOf(added[1..]);
    }
  }

  lemma {:induction false} AllAddedRest(s: Sched, added: seq<Req>, queue: seq<Pending>)
    requires AllAdded(s, added, queue) && added != []
    ensures AddedFrom(s, added[0], queue[0]) && AllAdded(s, added[1..], queue[1..])
  {
    assert forall i | 0 <= i < |added[1..]| :: added[1..][i] == added[i + 1] && queue[1..][i] == queue[i + 1];
  }

  lemma {:induction false} OnePageEach(r: Req)
    requires r.cachedLen <= r.deviceLen
    ensures PagesNeeded(r, 1) == r.deviceLen - r.cachedLen
  {
    CeilOne(r.cachedLen);
    CeilOne(r.deviceLen);
  }

  lemma {:induction false} CeilOne(n: nat)
    ensures DivCeil(n, 1) == n
    decreases n
  {
    if n > 0 {
      CeilOne(n - 1);
    }
  }

  /** What the requests of a round may still need after their step, chunks aside. */
  ghost function NextRem(added: seq<Req>): nat {
    if added == [] then 0
    else (if added[0].chunked || added[0].maxLen <= added[0].deviceLen then 0
          else added[0].maxLen - added[0].deviceLen - 1) + NextRem(added[1..])
  }

  /** The tokens computed now and those needed later are within what was reserved. */
  lemma {:induction false} WorkReserved(s: Sched, added: seq<Req>, queue: seq<Pending>)
    requires AllAdded(s, added, queue) && LastChunked(added)
    ensures Work(added) + NextRem(added)
            + (if added != [] && added[|added| - 1].chunked
               then |queue[|added| - 1].ids| - added[|added| - 1].deviceLen + queue[|added| - 1].params.maxTokens
                 else 0)
         <= Reserve(added, queue)
    decreases |added|
  {
    if added != [] {
      AllAddedRest(s, added, queue);
      LastRest(added);
      WorkReserved(s, added[1..], queue[1..]);
      if |added| > 1 {
        assert added[1..][|added| - 2] == added[|added| - 1] && queue[1..][|added| - 2] == queue[|added| - 1];
        assert !added[0].chunked;
      }
    }
  }

  lemma {:induction false} LastRest(added: seq<Req>)
    requires LastChunked(added) && added != []
    ensures LastChunked(added[1..])
  {
    assert forall i | 0 <= i < |added[1..]| :: added[1..][i] == added[i + 1];
  }

  /** The requests of a round add to the running sum at most what they may still need. */
  lemma {:induction false} RemWaiting(s: Sched, added: seq<Req>, queue: seq<Pending>, s': Sched, us: set<int>)
    requires AllAdded(s, added, queue)
    requires forall u {:trigger Get(s'.reqs, u)} | u in UidsOf(added) :: Get(s'.reqs, u) == Get(s.reqs, u).CompleteOne()
    ensures Total(RemainSum(s'.reqs, us + Waiting(EntriesOf(added)))) <= Total(RemainSum(s'.reqs, us)) + NextRem(added)
    decreases |added|
  {
    hide Uids;
    if added == [] {
      NoWaiting();
      assert us + {} == us;
    } else {
      var e, rest := Entry(added[0].uid, added[0].chunked), EntriesOf(added[1..]);
      AllAddedRest(s, added, queue);
      RemWaiting(s, added[1..], queue[1..], s', us);
      assert EntriesOf(added) == [e] + rest;
      WaitingCons(e, rest);
      assert Get(s'.reqs, added[0].uid) == Get(s.reqs, added[0].uid).CompleteOne();
      if added[0].chunked {
        assert us + Waiting([e] + rest) == us + Waiting(rest);
      } else {
        RemAdd(s'.reqs, us + Waiting(rest), added[0].uid);
        assert us + Waiting([e] + rest) == us + Waiting(rest) + {added[0].uid};
      }
    }
  }

  // ---- from the schedule to the end of the forward pass

  /** The requests advance, the running set is filtered, the queue stays: what `Forward` does to the fields that
  determine what is needed. */
  ghost predicate Forwarded(s: Sched, s': Sched, b: Batch) {
    && s'.pending == s.pending && s'.running <= s.running + Waiting(b.entries)
    && (forall u {:trigger Get(s'.reqs, u)} | u in Uids(b.entries) ::
          Get(s'.reqs, u) == Get(s.reqs, u).CompleteOne())
    && (forall u {:trigger Get(s'.reqs, u)} | u !in Uids(b.entries) :: Get(s'.reqs, u) == Get(s.reqs, u))
  }

  lemma {:induction false} PrefillCovered(cfg: Config, s: Sched, a: Adder, r: Round, s': Sched, others: set<int>)
    requires cfg.ps == 1 && LInv(cfg, s, s.pending, others) && Aside(s, others)
    requires RoundOk(cfg, s, a, s.pending, others, r) && r.added != []
    requires a.reserved == RunNeed(s) && r.a.reserved == a.reserved + Reserve(r.added, s.pending)
    requires r.a.reserved <= Avail(r.s.cache)
    requires Forwarded(r.s.(pending := NextQueue(s.pending, r.added)), s', Batch(EntriesOf(r.added), true))
    ensures PagesFor(cfg, r.s.reqs, EntriesOf(r.added)) + Need(s') <= Avail(r.s.cache)
  {
    hide LInv, Avail, AllAdded, LastChunked, UidsOf, NextQueue, Waiting, Uids, Reserve, Work, NextRem, PagesFor;
    PagesAreWork(cfg, r.s, r.added, s.pending);
    WorkReserved(r.s, r.added, s.pending);
    EntriesAre(r.added);
    RemWaiting(r.s, r.added, s.pending, s', s.running);
    RemSubset(s'.reqs, s'.running, s.running + Waiting(EntriesOf(r.added)));
    RunningKept(cfg, s, a, r, s', others);
    RemSame(s.reqs, s'.reqs, s.running);
    NextChunkNeed(cfg, s, a, r, s', others);
  }

  lemma {:induction false} RunningKept(cfg: Config, s: Sched, a: Adder, r: Round, s': Sched, others: set<int>)
    requires LInv(cfg, s, s.pending, others) && Aside(s, others) && RoundOk(cfg, s, a, s.pending, others, r)
    requires Forwarded(r.s.(pending := NextQueue(s.pending, r.added)), s', Batch(EntriesOf(r.added), true))
    ensures forall u | u in s.running :: Get(s'.reqs, u).RemainLen() == Get(s.reqs, u).RemainLen()
  {
    hide RInv, HeadOk, LastChunked, NextQueue, Waiting, Uids, UidsOf, Work, ChunkUids, PendOk;
    EntriesAre(r.added);
    forall u | u in s.running
      ensures Get(s'.reqs, u) == Get(s.reqs, u)
    {
      assert RunOk(cfg, s, u);
      UidsAreQueued(r.s, r.added, s.pending, u);
      assert u !in UidsOf(r.added);
    }
  }

  lemma {:induction false} NextChunkNeed(cfg: Config, s: Sched, a: Adder, r: Round, s': Sched, others: set<int>)
    requires LInv(cfg, s, s.pending, others) && RoundOk(cfg, s, a, s.pending, others, r) && r.added != []
    requires Forwarded(r.s.(pending := NextQueue(s.pending, r.added)), s', Batch(EntriesOf(r.added), true))
    ensures ChunkNeed(s', s'.pending)
         == (if r.added[|r.added| - 1].chunked
             then |s.pending[|r.added| - 1].ids| - r.added[|r.added| - 1].deviceLen
                  + s.pending[|r.added| - 1].params.maxTokens
             else 0)
  {
    hide RInv, HeadOk, RunningOk, LastChunked, NextQueue, Waiting, Uids, UidsOf, Work, ChunkUids, LInv;
    QueueOf(cfg, s, s.pending, others);
    QueueHead(cfg, s, r.added);
    EntriesAre(r.added);
    AddedUid(r.s, r.added, s.pending, |r.added| - 1);
    assert AddedFrom(r.s, r.added[|r.added| - 1], s.pending[|r.added| - 1]);
    assert Get(s'.reqs, r.added[|r.added| - 1].uid) == r.added[|r.added| - 1].CompleteOne();
  }

  lemma {:induction false} QueueOfLive(cfg: Config, s: Sched, others: set<int>)
    requires LInv(cfg, s, s.pending, others)
    ensures QueueOk(cfg, s, s.pending) && RunningOk(cfg, s, others)
  {
    hide RInv, QueueOk, HeadOk, RunningOk;
  }

  // ---- a decode batch

  lemma {:induction false} DecodePages(cfg: Config, s: Sched, us: seq<int>)
    requires cfg.ps == 1 && forall i | 0 <= i < |us| :: Get(s.reqs, us[i]).deviceLen == Get(s.reqs, us[i]).cachedLen + 1
    ensures PagesFor(cfg, s.reqs, DecodeEntries(us)) == |us|
    decreases |us|
  {
    if us != [] {
      OnePageEach(Get(s.reqs, us[0]));
      DecodePages(cfg, s, us[1..]);
      assert DecodeEntries(us)[1..] == DecodeEntries(us[1..]);
    }
  }

  lemma {:induction false} SortedLength(us: set<int>)
    ensures |Sorted(us)| == |us|
    decreases |us|
  {
    if us != {} {
      LeastExists(us);
      var m :| Least(m, us) && Sorted(us) == [m] + Sorted(us - {m});
      SortedLength(us - {m});
    }
  }

  lemma {:induction false} DecodeCovered(cfg: Config, s: Sched, s': Sched, others: set<int>)
    requires cfg.ps == 1 && LInv(cfg, s, s.pending, others) && Aside(s, others) && Covered(s)
    requires Forwarded(s, s', Batch(DecodeEntries(Sorted(s.running)), false))
    ensures PagesFor(cfg, s.reqs, DecodeEntries(Sorted(s.running))) + Need(s') <= Avail(s.cache)
  {
    hide RInv, PendOk, Avail, Sorted, Waiting, Uids, PagesFor, DoneOk, ChunkUids;
    var us := Sorted(s.running);
    SortedUids(s.running);
    forall i | 0 <= i < |us|
      ensures Get(s.reqs, us[i]).deviceLen == Get(s.reqs, us[i]).cachedLen + 1
    {
      assert us[i] in us;
      assert RunOk(cfg, s, us[i]);
    }
    DecodePages(cfg, s, us);
    SortedLength(s.running);
    forall u | u in s.running
      ensures Get(s'.reqs, u).RemainLen() == Get(s.reqs, u).RemainLen() - 1 >= 0
    {
      assert RunOk(cfg, s, u);
    }
    RemStep(s.reqs, s'.reqs, s.running);
    WaitingUids(DecodeEntries(us));
    RemSubset(s'.reqs, s'.running, s.running);
    ChunkNotRunning(cfg, s, s', others);
  }

  lemma {:induction false} ChunkNotRunning(cfg: Config, s: Sched, s': Sched, others: set<int>)
    requires LInv(cfg, s, s.pending, others) && Forwarded(s, s', Batch(DecodeEntries(Sorted(s.running)), false))
    ensures ChunkNeed(s', s'.pending) == ChunkNeed(s, s.pending)
  {
    hide RInv, PendOk, Sorted, Waiting, Uids, DoneOk, HeadOk, RunningOk, DistinctUids;
    SortedUids(s.running);
  }

  // ---- a tick

  lemma {:induction false} ForwardIs(cfg: Config, s: Sched, b: Batch, ev: Eviction, tokens: seq<int>,
                                     others: set<int> := {})
    requires RInv(cfg, s, {}, []) && Planned(cfg, s, b, others) && CanPrepare(cfg, s, b, ev) && |tokens| == |b.entries|
    ensures Forwarded(s, Forward(cfg, Prepare(cfg, s, b, ev), b, tokens), b)
    ensures Forward(cfg, Prepare(cfg, s, b, ev), b, tokens).cache == Prepare(cfg, s, b, ev).cache
  {
    hide RInv, Planned, CanPrepare, Prepare, Commit, Uids, Waiting, DistinctEntries;
    PrepareKeeps(cfg, s, b, ev, others);
    var s1 := Prepare(cfg, s, b, ev);
    PlannedPrepared(cfg, s, s1, b, others);
    PlannedEntries(cfg, s1, b, others);
    CommitAdvances(cfg, s1, b.entries, tokens);
    var s2 := Commit(cfg, s1, b.entries, tokens);
    forall u | u in Filter(s2, b.entries).running
      ensures u in s.running + Waiting(b.entries)
    {
      RunsAfter(cfg, s1, s2, b, u, others);
    }
  }

  lemma {:induction false} PrepareAvail(cfg: Config, s: Sched, b: Batch, ev: Eviction)
    requires RInv(cfg, s, {}, []) && CanPrepare(cfg, s, b, ev)
    ensures Avail(Prepare(cfg, s, b, ev).cache) == Avail(s.cache) - PagesFor(cfg, s.reqs, b.entries)
  {
    hide Avail, Owned, ReqsInv, Shape, PagesFor, LegalEviction, CacheOk, AssignPages, Allocated, AllocOp;
    if PagesFor(cfg, s.reqs, b.entries) > 0 {
      AllocAvail(s.cache, PagesFor(cfg, s.reqs, b.entries), ev, cfg.ps);
    }
  }

  /** A step after which no more is needed. */
  ghost predicate Lighter(s: Sched, s': Sched) {
    && s'.pending == s.pending && s'.running <= s.running
    && forall u {:trigger Get(s'.reqs, u)} ::
         Get(s'.reqs, u).RemainLen() == Get(s.reqs, u).RemainLen()
           && Get(s'.reqs, u).cachedLen == Get(s.reqs, u).cachedLen
  }

  lemma {:induction false} LighterNeed(s: Sched, s': Sched)
    requires Lighter(s, s')
    ensures Need(s') <= Need(s)
  {
    RemSame(s.reqs, s'.reqs, s'.running);
    RemSubset(s.reqs, s'.running, s.running);
    assert s.pending != [] ==> Get(s'.reqs, s.pending[0].uid).cachedLen == Get(s.reqs, s.pending[0].uid).cachedLen;
  }

  lemma {:induction false} EntryLighter(cfg: Config, p: Post, prefill: bool, e: Entry, token: int)
    ensures Lighter(p.s, ProcessEntry(cfg, p, prefill, e, token).s)
  {
    hide HandOver, IsFinished;
  }

  lemma {:induction false} LighterMore(s: Sched, s1: Sched, s2: Sched)
    requires Lighter(s, s1) && Lighter(s1, s2)
    ensures Lighter(s, s2)
  {
    forall u
      ensures Get(s2.reqs, u).RemainLen() == Get(s.reqs, u).RemainLen()
      ensures Get(s2.reqs, u).cachedLen == Get(s.reqs, u).cachedLen
    {
      assert Get(s1.reqs, u).RemainLen() == Get(s.reqs, u).RemainLen();
    }
  }

  lemma {:induction false} EntriesLighter(cfg: Config, p: Post, prefill: bool, es: seq<Entry>, tokens: seq<int>)
    requires |tokens| == |es|
    ensures Lighter(p.s, ProcessEntries(cfg, p, prefill, es, tokens).s)
    decreases |es|
  {
    hide ProcessEntry;
    if es != [] {
      var p1 := ProcessEntry(cfg, p, prefill, es[0], tokens[0]);
      EntryLighter(cfg, p, prefill, es[0], tokens[0]);
      EntriesLighter(cfg, p1, prefill, es[1..], tokens[1..]);
      LighterMore(p.s, p1.s, ProcessEntries(cfg, p, prefill, es, tokens).s);
    }
  }

  /** What a scheduled batch asks for, together with all that is needed after it, can be handed out. */
  lemma {:induction false} BatchCovered(cfg: Config, s: Sched, s': Sched, others: set<int>)
    requires cfg.ps == 1 && LInv(cfg, s, s.pending, others) && Aside(s, others) && Covered(s)
    requires Schedule(cfg, s).1.Some? && Forwarded(Schedule(cfg, s).0, s', Schedule(cfg, s).1.value)
    ensures var (s1, b) := Schedule(cfg, s);
            PagesFor(cfg, s1.reqs, b.value.entries) + Need(s') <= Avail(s1.cache)
  {
    hide LInv, Aside, Forwarded, AddAll, InflightTokens, NextQueue, RoundOk, SchedulePrefill, Sorted, PagesFor, Avail,
      Need;
    PrefillLive(cfg, s, others);
    var a := Adder(cfg.budget, InflightTokens(cfg, s));
    var r := AddAll(cfg, s, a, s.pending);
    if r.added != [] {
      FirstRound(cfg, s, others);
      PrefillCovered(cfg, s, a, r, s', others);
    } else {
      DecodeCovered(cfg, s, s', others);
    }
  }

  lemma {:induction false} ScheduleCovered(cfg: Config, s: Sched, s': Sched)
    requires cfg.ps == 1 && NInv(cfg, s) && Covered(s) && Schedule(cfg, s).1.Some?
    requires Forwarded(Schedule(cfg, s).0, s', Schedule(cfg, s).1.value)
    ensures var (s1, b) := Schedule(cfg, s);
            PagesFor(cfg, s1.reqs, b.value.entries) + Need(s') <= Avail(s1.cache)
  {
    hide LInv, Forwarded, Schedule, PagesFor, Avail, Need, Covered;
    BatchCovered(cfg, s, s', {});
  }

  lemma {:induction false} FirstRound(cfg: Config, s: Sched, others: set<int>)
    requires cfg.ps == 1 && LInv(cfg, s, s.pending, others) && Aside(s, others) && Covered(s)
    ensures var a := Adder(cfg.budget, InflightTokens(cfg, s));
            var r := AddAll(cfg, s, a, s.pending);
            && a.reserved == RunNeed(s)
            && |r.added| <= |s.pending| && r.a.reserved == a.reserved + Reserve(r.added, s.pending)
            && r.a.reserved <= Avail(r.s.cache)
  {
    hide LInv, Avail, AddAll, RemainSum, ChunkNeed, Aside;
    var a := Adder(cfg.budget, InflightTokens(cfg, s));
    assert (cfg.ps - 1) * |s.running| == 0;
    QueueApart(cfg, s, others);
    RoundCovered(cfg, s, a, s.pending, others);
  }

  /** A tick keeps what is needed within what can be handed out. */
  lemma {:induction false} TickCovered(cfg: Config, s: Sched, i: Input)
    requires cfg.ps == 1 && NInv(cfg, s) && Covered(s) && Admissible(cfg, s, i)
    ensures Covered(NormalTick(cfg, s, i).0)
  {
    hide NInv, AllFresh, ProcessMsgs, Schedule, CanPrepare, Forward, Prepare, RInv, Planned, LInv, WaitsOk,
      ProcessLast, Need, Avail, PagesFor, Forwarded;
    var s0 := ProcessMsgs(cfg, s, i.msgs);
    MsgsKeep(cfg, s, i.msgs);
    MsgsCovered(cfg, s, i.msgs);
    var (s1, b) := Schedule(cfg, s0);
    ScheduleKeeps(cfg, s0);
    if b.None? {
      AcksNeed(s0);
    } else {
      var tokens := TokensFor(b.value, i.tokens);
      var s2 := Forward(cfg, Prepare(cfg, s1, b.value, i.ev), b.value, tokens);
      ForwardIs(cfg, s1, b.value, i.ev, tokens);
      ScheduleCovered(cfg, s0, s2);
      PrepareAvail(cfg, s1, b.value, i.ev);
      BatchRuns(cfg, s1, b.value, i.ev, tokens);
      ProcessKeeps(cfg, s2, b.value, tokens);
      ProcessNeed(cfg, s2, b.value, tokens);
      AcksNeed(ProcessLast(cfg, s2, b.value, tokens).0);
    }
  }

  lemma {:induction false} AcksNeed(s: Sched)
    ensures Need(s.(acks := [])) == Need(s)
  {
  }

  lemma {:induction false} ProcessNeed(cfg: Config, s: Sched, b: Batch, tokens: seq<int>)
    requires |tokens| == |b.entries|
    ensures Need(ProcessLast(cfg, s, b, tokens).0) <= Need(s)
  {
    hide ProcessEntries;
    EntriesLighter(cfg, Post(s, [], {}), b.prefill, b.entries, tokens);
    LighterNeed(s, ProcessLast(cfg, s, b, tokens).0);
  }

  // ---- whole runs

  lemma {:induction false} InitCovered(cfg: Config)
    ensures Covered(InitState(cfg))
  {
    hide Range;
    assert RemainSum(map[], {}) == map[];
  }

  lemma {:induction false} ReachableCovered(cfg: Config, ins: seq<Input>)
    requires cfg.ps == 1 && IsRun(cfg, ins)
    ensures Covered(StateAfter(cfg, ins))
    decreases |ins|
  {
    hide NInv, NormalTick, Admissible, CfgOk, InitState, Covered;
    if ins == [] {
      InitCovered(cfg);
    } else {
      Reachable(cfg, ins[..|ins| - 1]);
      ReachableCovered(cfg, ins[..|ins| - 1]);
      TickCovered(cfg, StateAfter(cfg, ins[..|ins| - 1]), ins[|ins| - 1]);
    }
  }

  /** The batch scheduled next needs no more pages than are available. */
  ghost predicate Fitting(cfg: Config, s: Sched) {
    var (s1, b) := Schedule(cfg, s);
    b.Some? ==> PagesFor(cfg, s1.reqs, b.value.entries) <= Avail(s1.cache)
  }

  /** The batch a tick with these messages would run needs no more pages than are available. */
  ghost predicate Affordable(cfg: Config, s: Sched, msgs: seq<Msg>) {
    Fitting(cfg, ProcessMsgs(cfg, s, msgs))
  }

  /** Every batch that a reachable state schedules after any fresh messages asks for no more pages than are free or
  evictable: neither the size check of the eviction nor the final check of the allocation can fail. */
  lemma {:induction false} AdmissionSound(cfg: Config, ins: seq<Input>, msgs: seq<Msg>)
    requires cfg.ps == 1 && IsRun(cfg, ins) && AllFresh(cfg, StateAfter(cfg, ins), msgs)
    ensures var (s1, b) := Schedule(cfg, ProcessMsgs(cfg, StateAfter(cfg, ins), msgs));
            && CacheOk(s1.cache, cfg.ps)
            && (b.Some? ==> PagesFor(cfg, s1.reqs, b.value.entries) <= Avail(s1.cache))
  {
    hide NInv, AllFresh, ProcessMsgs, Schedule, RInv, Planned, Avail, PagesFor, Covered, IsRun, StateAfter, Forwarded,
      CacheOk;
    var s := StateAfter(cfg, ins);
    Reachable(cfg, ins);
    ReachableCovered(cfg, ins);
    MsgsKeep(cfg, s, msgs);
    MsgsCovered(cfg, s, msgs);
    var s0 := ProcessMsgs(cfg, s, msgs);
    ScheduleKeeps(cfg, s0);
    var (s1, b) := Schedule(cfg, s0);
    if b.Some? {
      CacheOf(cfg, s1);
      PlainForward(cfg, s1, b.value);
      ScheduleCovered(cfg, s0, Forward(cfg, s1, b.value, TokensFor(b.value, [])));
    } else {
      CacheOfN(cfg, s0);
    }
  }

  lemma {:induction false} CacheOf(cfg: Config, s: Sched)
    requires RInv(cfg, s, {}, [])
    ensures CacheOk(s.cache, cfg.ps)
  {
    hide Owned, ReqsInv, Shape, CacheOk;
  }

  lemma {:induction false} CacheOfN(cfg: Config, s: Sched)
    requires NInv(cfg, s)
    ensures CacheOk(s.cache, cfg.ps)
  {
    hide RInv;
    CacheOf(cfg, s);
  }

  lemma {:induction false} PlainForward(cfg: Config, s: Sched, b: Batch, others: set<int> := {})
    requires Planned(cfg, s, b, others)
    ensures Forwarded(s, Forward(cfg, s, b, TokensFor(b, [])), b)
  {
    hide Planned, Commit, Uids, Waiting, DistinctEntries;
    PlannedEntries(cfg, s, b, others);
    CommitAdvances(cfg, s, b.entries, TokensFor(b, []));
    var s2 := Commit(cfg, s, b.entries, TokensFor(b, []));
    forall u | u in Filter(s2, b.entries).running
      ensures u in s.running + Waiting(b.entries)
    {
      RunsAfter(cfg, s, s2, b, u, others);
    }
  }

  /** Hence every reachable state can take any fresh messages and tick: the eviction its batch needs exists. */
  lemma {:induction false} NeverStuck(cfg: Config, ins: seq<Input>, msgs: seq<Msg>, tokens: seq<int>)
    returns (ev: Eviction)
    requires cfg.ps == 1 && IsRun(cfg, ins) && AllFresh(cfg, StateAfter(cfg, ins), msgs)
    ensures IsRun(cfg, ins + [Input(msgs, ev, tokens)])
  {
    hide AllFresh, ProcessMsgs, Schedule, Avail, PagesFor, StateAfter, CacheOk, LegalEviction;
    AdmissionSound(cfg, ins, msgs);
    var (s1, b) := Schedule(cfg, ProcessMsgs(cfg, StateAfter(cfg, ins), msgs));
    ev := Eviction(s1.cache.store, []);
    if b.Some? {
      ev := CanAllocate(s1.cache, PagesFor(cfg, s1.reqs, b.value.entries), cfg.ps);
    }
    var ins' := ins + [Input(msgs, ev, tokens)];
    assert ins'[..|ins'| - 1] == ins;
  }
}
