/** A state of the overlap loop next to the one it would be in had the tokens of the batch in flight been appended
already: launching a batch does the same to both, since nothing it does looks at the last token of a running request. */
module OverlapLag {
  import opened Paging
  import opened CacheSpec
  import opened Requests
  import opened SchedSpec
  import opened SchedForward

  /** The sampled tokens not appended yet, by uid; those of the uids in `dropped` never will be. */
  ghost function LagOf(es: seq<Entry>, tokens: seq<int>, dropped: set<int>): map<int, int>
    requires |tokens| == |es|
    decreases |es|
  {
    if es == [] then map[]
    else
      var rest := LagOf(es[1..], tokens[1..], dropped);
      if es[0].chunked || es[0].uid in dropped then rest else rest[es[0].uid := tokens[0]]
  }

  ghost function Later(reqs: map<int, Req>, lag: map<int, int>): map<int, Req> {
    map u | u in reqs :: if u in lag then reqs[u].AppendHost(lag[u]) else reqs[u]
  }

  /** The state with the tokens of `lag` appended, outside any overlap window. */
  ghost function Caught(s: Sched, lag: map<int, int>): Sched {
    s.(reqs := Later(s.reqs, lag), inflight := {}, deferred := {})
  }

  /** Only the host tokens of lagging requests differ. */
  lemma {:induction false} LaterGet(reqs: map<int, Req>, lag: map<int, int>, u: int)
    ensures var r, q := Get(reqs, u), Get(Later(reqs, lag), u);
            && q == r.(ids := q.ids) && (u in Later(reqs, lag) <==> u in reqs)
            && q.ids == (if u in reqs && u in lag then r.ids + [lag[u]] else r.ids)
            && q.CanDecode() == r.CanDecode() && q.RemainLen() == r.RemainLen()
  {
  }

  lemma {:induction false} LaterPut(reqs: map<int, Req>, lag: map<int, int>, u: int, q: Req)
    requires u !in lag
    ensures Later(reqs[u := q], lag) == Later(reqs, lag)[u := q]
  {
  }

  // ---- scheduling

  lemma {:induction false} InflightSame(cfg: Config, s: Sched, lag: map<int, int>)
    ensures InflightTokens(cfg, Caught(s, lag)) == InflightTokens(cfg, s)
  {
    hide Later;
    var t := Caught(s, lag);
    forall u | u in s.running
      ensures Get(t.reqs, u).RemainLen() == Get(s.reqs, u).RemainLen()
    {
      LaterGet(s.reqs, lag, u);
    }
    assert RemainSum(t.reqs, t.running) == RemainSum(s.reqs, s.running);
  }

  lemma {:induction false} AddSame(s: Sched, lag: map<int, int>, a: Adder, p: Pending, row: int, cached: nat)
    requires p.uid !in lag && cached <= |p.ids| && a.budget > 0
    ensures var (s1, a1, q) := AddReq(s, a, p, row, cached);
            AddReq(Caught(s, lag), a, p, row, cached) == (Caught(s1, lag), a1, q)
  {
    hide Later, WriteRow;
    var (s1, a1, q) := AddReq(s, a, p, row, cached);
    LaterPut(s.reqs, lag, p.uid, q);
  }

  lemma {:induction false} AllocateSame(cfg: Config, s: Sched, lag: map<int, int>, a: Adder, p: Pending)
    requires p.ids != []
    ensures TryAllocate(cfg, Caught(s, lag), a, p) ==
              match TryAllocate(cfg, s, a, p)
              case None => None
              case Some((s1, row, n)) => Some((Caught(s1, lag), row, n))
    ensures TryAllocate(cfg, s, a, p).Some? ==> TryAllocate(cfg, s, a, p).value.2 <= |p.ids|
  {
    hide Later, WriteRow, Avail;
  }

  ghost predicate SameStep(r: Option<(Sched, Adder, Req)>, q: Option<(Sched, Adder, Req)>, lag: map<int, int>) {
    if r.None? then q.None? else q == Some((Caught(r.value.0, lag), r.value.1, r.value.2))
  }

  lemma {:induction false} StepSame(cfg: Config, s: Sched, lag: map<int, int>, a: Adder, p: Pending)
    requires p.uid !in lag
    ensures SameStep(TryAddOne(cfg, s, a, p), TryAddOne(cfg, Caught(s, lag), a, p), lag)
  {
    hide Later, TryAllocate, AddReq;
    LaterGet(s.reqs, lag, p.uid);
    if a.budget > 0 && p.ids != [] {
      if p.chunk {
        var r := Get(s.reqs, p.uid);
        if r.cachedLen <= |p.ids| {
          AddSame(s, lag, a, p, r.row, r.cachedLen);
        }
      } else {
        AllocateSame(cfg, s, lag, a, p);
        match TryAllocate(cfg, s, a, p)
        case None =>
        case Some((s1, row, n)) => AddSame(s1, lag, a, p, row, n);
      }
    }
  }

  /** No lagging request is queued. */
  ghost predicate Unqueued(queue: seq<Pending>, lag: map<int, int>) {
    forall i {:trigger queue[i]} | 0 <= i < |queue| :: queue[i].uid !in lag
  }

  lemma {:induction false} RoundSame(cfg: Config, s: Sched, lag: map<int, int>, a: Adder, queue: seq<Pending>)
    requires Unqueued(queue, lag)
    ensures var r := AddAll(cfg, s, a, queue);
            AddAll(cfg, Caught(s, lag), a, queue) == Round(Caught(r.s, lag), r.a, r.added)
    decreases |queue|
  {
    hide Caught, TryAddOne;
    if queue != [] {
      StepSame(cfg, s, lag, a, queue[0]);
      if TryAddOne(cfg, s, a, queue[0]).Some? {
        var (s1, a1, q) := TryAddOne(cfg, s, a, queue[0]).value;
        assert forall i | 0 <= i < |queue[1..]| :: queue[1..][i] == queue[i + 1];
        RoundSame(cfg, s1, lag, a1, queue[1..]);
      }
    }
  }

  lemma {:induction false} ScheduleSame(cfg: Config, s: Sched, lag: map<int, int>)
    requires Unqueued(s.pending, lag)
    ensures var (s1, b) := Schedule(cfg, s); Schedule(cfg, Caught(s, lag)) == (Caught(s1, lag), b)
  {
    hide Later, AddAll, InflightTokens, Sorted, ChunkList;
    InflightSame(cfg, s, lag);
    RoundSame(cfg, s, lag, Adder(cfg.budget, InflightTokens(cfg, s)), s.pending);
  }

  // ---- preparing and running

  lemma {:induction false} PagesSame(cfg: Config, reqs: map<int, Req>, lag: map<int, int>, es: seq<Entry>)
    ensures PagesFor(cfg, Later(reqs, lag), es) == PagesFor(cfg, reqs, es)
    decreases |es|
  {
    hide Later;
    if es != [] {
      LaterGet(reqs, lag, es[0].uid);
      PagesSame(cfg, reqs, lag, es[1..]);
    }
  }

  lemma {:induction false} AssignSame(cfg: Config, reqs: map<int, Req>, lag: map<int, int>, table: Table,
                                      es: seq<Entry>,
                                      pages: seq<int>)
    ensures AssignPages(cfg, Later(reqs, lag), table, es, pages) == AssignPages(cfg, reqs, table, es, pages)
    decreases |es|
  {
    hide Later, WriteRow, Expand;
    if es != [] {
      LaterGet(reqs, lag, es[0].uid);
      var r := Get(reqs, es[0].uid);
      var n := PagesNeeded(r, cfg.ps);
      if n <= |pages| {
        AssignSame(cfg, reqs, lag, WriteRow(table, r.row, AlignUp(r.cachedLen, cfg.ps), Expand(pages[..n], cfg.ps)),
          es[1..], pages[n..]);
      }
    }
  }

  lemma {:induction false} PrepareSame(cfg: Config, s: Sched, lag: map<int, int>, b: Batch, ev: Eviction)
    ensures Prepare(cfg, Caught(s, lag), b, ev) == Caught(Prepare(cfg, s, b, ev), lag)
  {
    hide Later, PagesFor, AssignPages, AllocOp, Allocated;
    PagesSame(cfg, s.reqs, lag, b.entries);
    var need := PagesFor(cfg, s.reqs, b.entries);
    AssignSame(cfg, s.reqs, lag, s.table, b.entries, Allocated(s.cache, need, ev, cfg.ps));
  }

  lemma {:induction false} CommitOneSame(cfg: Config, s: Sched, lag: map<int, int>, u: int, token: int)
    requires lag.Keys <= s.reqs.Keys
    ensures CommitOne(cfg, Caught(s, lag), u, token) == Caught(CommitOne(cfg, s, u, token), lag)
    ensures lag.Keys <= CommitOne(cfg, s, u, token).reqs.Keys
  {
    hide WriteRow;
    LaterGet(s.reqs, lag, u);
    var q := Get(Later(s.reqs, lag), u).CompleteOne();
    assert Later(s.reqs[u := Get(s.reqs, u).CompleteOne()], lag) == Later(s.reqs, lag)[u := q];
  }

  lemma {:induction false} CommitSame(cfg: Config, s: Sched, lag: map<int, int>, es: seq<Entry>, tokens: seq<int>)
    requires |tokens| == |es| && lag.Keys <= s.reqs.Keys
    ensures Commit(cfg, Caught(s, lag), es, tokens) == Caught(Commit(cfg, s, es, tokens), lag)
    decreases |es|
  {
    hide Caught, CommitOne;
    if es != [] {
      CommitOneSame(cfg, s, lag, es[0].uid, tokens[0]);
      CommitSame(cfg, CommitOne(cfg, s, es[0].uid, tokens[0]), lag, es[1..], tokens[1..]);
    }
  }

  lemma {:induction false} FilterSame(s: Sched, lag: map<int, int>, es: seq<Entry>)
    ensures Filter(Caught(s, lag), es) == Caught(Filter(s, es), lag)
  {
    hide Later, Uids;
    forall u
      ensures Get(Later(s.reqs, lag), u).CanDecode() == Get(s.reqs, u).CanDecode()
    {
      LaterGet(s.reqs, lag, u);
    }
    assert Filter(Caught(s, lag), es).running == Filter(s, es).running;
  }

  /** Running a batch does the same to the state and to the one that has caught up. */
  lemma {:induction false} ForwardSame(cfg: Config, s: Sched, lag: map<int, int>, b: Batch, ev: Eviction,
                                       tokens: seq<int>)
    requires |tokens| == |b.entries| && lag.Keys <= s.reqs.Keys
    ensures Forward(cfg, Prepare(cfg, Caught(s, lag), b, ev), b, tokens)
         == Caught(Forward(cfg, Prepare(cfg, s, b, ev), b, tokens), lag)
  {
    hide Caught, Commit, Filter, PagesFor, AssignPages, AllocOp, Allocated;
    var s1 := Prepare(cfg, s, b, ev);
    PrepareSame(cfg, s, lag, b, ev);
    CommitSame(cfg, s1, lag, b.entries, tokens);
    FilterSame(Commit(cfg, s1, b.entries, tokens), lag, b.entries);
  }

  lemma {:induction false} CanPrepareSame(cfg: Config, s: Sched, lag: map<int, int>, b: Batch, ev: Eviction)
    ensures CanPrepare(cfg, s, b, ev) <==> CanPrepare(cfg, Caught(s, lag), b, ev)
  {
    hide Later, PagesFor, LegalEviction;
    PagesSame(cfg, s.reqs, lag, b.entries);
  }
}
