/** Two requests with the same prompt in one prefill batch, whatever the page size: the second hand-over is overtaken by
the first, and from then on the second request reads a page that is free. */
module Twins {
  import opened Paging
  import opened PrefixStore
  import opened CacheSpec
  import opened Requests
  import opened SchedSpec
  import opened SchedInv
  import opened SchedAdmit
  import opened SchedBatch
  import opened SchedForward
  import opened SchedPost
  import opened SchedRun
  import opened SchedEntries
  import opened SchedSettings
  import opened Overlap
  import opened CachedPrefixes
  import opened KvSteps
  import opened KvRuns

  /** Two rows, eight pages, sequences of up to a page and two tokens. */
  function TwoRows(ps: Pos): Config {
    Config(ps, 8, 2, AlignUp(ps + 2, ps), ps + 2, ps + ps, 0)
  }

  function Two(): Params {
    Params(2, true, {})
  }

  function Twin(u: int, ids: seq<int>): Pending {
    Pending(u, ids, Two(), false)
  }

  /** Both requests arrive in one tick. */
  ghost function Both(ids: seq<int>, tokens: seq<int>): Input {
    Input([UserMsg(1, ids, Two()), UserMsg(2, ids, Two())], Eviction(map[], []), tokens)
  }

  lemma {:induction false} Arrived(cfg: Config, s: Sched, ids: seq<int>, tokens: seq<int>)
    requires cfg.maxSeqLen == |ids| + 2 && ids != [] && s.pending == [] && s.reqs == map[]
    ensures AllFresh(cfg, s, Both(ids, tokens).msgs)
    ensures ProcessMsgs(cfg, s, Both(ids, tokens).msgs) == s.(pending := [Twin(1, ids), Twin(2, ids)])
  {
    var msgs := Both(ids, tokens).msgs;
    var s1 := ProcessMsg(cfg, s, msgs[0]);
    assert s1 == s.(pending := [Twin(1, ids)]);
    var s2 := ProcessMsg(cfg, s1, msgs[1]);
    assert s2 == s.(pending := [Twin(1, ids), Twin(2, ids)]);
    assert msgs[1..] == [msgs[1]] && [msgs[1]][1..] == [];
    assert ProcessMsgs(cfg, s1, [msgs[1]]) == ProcessMsgs(cfg, s2, []);
    assert AllFresh(cfg, s2, []) && AllFresh(cfg, s1, [msgs[1]]);
  }

  /** Nothing is stored and all pages are free. */
  ghost predicate Empty(s: Sched) {
    s.cache.store == map[] && |s.cache.free| == 8
  }

  lemma {:induction false} EmptyAvail(c: Cache)
    requires c.store == map[]
    ensures Avail(c) == |c.free|
  {
    assert Unprotected(c.store, c.held) == {};
  }

  /** A twin is admitted whole, with nothing matched. */
  lemma {:induction false} TwinFits(cfg: Config, s: Sched, a: Adder, u: int, ids: seq<int>)
    requires Empty(s) && s.rows != [] && ids != [] && a.budget >= |ids| && |ids| + 2 + a.reserved <= 8 * cfg.ps
    ensures var r := TryAddOne(cfg, s, a, Twin(u, ids));
            && r.Some? && Empty(r.value.0) && |r.value.0.rows| == |s.rows| - 1
            && r.value.1 == Adder(a.budget - |ids|, a.reserved + |ids| + 2)
            && r.value.0.reqs == s.reqs[u := r.value.2]
            && r.value.2.uid == u && r.value.2.cachedLen == 0 && r.value.2.deviceLen == |ids| && r.value.2.ids == ids
            && !r.value.2.chunked && r.value.2.maxLen == |ids| + 2 && r.value.2.params == Two()
            && r.value.0.cache.held == s.cache.held[u := []]
            && r.value.0.pending == s.pending && r.value.0.running == s.running
  {
    hide Avail, WriteRow;
    var p := Twin(u, ids);
    assert LongestMatch(s.cache.store, ids[..|ids| - 1], cfg.ps) == 0;
    EmptyAvail(s.cache);
    EmptyAvail(LockOp(s.cache, u, ids[..0]));
    assert ids[..0 + |ids|] == ids;
  }

  /** A round that takes both entries of the queue. */
  lemma {:induction false} RoundOfTwo(cfg: Config, s: Sched, a: Adder, p: Pending, q: Pending)
    requires TryAddOne(cfg, s, a, p).Some?
    requires var (s1, a1, r1) := TryAddOne(cfg, s, a, p).value; TryAddOne(cfg, s1, a1, q).Some?
    ensures var (s1, a1, r1) := TryAddOne(cfg, s, a, p).value;
            var (s2, a2, r2) := TryAddOne(cfg, s1, a1, q).value;
            AddAll(cfg, s, a, [p, q]) == Round(s2, a2, [r1, r2])
  {
    hide TryAddOne;
    var (s1, a1, r1) := TryAddOne(cfg, s, a, p).value;
    var (s2, a2, r2) := TryAddOne(cfg, s1, a1, q).value;
    assert [p, q][1..] == [q] && [q][1..] == [];
    assert AddAll(cfg, s2, a2, []) == Round(s2, a2, []);
    assert AddAll(cfg, s1, a1, [q]) == Round(s2, a2, [r2]);
  }

  lemma {:induction false} TwoWhole(todo: seq<Pending>, r1: Req, r2: Req)
    requires |todo| == 2 && !r1.chunked && !r2.chunked
    ensures ChunkList(todo, [r1, r2]) == []
    ensures EntriesOf([r1, r2]) == [Entry(r1.uid, false), Entry(r2.uid, false)]
  {
    assert [r1, r2][1..] == [r2] && [r2][1..] == [];
    assert ChunkList(todo[1..], [r2]) == [] + ChunkList(todo[1..][1..], []);
    assert EntriesOf([r2]) == [Entry(r2.uid, false)] + EntriesOf([]);
  }

  /** The batch after both arrived. */
  lemma {:induction false} BothTaken(cfg: Config, s: Sched, ids: seq<int>)
    requires Empty(s) && |s.rows| == 2 && cfg.budget == |ids| + |ids| && ids != [] && |ids| == cfg.ps && s.running == {}
    requires s.pending == [Twin(1, ids), Twin(2, ids)] && s.cache.held == map[]
    ensures var (s1, b) := Schedule(cfg, s);
            && b == Some(Batch([Entry(1, false), Entry(2, false)], true)) && Empty(s1) && s1.running == {}
            && s1.cache.held == map[1 := [], 2 := []] && s1.pending == []
            && TwinReq(s1, 1, ids) && TwinReq(s1, 2, ids)
  {
    hide TryAddOne, Avail, Sorted, Empty, AddAll, ChunkList, EntriesOf;
    assert RemainSum(s.reqs, {}) == map[];
    var a := Adder(cfg.budget, 0);
    TwinFits(cfg, s, a, 1, ids);
    var (s1, a1, q1) := TryAddOne(cfg, s, a, Twin(1, ids)).value;
    TwinFits(cfg, s1, a1, 2, ids);
    var (s2, a2, q2) := TryAddOne(cfg, s1, a1, Twin(2, ids)).value;
    RoundOfTwo(cfg, s, a, Twin(1, ids), Twin(2, ids));
    TwoWhole(s.pending, q1, q2);
    EmptySame(s2, Schedule(cfg, s).0);
  }

  /** The request of a twin, scheduled. */
  ghost predicate TwinReq(s: Sched, u: int, ids: seq<int>) {
    var q := Get(s.reqs, u);
    && u in s.reqs && q.uid == u && q.cachedLen == 0 && q.deviceLen == |ids| && q.ids == ids && !q.chunked
    && q.maxLen == |ids| + 2 && q.params == Two()
  }

  lemma {:induction false} EmptySame(s: Sched, s': Sched)
    requires Empty(s) && s'.cache == s.cache
    ensures Empty(s')
  {
  }

  // ---- the tick

  lemma {:induction false} TwinConfig(ps: Pos)
    ensures CfgOk(TwoRows(ps))
    ensures var s := InitState(TwoRows(ps));
            && Empty(s) && |s.rows| == 2 && s.pending == [] && s.reqs == map[] && s.running == {}
              && s.cache.held == map[]
  {
    hide AlignUp, Range;
  }

  lemma {:induction false} TwinPages(cfg: Config, reqs: map<int, Req>, es: seq<Entry>)
    requires |es| == 2
    requires forall i | 0 <= i < 2 :: Get(reqs, es[i].uid).cachedLen == 0 && Get(reqs, es[i].uid).deviceLen == cfg.ps
    ensures PagesFor(cfg, reqs, es) == 2
  {
    assert DivCeil(cfg.ps, cfg.ps) == 1 + DivCeil(0, cfg.ps) && DivCeil(0, cfg.ps) == 0;
    assert es[1..][0] == es[1] && es[1..][1..] == [];
    assert PagesFor(cfg, reqs, es[1..]) == 1;
  }

  /** The run of that one tick is one the loop can make. */
  lemma {:induction false} TwinRun(ps: Pos, ids: seq<int>, tokens: seq<int>)
    requires |ids| == ps
    ensures var cfg, i := TwoRows(ps), Both(ids, tokens);
            && IsRun(cfg, [i]) && IsRun(cfg, []) && StateAfter(cfg, []) == InitState(cfg)
            && Admissible(cfg, InitState(cfg), i)
            && ProcessMsgs(cfg, InitState(cfg), i.msgs) == InitState(cfg).(pending := [Twin(1, ids), Twin(2, ids)])
  {
    hide Schedule, ProcessMsgs, PagesFor, AllFresh, InitState, CfgOk;
    var cfg, i := TwoRows(ps), Both(ids, tokens);
    var s := InitState(cfg);
    TwinConfig(ps);
    Arrived(cfg, s, ids, tokens);
    BothTaken(cfg, s.(pending := [Twin(1, ids), Twin(2, ids)]), ids);
    var (s1, b) := Schedule(cfg, ProcessMsgs(cfg, s, i.msgs));
    TwinPages(cfg, s1.reqs, b.value.entries);
    assert [i][..0] == [] && [i][0] == i;
  }

  /** Both requests after the forward pass: their prompt is computed, and nothing is stored or locked yet. */
  lemma {:induction false} TwinLaunched(ps: Pos, ids: seq<int>, tokens: seq<int>)
    requires |ids| == ps
    ensures var cfg, es := TwoRows(ps), [Entry(1, false), Entry(2, false)];
            var (s2, f) := Launch(cfg, ProcessMsgs(cfg, InitState(cfg), Both(ids, tokens).msgs), Both(ids, tokens));
            && f.Some? && f.value.batch == Batch(es, true) && |f.value.tokens| == 2
            && PInv(cfg, Post(s2, [], {}), es) && Named(s2.reqs) && Locked(s2.cache, 2) == []
            && forall u | u == 1 || u == 2 ::
                 && Get(s2.reqs, u).ids == ids && Get(s2.reqs, u).cachedLen == ps && Get(s2.reqs, u).params == Two()
                 && Get(s2.reqs, u).CanDecode()
  {
    hide Schedule, ProcessMsgs, InitState, CfgOk, AllFresh, CanPrepare, Prepare, Forward, LInv, RInv, Planned, WaitsOk,
      Waiting, Uids, DistinctEntries, Named, Ctrl, Empty;
    var cfg, i, es := TwoRows(ps), Both(ids, tokens), [Entry(1, false), Entry(2, false)];
    var s0 := ProcessMsgs(cfg, InitState(cfg), i.msgs);
    TwinConfig(ps);
    TwinRun(ps, ids, tokens);
    EmptySame(InitState(cfg), s0);
    BothTaken(cfg, s0, ids);
    Reachable(cfg, []);
    MsgsKeep(cfg, InitState(cfg), i.msgs);
    PlainCtrl(cfg, s0);
    NamedFresh(s0);
    LaunchNames(cfg, s0, i);
    ScheduleKeeps(cfg, s0);
    var (s1, b) := Schedule(cfg, s0);
    var sampled := TokensFor(b.value, i.tokens);
    BatchRuns(cfg, s1, b.value, i.ev, sampled);
    var s2 := Forward(cfg, Prepare(cfg, s1, b.value, i.ev), b.value, sampled);
    NoneDone(s2);
    WaitsApart2(cfg, s2, es);
    TwinUids(es);
    forall u | u == 1 || u == 2
      ensures Get(s2.reqs, u) == Get(s1.reqs, u).CompleteOne()
    {
      ForwardOne(cfg, s1, b.value, i.ev, sampled, u);
    }
    PrepareKeeps(cfg, s1, b.value, i.ev);
    ForwardCache(cfg, Prepare(cfg, s1, b.value, i.ev), b.value, sampled);
  }

  lemma {:induction false} WaitsApart2(cfg: Config, s: Sched, es: seq<Entry>)
    requires WaitsOk(cfg, s, es)
    ensures DistinctEntries(es)
  {
    hide WaitOk, DistinctEntries;
  }

  lemma {:induction false} TwinUids(es: seq<Entry>)
    requires es == [Entry(1, false), Entry(2, false)]
    ensures 1 in Uids(es) && 2 in Uids(es)
  {
    assert es[0] in es && es[1] in es;
  }

  lemma {:induction false} NamedFresh(s: Sched)
    requires s.reqs == map[]
    ensures Named(s.reqs)
  {
  }

  lemma {:induction false} ForwardCache(cfg: Config, s: Sched, b: Batch, tokens: seq<int>)
    requires |tokens| == |b.entries| && DistinctEntries(b.entries)
    ensures Forward(cfg, s, b, tokens).cache == s.cache
  {
    hide Commit, Uids, DistinctEntries;
    CommitAdvances(cfg, s, b.entries, tokens);
  }

  // ---- the second hand-over

  lemma {:induction false} OnePageIds(ps: Pos, ids: seq<int>, token: int)
    requires |ids| == ps
    ensures Aligned(ps, ps) && AlignDown(ps, ps) == ps && Upto(ids + [token], ps) == ids && Upto(ids, ps) == ids
  {
    AlignBracket(ps, ps);
  }

  lemma {:induction false} GoesOn(cfg: Config, r: Req, token: int)
    requires r.CanDecode() && r.params == Two()
    ensures !IsFinished(cfg, r.AppendHost(token), token)
  {
  }

  /** What the first request hands over is just what the second one computed, and not what it has locked. */
  lemma {:induction false} SecondOvertaken(cfg: Config, s2: Sched, ids: seq<int>, tokens: seq<int>)
    requires var es := [Entry(1, false), Entry(2, false)];
             && PInv(cfg, Post(s2, [], {}), es) && Named(s2.reqs) && Locked(s2.cache, 2) == [] && |tokens| == 2
    requires |ids| == cfg.ps
    requires forall u | u == 1 || u == 2 ::
               && Get(s2.reqs, u).ids == ids && Get(s2.reqs, u).cachedLen == cfg.ps && Get(s2.reqs, u).params == Two()
               && Get(s2.reqs, u).CanDecode()
    ensures Overtaking(cfg, Post(s2, [], {}), true, [Entry(1, false), Entry(2, false)], tokens)
  {
    hide LInv, WaitsOk, WaitOk, Named, IsFinished, Handable, CacheOk, Aligned, AlignDown, LongestMatch, HandOver,
      Waiting;
    var es, p := [Entry(1, false), Entry(2, false)], Post(s2, [], {});
    var p1 := ProcessEntry(cfg, p, true, es[0], tokens[0]);
    PostCache(cfg, p, es);
    NotDeferred(cfg, s2, es);
    WaitsRest(cfg, s2, es);
    WaitHandable(cfg, s2, es[0], tokens[0], Waiting(es));
    EntryLeaves(cfg, p, true, es[0], tokens[0]);
    EntryGrows(cfg, p, true, es[0], tokens[0]);
    assert SameLock(s2.cache, p1.s.cache, 2) && Get(p1.s.reqs, 2) == Get(s2.reqs, 2);
    OnePageIds(cfg.ps, ids, tokens[0]);
    OnePageIds(cfg.ps, ids, tokens[1]);
    GoesOn(cfg, Get(s2.reqs, 2), tokens[1]);
    StoredAll(p1.s.cache.store, ids, cfg.ps);
    assert es[1..][0] == es[1] && tokens[1..][0] == tokens[1];
    assert Overtakes(cfg, p1, true, es[1], tokens[1]);
  }

  /** Whatever the page size, the prompt of one page and the tokens sampled: the run of this one tick is overtaken, and
  after it a running request reads a free page. */
  lemma {:induction false} TwinsUnsafe(ps: Pos, ids: seq<int>, tokens: seq<int>)
    requires |ids| == ps
    ensures var cfg, ins := TwoRows(ps), [Both(ids, tokens)];
            IsRun(cfg, ins) && !NeverOvertaken(cfg, ins) && !SafeReads(cfg, StateAfter(cfg, ins))
  {
    hide InitState, Launch, ProcessMsgs, PInv, Named, Overtaking, SafeReads, NormalTick, AllFresh, Schedule,
      CanPrepare, NInv;
    var cfg, i := TwoRows(ps), Both(ids, tokens);
    TwinRun(ps, ids, tokens);
    TwinLaunched(ps, ids, tokens);
    var (s2, f) := Launch(cfg, ProcessMsgs(cfg, InitState(cfg), i.msgs), i);
    SecondOvertaken(cfg, s2, ids, f.value.tokens);
    assert TickOvertakes(cfg, InitState(cfg), i);
    Reachable(cfg, []);
    RunNamed(cfg, []);
    NormalReads(cfg, InitState(cfg), i);
    assert [i][..0] == [] && [i][0] == i;
  }
}
