/** Three ticks of the overlap loop, whatever is sampled: the first of two tokens asked for is marked as the last one
while the request sits in the batch in flight; then its second token is sent all the same, or, if its abort arrives in
that very tick, it is released a second time - the one case that the condition of `ReleasedOnce` excludes. */
module DoubleRelease {
  import opened Paging
  import opened Sums
  import opened PrefixStore
  import opened CacheSpec
  import opened Requests
  import opened SchedSpec
  import opened SchedInv
  import opened SchedAdmit
  import opened SchedRound
  import opened SchedBatch
  import opened SchedForward
  import opened SchedPost
  import opened SchedRun
  import opened SchedProgress
  import opened Overlap
  import opened OverlapRun
  import opened SchedEntries
  import opened SchedReplies
  import opened OverlapReplies
  import opened OverlapPages
  import opened OverlapSound

  /** One row, eight one-token pages, end token 2. */
  function SmallConfig(): Config {
    Config(1, 8, 1, 32, 8, 8, 2)
  }

  function Wish(): Params {
    Params(2, false, {})
  }

  /** The request, for two tokens, arrives and is prefilled; the sampler yields `token`. */
  ghost function Arrive(token: int): Input {
    Input([UserMsg(7, [5], Wish())], Eviction(map[], []), [token])
  }

  /** Its decode batch is launched before that token is processed. */
  ghost function Wait(): Input {
    Input([], Eviction(map[], []), [0])
  }

  ghost function LateMsg(): Input {
    Input([AbortMsg(7)], Eviction(map[], []), [])
  }

  lemma {:induction false} SmallOk()
    ensures CfgOk(SmallConfig()) && Roomy(SmallConfig())
  {
    DivCeilIsDivision(8, 1);
    CeilEight();
  }

  lemma {:induction false} CeilEight()
    ensures AlignUp(8, 1) <= 32
  {
  }

  /** The queue after the request arrived. */
  ghost function Queued(): Sched {
    InitState(SmallConfig()).(pending := [Pending(7, [5], Wish(), false)])
  }

  lemma {:induction false} QueuedInv(token: int)
    ensures NInv(SmallConfig(), Queued()) && ProcessMsgs(SmallConfig(), InitState(SmallConfig()), Arrive(token).msgs)
            == Queued()
    ensures AllFresh(SmallConfig(), InitState(SmallConfig()), Arrive(token).msgs)
  {
    hide NInv, CfgOk, Range, InitState;
    SmallOk();
    var cfg, s, m := SmallConfig(), InitState(SmallConfig()), UserMsg(7, [5], Wish());
    InitKeeps(cfg);
    InitEmpty(cfg);
    UserKeeps(cfg, s, m);
    assert [m][1..] == [];
    assert ProcessMsg(cfg, s, m) == Queued();
    assert ProcessMsgs(cfg, s, [m]) == ProcessMsgs(cfg, Queued(), []);
  }

  lemma {:induction false} InitEmpty(cfg: Config)
    ensures var s := InitState(cfg);
            && s.pending == [] && s.reqs == map[] && s.running == {} && s.finished == {} && s.deferred == {}
              && s.inflight == {}
            && s.cache.store == map[]
  {
    hide Range;
  }

  /** The prefill batch holds the request, whole. */
  lemma {:induction false} FirstBatch()
    ensures var (s1, b) := Schedule(SmallConfig(), Queued());
            && b.Some? && b.value == Batch([Entry(7, false)], true) && s1.running == {} && s1.finished == {}
            && s1.pending == [] && Get(s1.reqs, 7).maxLen == 3 && Get(s1.reqs, 7).deviceLen == 1
            && !Get(s1.reqs, 7).chunked && Get(s1.reqs, 7).params == Wish()
            && s1.deferred == {} && s1.inflight == {} && s1.cache.store == map[]
  {
    hide NInv, LInv, AddAll, InflightTokens, Sorted;
    var cfg, s := SmallConfig(), Queued();
    SmallOk();
    QueuedInv(0);
    InitEmpty(cfg);
    HeadAdmitted(cfg, s);
    PrefillIs(cfg, s);
    var r := AddAll(cfg, s, Adder(cfg.budget, InflightTokens(cfg, s)), s.pending);
    AddAllStore(cfg, s, Adder(cfg.budget, InflightTokens(cfg, s)), s.pending);
    EntriesAre(r.added);
    assert |r.added| == 1;
    assert AddedFrom(r.s, r.added[0], s.pending[0]);
    assert s.pending[|r.added|..] == [];
    assert EntriesOf(r.added) == [Entry(7, false)];
  }

  lemma {:induction false} AddAllStore(cfg: Config, s: Sched, a: Adder, todo: seq<Pending>)
    ensures AddAll(cfg, s, a, todo).s.cache.store == s.cache.store
    decreases |todo|
  {
    hide LongestMatch, SlotsOf;
    if todo != [] {
      var step := TryAddOne(cfg, s, a, todo[0]);
      if step.Some? {
        AddAllStore(cfg, step.value.0, step.value.1, todo[1..]);
      }
    }
  }

  /** While nothing is stored the free pages suffice, so that evicting nothing fits. */
  lemma {:induction false} NothingEvicted(cfg: Config, ins: seq<Input>, i: Input)
    requires cfg.ps == 1 && IsServed(cfg, ins) && Timely(cfg, ins) && i.ev == Eviction(map[], [])
    requires var l := LoopAfter(cfg, ins);
             && OFresh(cfg, l.s, l.last, i.msgs)
             && ProcessMsgs(cfg, l.s.(inflight := LastUids(l.last)), i.msgs).cache.store == map[]
    ensures IsServed(cfg, ins + [i])
  {
    hide ProcessMsgs, Avail, PagesFor, LoopAfter, IsServed, Timely, OFresh, AddAll, ChunkList, EntriesOf, Sorted,
      InflightTokens;
    var l := LoopAfter(cfg, ins);
    var s := ProcessMsgs(cfg, l.s.(inflight := LastUids(l.last)), i.msgs);
    OverlapAdmission(cfg, ins, i.msgs);
    AddAllStore(cfg, s, Adder(cfg.budget, InflightTokens(cfg, s)), s.pending);
    var (s1, b) := Schedule(cfg, s);
    if b.Some? {
      assert Avail(s1.cache) == |s1.cache.free| by { NothingStored(s1.cache); }
    }
    assert Fits(cfg, l.s, l.last, i);
    ServedStep(cfg, ins, i);
  }

  lemma {:induction false} NothingStored(c: Cache)
    requires c.store == map[]
    ensures Avail(c) == |c.free|
  {
    assert Unprotected(c.store, c.held) == {};
  }

  lemma {:induction false} FirstFits(token: int)
    ensures LoopAfter(SmallConfig(), []) == Loop(InitState(SmallConfig()), None, [])
    ensures IsServed(SmallConfig(), [Arrive(token)]) && Timely(SmallConfig(), [Arrive(token)])
  {
    hide Schedule, ProcessMsgs, InitState, AllFresh, CfgOk;
    var cfg, s := SmallConfig(), InitState(SmallConfig());
    SmallOk();
    InitEmpty(cfg);
    QueuedInv(token);
    NoUids();
    assert s.(inflight := {}) == s;
    assert OFresh(cfg, s, None, Arrive(token).msgs) && !LateAbort(s, None, Arrive(token).msgs);
    NothingEvicted(cfg, [], Arrive(token));
    LoopStep(cfg, [], Arrive(token));
    assert [] + [Arrive(token)] == [Arrive(token)];
  }

  /** After its prefill the request runs, with one more token to come. */
  lemma {:induction false} FirstTick(token: int)
    ensures var l := LoopAfter(SmallConfig(), [Arrive(token)]);
            && l.s.running == {7} && l.s.pending == [] && l.s.finished == {} && l.s.deferred == {} && l.s.inflight == {}
            && l.last == Some(Flight(Batch([Entry(7, false)], true), [token]))
            && Get(l.s.reqs, 7).params == Wish() && Get(l.s.reqs, 7).maxLen == 3 && Get(l.s.reqs, 7).deviceLen == 2
            && 7 in l.s.reqs && l.s.acks == [] && l.s.cache.store == map[]
    ensures IsServed(SmallConfig(), [Arrive(token)]) && Timely(SmallConfig(), [Arrive(token)])
  {
    hide Schedule, ProcessMsgs, Prepare, Commit, AllFresh, InitState, LoopAfter, IsServed, Timely;
    var cfg, s := SmallConfig(), InitState(SmallConfig());
    InitEmpty(cfg);
    QueuedInv(token);
    FirstBatch();
    NoUids();
    assert s.(inflight := {}) == s;
    assert [] + [Arrive(token)] == [Arrive(token)];
    LoopStep(cfg, [], Arrive(token));
    FirstFits(token);
    var (s1, b) := Schedule(cfg, Queued());
    var es := [Entry(7, false)];
    PrepareFrame(cfg, s1, b.value, Arrive(token).ev);
    PrepareStore(cfg, s1, b.value, Arrive(token).ev);
    var s2 := Prepare(cfg, s1, b.value, Arrive(token).ev);
    assert TokensFor(b.value, [token]) == [token];
    CommitAdvances(cfg, s2, es, [token]);
    OneUid(7);
    var s3 := Commit(cfg, s2, es, [token]);
    assert Get(s3.reqs, 7) == Get(s1.reqs, 7).CompleteOne();
    assert Filter(s3, es).running == {7};
  }

  lemma {:induction false} PrepareStore(cfg: Config, s: Sched, b: Batch, ev: Eviction)
    requires s.cache.store == ev.store
    ensures Prepare(cfg, s, b, ev).cache.store == ev.store
  {
    hide AssignPages, PagesFor, Allocated;
  }

  lemma {:induction false} OneUid(u: int)
    ensures Uids([Entry(u, false)]) == {u} && DistinctEntries([Entry(u, false)])
  {
    assert Entry(u, false) in [Entry(u, false)];
  }

  /** A tick without messages fits while nothing is stored, and also when there is nothing to launch. */
  lemma {:induction false} QuietFits(cfg: Config, ins: seq<Input>, i: Input)
    requires cfg.ps == 1 && IsServed(cfg, ins) && Timely(cfg, ins) && i.msgs == [] && i.ev == Eviction(map[], [])
    requires var s := LoopAfter(cfg, ins).s; s.cache.store == map[] || (s.running == {} && s.pending == [])
    ensures IsServed(cfg, ins + [i]) && Timely(cfg, ins + [i])
  {
    hide LoopAfter, IsServed, Timely, InflightTokens;
    var l := LoopAfter(cfg, ins);
    assert Aborts([]) == {} && !LateAbort(l.s, l.last, i.msgs);
    LoopStep(cfg, ins, i);
    if l.s.cache.store == map[] {
      NothingEvicted(cfg, ins, i);
    } else {
      Unbatched(cfg, l.s.(inflight := LastUids(l.last)));
      ServedStep(cfg, ins, i);
    }
  }

  lemma {:induction false} Unbatched(cfg: Config, s: Sched)
    requires s.running == {} && s.pending == []
    ensures Schedule(cfg, s).1 == None
  {
  }

  /** The token of the prefill is processed after the decode batch was launched: whatever it is, it is marked as the
  last one although two were asked for, and the request is released and sits in the batch in flight. */
  lemma {:induction false} EarlyMark(token: int)
    ensures var l := LoopAfter(SmallConfig(), [Arrive(token), Wait()]);
            && 7 in l.s.finished && 7 in LastUids(l.last) && 7 in Waiting(LastEntries(l.last))
            && l.s.running == {} && l.s.pending == [] && l.replies == [Detok(7, token, true)]
    ensures IsServed(SmallConfig(), [Arrive(token), Wait()]) && Timely(SmallConfig(), [Arrive(token), Wait()])
  {
    hide LoopAfter, AddAll, Prepare, Commit, Sorted, HandOver, IsServed, Timely;
    var cfg, i := SmallConfig(), Wait();
    FirstTick(token);
    var l := LoopAfter(cfg, [Arrive(token)]);
    QuietFits(cfg, [Arrive(token)], i);
    assert [Arrive(token)] + [i] == [Arrive(token), i];
    LoopStep(cfg, [Arrive(token)], i);
    var s0 := l.s.(inflight := LastUids(l.last));
    assert AddAll(cfg, s0, Adder(cfg.budget, InflightTokens(cfg, s0)), []).added == [] by { NothingAdded(cfg, s0); }
    SortedUids({7});
    SortedSome({7});
    var b := Batch(DecodeEntries(Sorted({7})), false);
    assert Schedule(cfg, s0) == (s0, Some(b));
    var tokens := TokensFor(b, i.tokens);
    PrepareFrame(cfg, s0, b, i.ev);
    var s1 := Prepare(cfg, s0, b, i.ev);
    SortedDistinct({7});
    DecodeWaits(Sorted({7}), 7);
    CommitAdvances(cfg, s1, b.entries, tokens);
    var s2 := Filter(Commit(cfg, s1, b.entries, tokens), b.entries);
    assert Get(s2.reqs, 7) == Get(s0.reqs, 7).CompleteOne();
    FinishesNow(cfg, s2, token);
  }

  lemma {:induction false} NothingAdded(cfg: Config, s: Sched)
    ensures AddAll(cfg, s, Adder(cfg.budget, InflightTokens(cfg, s)), []).added == []
  {
  }

  lemma {:induction false} DecodeWaits(us: seq<int>, u: int)
    ensures u in Uids(DecodeEntries(us)) ==> u in Waiting(DecodeEntries(us))
  {
  }

  lemma {:induction false} SortedDistinct(us: set<int>)
    ensures DistinctEntries(DecodeEntries(Sorted(us)))
  {
  }

  lemma {:induction false} FinishesNow(cfg: Config, s: Sched, token: int)
    requires s.finished == {} && s.deferred == {} && !Get(s.reqs, 7).CanDecode()
    ensures var p := ProcessEntries(cfg, Post(s, [], {}), true, [Entry(7, false)], [token]);
            && p.finished == {7} && p.s.running == s.running - {7} && p.s.pending == s.pending
            && p.replies == [Detok(7, token, true)] && p.s.deferred == {} && p.s.acks == s.acks
  {
    hide HandOver;
    var p := ProcessEntry(cfg, Post(s, [], {}), true, Entry(7, false), token);
    assert [Entry(7, false)][1..] == [] && [token][1..] == [];
    assert ProcessEntries(cfg, p, true, [], []) == p;
  }

  /** The abort that arrives now releases the request a second time. */
  lemma {:induction false} ReleasedTwice(token: int)
    ensures IsServed(SmallConfig(), [Arrive(token), Wait(), LateMsg()])
    ensures exists u :: Count(LoopAfter(SmallConfig(), [Arrive(token), Wait(), LateMsg()]).s.freed, One(u)) > 1
  {
    hide LoopAfter, IsLoop, Timely, Count;
    var cfg, ins, i := SmallConfig(), [Arrive(token), Wait()], LateMsg();
    EarlyMark(token);
    ServedLoop(cfg, ins);
    LoopKeeps(cfg, ins);
    var l := LoopAfter(cfg, ins);
    assert ins + [i] == [Arrive(token), Wait(), LateMsg()];
    LoopStep(cfg, ins, i);
    assert [AbortMsg(7)][1..] == [];
    assert AbortMsg(7) in i.msgs && 7 in Aborts(i.msgs);
    AbortIsFresh(cfg, l.s.(inflight := LastUids(l.last)));
    assert ProcessMsgs(cfg, l.s.(inflight := LastUids(l.last)), i.msgs)
        == ProcessMsg(cfg, l.s.(inflight := LastUids(l.last)), AbortMsg(7));
    Unbatched(cfg, ProcessMsgs(cfg, l.s.(inflight := LastUids(l.last)), i.msgs));
    ServedStep(cfg, ins, i);
    ReleasedOnce(cfg, l.s, l.last, i);
  }

  lemma {:induction false} AbortIsFresh(cfg: Config, s: Sched)
    ensures AllFresh(cfg, s, [AbortMsg(7)])
  {
    hide ProcessMsg;
    assert [AbortMsg(7)][1..] == [];
    assert AllFresh(cfg, ProcessMsg(cfg, s, AbortMsg(7)), []);
  }

  /** Nothing arrives. */
  ghost function Nothing(): Input {
    Input([], Eviction(map[], []), [])
  }

  /** Without the abort the next tick sends a token of the request after its finished one. */
  lemma {:induction false} TokenAfterFinish(token: int)
    ensures IsServed(SmallConfig(), [Arrive(token), Wait(), Nothing()])
    ensures 7 in LoopAfter(SmallConfig(), [Arrive(token), Wait()]).s.finished
    ensures |Said(LoopAfter(SmallConfig(), [Arrive(token), Wait(), Nothing()]).replies, 7)| == 1
  {
    hide LoopAfter, IsLoop, Timely, FInv, OverlapTick, Said;
    var cfg, ins, i := SmallConfig(), [Arrive(token), Wait()], Nothing();
    EarlyMark(token);
    ServedLoop(cfg, ins);
    LoopControl(cfg, ins);
    var l := LoopAfter(cfg, ins);
    assert ins + [i] == [Arrive(token), Wait(), Nothing()];
    LoopStep(cfg, ins, i);
    QuietFits(cfg, ins, i);
    assert Aborts([]) == {};
    SentExactly(cfg, l.s, l.last, i, 7);
  }
}
