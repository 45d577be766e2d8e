/** What attention reads, over whole runs: with prefixes shared, prompts cut and pages reused, every request reads just
the cells its own tokens would give - as long as no hand-over of a request that goes on is overtaken. If one is, the
request goes on reading pages that are free. */
module KvRuns {
  import opened Paging
  import opened PrefixStore
  import opened CacheSpec
  import opened Requests
  import opened SchedSpec
  import opened SchedInv
  import opened SchedAdmit
  import opened SchedBatch
  import opened SchedForward
  import opened SchedPost
  import opened SchedRun
  import opened SchedMirror
  import opened SchedChunks
  import opened SchedReplies
  import opened SchedSettings
  import opened Overlap
  import OverlapOwn
  import OverlapMirror
  import opened CachedPrefixes
  import SchedIsolation
  import opened KvCells
  import opened KvSlots
  import opened KvSteps

  // ---- overtaken hand-overs

  /** Processing this entry hands over the tokens of a request that goes on, and others stored more of them meanwhile
  than it has locked. */
  ghost predicate Overtakes(cfg: Config, p: Post, prefill: bool, e: Entry, token: int) {
    var q := Get(p.s.reqs, e.uid).AppendHost(token);
    && prefill && Handled(p.s, e) && !(IsFinished(cfg, q, token) && e.uid !in p.s.finished)
    && Overtaken(cfg, Appended(p.s, e.uid, token), e.uid)
  }

  ghost predicate Overtaking(cfg: Config, p: Post, prefill: bool, es: seq<Entry>, tokens: seq<int>)
    requires |tokens| == |es|
    decreases |es|
  {
    es != []
    && (Overtakes(cfg, p, prefill, es[0], tokens[0])
        || Overtaking(cfg, ProcessEntry(cfg, p, prefill, es[0], tokens[0]), prefill, es[1..], tokens[1..]))
  }

  // ---- post-processing in the normal loop

  lemma {:induction false} AppendedRight(cfg: Config, s: Sched, u: int, token: int, kv: Kv)
    requires KvRight(cfg, s, kv)
    ensures KvRight(cfg, Appended(s, u, token), kv)
  {
    hide StoreRight, Right, Locked;
    var s' := Appended(s, u, token);
    forall v | v in s'.cache.held
      ensures RowRight(s', kv, v)
    {
      assert RowRight(s, kv, v);
      var n := Get(s.reqs, v).cachedLen;
      assert Get(s'.reqs, v).ids[..n] == Get(s.reqs, v).ids[..n];
    }
  }

  lemma {:induction false} TokenRight(cfg: Config, p: Post, prefill: bool, es: seq<Entry>, token: int, kv: Kv)
    requires PInv(cfg, p, es) && es != [] && KvRight(cfg, p.s, kv) && Handled(p.s, es[0])
    requires !Overtakes(cfg, p, prefill, es[0], token)
    ensures KvRight(cfg, ProcessEntry(cfg, p, prefill, es[0], token).s, kv)
  {
    hide LInv, WaitsOk, WaitOk, DoneOk, Waiting, Release, KeepCached, IsFinished, KvRight, Overtaken;
    var e, s := es[0], p.s;
    var s1 := Appended(s, e.uid, token);
    WaitsRest(cfg, s, es);
    WaitKeys(cfg, s, e, token);
    WaitSettled(cfg, s, e, token);
    AppendLive(cfg, s, e, token, Waiting(es));
    HeldCache(cfg, s1, Waiting(es));
    WaitingLive(cfg, s, es, e.uid);
    AppendedRight(cfg, s, e.uid, token, kv);
    if IsFinished(cfg, Get(s.reqs, e.uid).AppendHost(token), token) {
      var s2 := s1.(running := s1.running - {e.uid});
      StopRunning(cfg, s1, e.uid, Waiting(es));
      HeldCache(cfg, s2, Waiting(es));
      KvSame(cfg, s1, s2, kv);
      ReleaseRight(cfg, s2, kv, e.uid);
    } else if prefill {
      KeepRight(cfg, s1, kv, e.uid);
    }
  }

  lemma {:induction false} EntriesRight(cfg: Config, p: Post, prefill: bool, es: seq<Entry>, tokens: seq<int>, kv: Kv)
    requires |tokens| == |es| && PInv(cfg, p, es) && KvRight(cfg, p.s, kv) && !Overtaking(cfg, p, prefill, es, tokens)
    ensures KvRight(cfg, ProcessEntries(cfg, p, prefill, es, tokens).s, kv)
    decreases |es|
  {
    hide PInv, ProcessEntry, KvRight, Overtakes;
    if es != [] {
      EntryKeeps(cfg, p, prefill, es, tokens[0]);
      if Handled(p.s, es[0]) {
        TokenRight(cfg, p, prefill, es, tokens[0], kv);
      } else {
        OverlapOwn.SkipIs(cfg, p, prefill, es[0], tokens[0]);
      }
      EntriesRight(cfg, ProcessEntry(cfg, p, prefill, es[0], tokens[0]), prefill, es[1..], tokens[1..], kv);
    }
  }

  // ---- ticks of the normal loop

  /** The memory after a tick. */
  ghost function KvTick(cfg: Config, s: Sched, i: Input, kv: Kv): Kv {
    KvLaunch(cfg, ProcessMsgs(cfg, s, i.msgs), i, kv)
  }

  /** A hand-over of the tick is overtaken. */
  ghost predicate TickOvertakes(cfg: Config, s: Sched, i: Input) {
    var (s2, f) := Launch(cfg, ProcessMsgs(cfg, s, i.msgs), i);
    f.Some? && |f.value.tokens| == |f.value.batch.entries|
    && Overtaking(cfg, Post(s2, [], {}), f.value.batch.prefill, f.value.batch.entries, f.value.tokens)
  }

  lemma {:induction false} MsgRight(cfg: Config, s: Sched, m: Msg, kv: Kv)
    requires NInv(cfg, s) && KvRight(cfg, s, kv)
    ensures KvRight(cfg, ProcessMsg(cfg, s, m), kv)
  {
    hide LInv, KvRight, Clamp, HandOver, DropPending, FindPending;
    if m.UserMsg? {
      KvSame(cfg, s, ProcessMsg(cfg, s, m), kv);
    } else {
      AbortRight(cfg, s, m.uid, {}, kv);
    }
  }

  lemma {:induction false} MsgsRight(cfg: Config, s: Sched, msgs: seq<Msg>, kv: Kv)
    requires NInv(cfg, s) && AllFresh(cfg, s, msgs) && KvRight(cfg, s, kv)
    ensures KvRight(cfg, ProcessMsgs(cfg, s, msgs), kv)
    decreases |msgs|
  {
    hide NInv, Fresh, ProcessMsg, KvRight;
    if msgs != [] {
      MsgKeeps(cfg, s, msgs[0]);
      MsgRight(cfg, s, msgs[0], kv);
      MsgsRight(cfg, ProcessMsg(cfg, s, msgs[0]), msgs[1..], kv);
    }
  }

  /** A tick whose hand-overs are not overtaken keeps the cells right. */
  lemma {:induction false} NormalRight(cfg: Config, s: Sched, i: Input, kv: Kv)
    requires NInv(cfg, s) && Admissible(cfg, s, i) && Mirrors(s, Live(s)) && KvRight(cfg, s, kv)
    requires !TickOvertakes(cfg, s, i)
    ensures KvRight(cfg, NormalTick(cfg, s, i).0, KvTick(cfg, s, i, kv))
  {
    hide AllFresh, ProcessMsgs, Schedule, CanPrepare, Prepare, Forward, ProcessEntries, LInv, KvRight, Mirrors, Live,
      Planned, RInv, WaitsOk, Waiting, KvLaunch, Overtaking, AllAttend, Uids;
    var s0 := ProcessMsgs(cfg, s, i.msgs);
    MsgsKeep(cfg, s, i.msgs);
    MsgsMirror(cfg, s, i.msgs);
    MsgsRight(cfg, s, i.msgs, kv);
    NothingAside(cfg, s0);
    LaunchRight(cfg, s0, i, {}, kv);
    ScheduleKeeps(cfg, s0);
    var (s1, b) := Schedule(cfg, s0);
    var kv', s' := KvTick(cfg, s, i, kv), NormalTick(cfg, s, i).0;
    if b.None? {
      KvSame(cfg, s0, s', kv');
    } else {
      var tokens := TokensFor(b.value, i.tokens);
      var s2 := Forward(cfg, Prepare(cfg, s1, b.value, i.ev), b.value, tokens);
      BatchRuns(cfg, s1, b.value, i.ev, tokens);
      NoneDone(s2);
      EntriesRight(cfg, Post(s2, [], {}), b.value.prefill, b.value.entries, tokens, kv');
      KvSame(cfg, ProcessEntries(cfg, Post(s2, [], {}), b.value.prefill, b.value.entries, tokens).s, s', kv');
    }
  }

  lemma {:induction false} NothingAside(cfg: Config, s: Sched)
    ensures Aside(s, {}) && Live(s) - {} == Live(s)
  {
  }

  /** The batch of a tick reads what it should. */
  lemma {:induction false} NormalAttends(cfg: Config, s: Sched, i: Input, kv: Kv, s2: Sched, b: Batch)
    requires NInv(cfg, s) && Admissible(cfg, s, i) && Mirrors(s, Live(s)) && KvRight(cfg, s, kv)
    requires SchedIsolation.Prepared(cfg, s, i, s2, b)
    ensures AllAttend(s2, b.entries, KvTick(cfg, s, i, kv))
  {
    hide AllFresh, ProcessMsgs, Schedule, CanPrepare, Prepare, LInv, KvRight, Mirrors, Live, KvLaunch, AllAttend;
    var s0 := ProcessMsgs(cfg, s, i.msgs);
    MsgsKeep(cfg, s, i.msgs);
    MsgsMirror(cfg, s, i.msgs);
    MsgsRight(cfg, s, i.msgs, kv);
    NothingAside(cfg, s0);
    LaunchRight(cfg, s0, i, {}, kv);
  }

  // ---- runs of the normal loop

  ghost function KvAfter(cfg: Config, ins: seq<Input>): Kv
    decreases |ins|
  {
    if ins == [] then map[]
    else KvTick(cfg, StateAfter(cfg, ins[..|ins| - 1]), ins[|ins| - 1], KvAfter(cfg, ins[..|ins| - 1]))
  }

  ghost predicate NeverOvertaken(cfg: Config, ins: seq<Input>)
    decreases |ins|
  {
    ins != [] ==>
      NeverOvertaken(cfg, ins[..|ins| - 1]) && !TickOvertakes(cfg, StateAfter(cfg, ins[..|ins| - 1]), ins[|ins| - 1])
  }

  lemma {:induction false} StartRight(cfg: Config)
    ensures KvRight(cfg, InitState(cfg), map[])
  {
    hide Range;
  }

  lemma {:induction false} RunRight(cfg: Config, ins: seq<Input>)
    requires IsRun(cfg, ins) && NeverOvertaken(cfg, ins)
    ensures KvRight(cfg, StateAfter(cfg, ins), KvAfter(cfg, ins))
    decreases |ins|
  {
    hide NInv, NormalTick, Admissible, CfgOk, InitState, KvRight, KvTick, TickOvertakes, Mirrors, Live;
    if ins == [] {
      StartRight(cfg);
    } else {
      var was, i := ins[..|ins| - 1], ins[|ins| - 1];
      Reachable(cfg, was);
      ReachableMirrors(cfg, was);
      RunRight(cfg, was);
      NormalRight(cfg, StateAfter(cfg, was), i, KvAfter(cfg, was));
    }
  }

  /** Over every run of the normal loop without an overtaken hand-over: each stored prefix holds the cells of its tokens
  computed alone, and so does the computed part of every running request's row, for its prompt and replies. */
  lemma {:induction false} CacheTransparent(cfg: Config, ins: seq<Input>, u: int)
    requires IsRun(cfg, ins) && NeverOvertaken(cfg, ins)
    ensures var s, kv := StateAfter(cfg, ins), KvAfter(cfg, ins);
            var host, n := PromptOf(cfg, ins, u) + SaidTokens(StreamOf(cfg, ins, u)), Get(s.reqs, u).cachedLen;
            && (forall p | p in s.cache.store :: ReadSlots(kv, s.cache.store[p]) == Alone(p))
            && (u in s.running ==> n == |host| - 1 && ReadSlots(kv, Upto(RowOf(s, u), n)) == Alone(host[..n]))
  {
    hide IsRun, StateAfter, KvAfter, NeverOvertaken, PromptOf, StreamOf, LInv, Stream, Alone, ReadSlots, Attached,
      RowOf, PagesWhole;
    RunRight(cfg, ins);
    Reachable(cfg, ins);
    var s, kv := StateAfter(cfg, ins), KvAfter(cfg, ins);
    forall p | p in s.cache.store
      ensures ReadSlots(kv, s.cache.store[p]) == Alone(p)
    {
      assert EntryRight(kv, s.cache.store, p);
    }
    if u in s.running {
      RunningReq(cfg, s, u);
      RepliesShape(cfg, ins, u);
      assert RowRight(s, kv, u);
    }
  }

  lemma {:induction false} RunningReq(cfg: Config, s: Sched, u: int)
    requires NInv(cfg, s) && u in s.running
    ensures u in s.cache.held && RunOk(cfg, s, u)
  {
    hide RInv, QueueOk, HeadOk, DoneOk, RunOk;
  }

  /** And in every tick, each request of the batch attends to the cells of its own tokens, those computed in the tick
  included, whatever was shared, cut or reused before. */
  lemma {:induction false} BatchTransparent(cfg: Config, ins: seq<Input>, i: Input, s2: Sched, b: Batch, k: nat)
    requires IsRun(cfg, ins + [i]) && NeverOvertaken(cfg, ins) && k < |b.entries|
    requires SchedIsolation.Prepared(cfg, StateAfter(cfg, ins), i, s2, b)
    ensures Attends(s2, KvAfter(cfg, ins + [i]), b.entries[k].uid)
  {
    hide IsRun, StateAfter, NeverOvertaken, LInv, Admissible, Mirrors, KvRight, KvTick, Attends, Live, NormalTick;
    RunTick(cfg, ins, i);
    Reachable(cfg, ins);
    ReachableMirrors(cfg, ins);
    RunRight(cfg, ins);
    NormalAttends(cfg, StateAfter(cfg, ins), i, KvAfter(cfg, ins), s2, b);
    assert (ins + [i])[..|ins|] == ins;
  }

  // ---- pages that are read though they are free

  /** The running request `u` reads, at position `j` of its row, a page that is free. */
  ghost predicate ReadsFree(cfg: Config, s: Sched, u: int, j: nat) {
    && u in s.running && j < Get(s.reqs, u).cachedLen && j < |RowOf(s, u)|
    && RowOf(s, u)[j] / cfg.ps * cfg.ps in s.cache.free
  }

  /** No running request reads a free page. */
  ghost predicate SafeReads(cfg: Config, s: Sched) {
    forall u, j: nat {:trigger ReadsFree(cfg, s, u, j)} :: !ReadsFree(cfg, s, u, j)
  }

  lemma {:induction false} RightSafe(cfg: Config, s: Sched, kv: Kv)
    requires RInv(cfg, s, {}, []) && s.running <= s.cache.held.Keys && KvRight(cfg, s, kv)
    ensures SafeReads(cfg, s)
  {
    hide RInv, Right, Attached, RowOf;
    forall u, j: nat
      ensures !ReadsFree(cfg, s, u, j)
    {
      if u in s.running && j < Get(s.reqs, u).cachedLen {
        assert RowRight(s, kv, u);
        ReadNotFree(cfg, s, u, j);
        AlignDownIsDivision(RowOf(s, u)[j], cfg.ps);
      }
    }
  }

  lemma {:induction false} AlignedPage(x: nat, ps: Pos)
    requires Aligned(x, ps)
    ensures x / ps * ps == x
  {
    hide Aligned;
    AlignedIsMod(x, ps);
  }

  lemma {:induction false} FirstStrided(s: seq<int>, ps: Pos)
    requires s != []
    ensures Strided(s, ps) != [] && Strided(s, ps)[0] == s[0] && s[0] in Strided(s, ps)
  {
  }

  /** An overtaken hand-over frees the page behind the request's old lock, and its row keeps that page. */
  lemma {:induction false} OvertakenFrees(cfg: Config, s: Sched, u: int)
    requires RInv(cfg, s, {}, []) && SchedInv.Settled(s, {}, u) && Overtaken(cfg, s, u)
    ensures var j := |Locked(s.cache, u)|;
            && j < Get(s.reqs, u).cachedLen && j < |RowOf(s, u)|
            && RowOf(s, u)[j] / cfg.ps * cfg.ps
               in HandOver(s.cache, Get(s.reqs, u), s.table, false, cfg.ps).free
  {
    hide Owned, Owners, CacheOk, Aligned, AlignUp, AlignDown, Whole, LongestMatch, Shape, Inserted, Strided, ReqsInv;
    var r, row, j := Get(s.reqs, u), RowOf(s, u), |Locked(s.cache, u)|;
    var ids := Computed(r);
    var m := LongestMatch(s.cache.store, Pages(ids, cfg.ps), cfg.ps);
    ReqFacts(cfg, s, {}, [], u);
    HandOverCall(cfg, s, {}, [], u, false);
    MatchCoversLock(s.cache, u, ids, cfg.ps);
    AlignBracket(r.cachedLen, cfg.ps);
    var freed, own := Slice(Upto(row, r.cachedLen), j, m), Segment(cfg, s, {}, u);
    assert freed[0] == row[j] == own[0];
    FirstStrided(freed, cfg.ps);
    FirstStrided(own, cfg.ps);
    OwnedPage(cfg, s, u, row[j]);
  }

  lemma {:induction false} OwnedPage(cfg: Config, s: Sched, u: int, x: int)
    requires RInv(cfg, s, {}, []) && u in s.cache.held && x in Strided(Segment(cfg, s, {}, u), cfg.ps)
    ensures x / cfg.ps * cfg.ps == x
  {
    hide RInv, Strided, Segment, Aligned;
    SchedIsolation.OwnPagesAligned(cfg, s, {}, u, x);
    AlignedPage(x, cfg.ps);
  }

  lemma {:induction false} ReadsOn(cfg: Config, s: Sched, s': Sched, us: set<int>, u: int, j: nat)
    requires ReadsFree(cfg, s, u, j) && Grown(cfg, s, s', us) && u !in us
    ensures ReadsFree(cfg, s', u, j)
  {
    hide CacheOk, Named, RowAt;
    var page := RowOf(s, u)[j] / cfg.ps * cfg.ps;
    assert Get(s'.reqs, u) == Get(s.reqs, u) && u in s'.running;
    var k :| 0 <= k < |s.cache.free| && s.cache.free[k] == page;
    assert s'.cache.free[k] == page;
  }

  lemma {:induction false} EntryReads(cfg: Config, p: Post, es: seq<Entry>, token: int) returns (j: nat)
    requires PInv(cfg, p, es) && es != [] && Overtakes(cfg, p, true, es[0], token)
    ensures ReadsFree(cfg, ProcessEntry(cfg, p, true, es[0], token).s, es[0].uid, j)
  {
    hide LInv, WaitsOk, WaitOk, DoneOk, Waiting, HandOver, IsFinished, Overtaken, Locked, RowOf;
    var e, s := es[0], p.s;
    var s1 := Appended(s, e.uid, token);
    WaitsRest(cfg, s, es);
    WaitKeys(cfg, s, e, token);
    WaitSettled(cfg, s, e, token);
    AppendLive(cfg, s, e, token, Waiting(es));
    HeldCache(cfg, s1, Waiting(es));
    WaitingLive(cfg, s, es, e.uid);
    UnfinishedRuns(cfg, s, e, token);
    OvertakenFrees(cfg, s1, e.uid);
    j := |Locked(s1.cache, e.uid)|;
    SameRow(s1, KeepCached(cfg, s1, e.uid), e.uid);
  }

  lemma {:induction false} SameRow(s: Sched, s': Sched, u: int)
    requires s'.reqs == s.reqs && s'.table == s.table
    ensures RowOf(s', u) == RowOf(s, u)
  {
  }

  /** Once a hand-over of the batch is overtaken, some running request reads a free page when the batch is processed. */
  lemma {:induction false} OvertakingReads(cfg: Config, p: Post, prefill: bool, es: seq<Entry>, tokens: seq<int>)
    returns (u: int, j: nat)
    requires |tokens| == |es| && PInv(cfg, p, es) && DistinctEntries(es) && Named(p.s.reqs)
    requires Overtaking(cfg, p, prefill, es, tokens)
    ensures ReadsFree(cfg, ProcessEntries(cfg, p, prefill, es, tokens).s, u, j)
    decreases |es|
  {
    hide PInv, ProcessEntry, Overtakes, Named, DistinctEntries, Waiting, Uids, ReadsFree, Grown;
    var p1 := ProcessEntry(cfg, p, prefill, es[0], tokens[0]);
    DistinctRest(es);
    PostCache(cfg, p, es);
    EntryKeeps(cfg, p, prefill, es, tokens[0]);
    EntryGrows(cfg, p, prefill, es[0], tokens[0]);
    PostSame(cfg, p.s, p1.s, if Handled(p.s, es[0]) then {es[0].uid} else {});
    if Overtakes(cfg, p, prefill, es[0], tokens[0]) {
      u := es[0].uid;
      OvertakesPrefill(cfg, p, prefill, es[0], tokens[0]);
      j := EntryReads(cfg, p, es, tokens[0]);
      EntriesGrow(cfg, p1, prefill, es[1..], tokens[1..]);
      WaitingUids(es[1..]);
      ReadsOn(cfg, p1.s, ProcessEntries(cfg, p, prefill, es, tokens).s, Waiting(es[1..]) - p1.s.deferred, u, j);
    } else {
      u, j := OvertakingReads(cfg, p1, prefill, es[1..], tokens[1..]);
    }
  }

  lemma {:induction false} OvertakesPrefill(cfg: Config, p: Post, prefill: bool, e: Entry, token: int)
    requires Overtakes(cfg, p, prefill, e, token)
    ensures prefill
  {
  }

  lemma {:induction false} PostCache(cfg: Config, p: Post, es: seq<Entry>)
    requires PInv(cfg, p, es)
    ensures CacheOk(p.s.cache, cfg.ps)
  {
    hide LInv, WaitsOk, DoneOk, CacheOk;
    HeldCache(cfg, p.s, Waiting(es));
  }

  lemma {:induction false} NormalReads(cfg: Config, s: Sched, i: Input)
    requires NInv(cfg, s) && Admissible(cfg, s, i) && Named(s.reqs) && TickOvertakes(cfg, s, i)
    ensures !SafeReads(cfg, NormalTick(cfg, s, i).0)
  {
    hide AllFresh, ProcessMsgs, Schedule, CanPrepare, Prepare, Forward, ProcessEntries, LInv, Planned, RInv, Waiting,
      Overtaking, Uids, Named, Ctrl, ReadsFree, DistinctEntries;
    var s0 := ProcessMsgs(cfg, s, i.msgs);
    MsgsKeep(cfg, s, i.msgs);
    PlainCtrl(cfg, s);
    OverlapMirror.MsgsActive(cfg, s, i.msgs);
    PlainCtrl(cfg, s0);
    LaunchNames(cfg, s0, i);
    ScheduleKeeps(cfg, s0);
    var (s1, b) := Schedule(cfg, s0);
    var tokens := TokensFor(b.value, i.tokens);
    BatchRuns(cfg, s1, b.value, i.ev, tokens);
    var s2 := Forward(cfg, Prepare(cfg, s1, b.value, i.ev), b.value, tokens);
    NoneDone(s2);
    var u, j := OvertakingReads(cfg, Post(s2, [], {}), b.value.prefill, b.value.entries, tokens);
    var s3 := ProcessEntries(cfg, Post(s2, [], {}), b.value.prefill, b.value.entries, tokens).s;
    StillReads(cfg, s3, NormalTick(cfg, s, i).0, u, j);
  }

  lemma {:induction false} StillReads(cfg: Config, s: Sched, s': Sched, u: int, j: nat)
    requires ReadsFree(cfg, s, u, j) && s'.cache == s.cache && s'.reqs == s.reqs && s'.table == s.table
    requires s'.running == s.running
    ensures ReadsFree(cfg, s', u, j)
  {
  }

  /** Every state of the run so far is safe. */
  ghost predicate AlwaysSafe(cfg: Config, ins: seq<Input>) {
    forall n: nat {:trigger ins[..n]} | n <= |ins| :: SafeReads(cfg, StateAfter(cfg, ins[..n]))
  }

  lemma {:induction false} AlwaysStep(cfg: Config, ins: seq<Input>, i: Input)
    ensures AlwaysSafe(cfg, ins + [i]) <==> AlwaysSafe(cfg, ins) && SafeReads(cfg, StateAfter(cfg, ins + [i]))
  {
    hide StateAfter, SafeReads;
    var all := ins + [i];
    assert all[..|all|] == all;
    forall n: nat | n <= |ins|
      ensures all[..n] == ins[..n]
    {
    }
  }

  /** Over runs of the normal loop: no running request ever reads a free page exactly when no hand-over of a request
  that goes on was overtaken. */
  lemma {:induction false} SafeExactly(cfg: Config, ins: seq<Input>)
    requires IsRun(cfg, ins)
    ensures AlwaysSafe(cfg, ins) <==> NeverOvertaken(cfg, ins)
    decreases |ins|
  {
    hide NInv, NormalTick, Admissible, CfgOk, KvRight, TickOvertakes, StateAfter, SafeReads, Named, AlwaysSafe;
    if ins == [] {
      StartSafe(cfg);
    } else {
      var was, i := ins[..|ins| - 1], ins[|ins| - 1];
      assert ins == was + [i];
      RunTick(cfg, was, i);
      SafeExactly(cfg, was);
      AlwaysStep(cfg, was, i);
      Reachable(cfg, was);
      RunNamed(cfg, was);
      if TickOvertakes(cfg, StateAfter(cfg, was), i) {
        NormalReads(cfg, StateAfter(cfg, was), i);
      }
      if NeverOvertaken(cfg, ins) {
        RunSafe(cfg, ins);
      }
    }
  }

  lemma {:induction false} StartSafe(cfg: Config)
    ensures AlwaysSafe(cfg, [])
  {
    hide Range;
  }

  lemma {:induction false} RunSafe(cfg: Config, ins: seq<Input>)
    requires IsRun(cfg, ins) && NeverOvertaken(cfg, ins)
    ensures SafeReads(cfg, StateAfter(cfg, ins))
  {
    hide NInv, KvRight, StateAfter, SafeReads, IsRun, NeverOvertaken;
    Reachable(cfg, ins);
    RunRight(cfg, ins);
    RunningHeld(cfg, StateAfter(cfg, ins));
    RightSafe(cfg, StateAfter(cfg, ins), KvAfter(cfg, ins));
  }

  lemma {:induction false} RunningHeld(cfg: Config, s: Sched)
    requires NInv(cfg, s)
    ensures s.running <= s.cache.held.Keys && RInv(cfg, s, {}, [])
  {
    hide RInv, QueueOk, HeadOk, RunningOk, DoneOk;
  }
}
