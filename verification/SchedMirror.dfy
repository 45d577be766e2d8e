/** The device token pool mirrors the host: after every tick the first `deviceLen` entries of a running request's pool
row are its host tokens, across prefix hits, chunks, decode writes, reuse of rows and the dummy write of chunks. */
module SchedMirror {
  import opened Paging
  import opened PrefixStore
  import opened CacheSpec
  import opened Requests
  import opened SchedSpec
  import opened SchedInv
  import opened SchedAdmit
  import opened SchedRound
  import opened SchedBatch
  import opened SchedForward
  import opened SchedPost
  import opened SchedRun
  import opened SchedChunks

  ghost function PoolRow(s: Sched, u: int): seq<int> {
    RowAt(s.pool, Get(s.reqs, u).row)
  }

  /** The pool row of `u` starts with its host tokens. */
  ghost predicate Mirror(s: Sched, u: int) {
    Upto(PoolRow(s, u), |Get(s.reqs, u).ids|) == Get(s.reqs, u).ids
  }

  ghost predicate Mirrors(s: Sched, us: set<int>) {
    forall u {:trigger Mirror(s, u)} | u in us :: Mirror(s, u)
  }

  lemma {:induction false} MirrorSame(s: Sched, s': Sched, u: int)
    requires Mirror(s, u) && Get(s'.reqs, u) == Get(s.reqs, u) && PoolRow(s', u) == PoolRow(s, u)
    ensures Mirror(s', u)
  {
  }

  lemma {:induction false} MirrorsSame(s: Sched, s': Sched, us: set<int>, us': set<int>)
    requires Mirrors(s, us) && us' <= us && s'.reqs == s.reqs && s'.pool == s.pool
    ensures Mirrors(s', us')
  {
    hide Mirror;
    forall u | u in us'
      ensures Mirror(s', u)
    {
      MirrorSame(s, s', u);
    }
  }

  ghost function Live(s: Sched): set<int> {
    s.cache.held.Keys
  }

  // ---- messages

  lemma {:induction false} MsgMirrors(cfg: Config, s: Sched, m: Msg)
    requires NInv(cfg, s) && Fresh(s, m) && Mirrors(s, Live(s))
    ensures Mirrors(ProcessMsg(cfg, s, m), Live(ProcessMsg(cfg, s, m)))
  {
    hide NInv, Mirrors, Clamp, HandOver, DropPending, FindPending;
    var s' := ProcessMsg(cfg, s, m);
    MsgKeeps(cfg, s, m);
    MsgHeld(cfg, s, m);
    MirrorsSame(s, s', Live(s), Live(s'));
  }

  /** No message gives a request resources. */
  lemma {:induction false} MsgHeld(cfg: Config, s: Sched, m: Msg)
    requires NInv(cfg, s) && NInv(cfg, ProcessMsg(cfg, s, m))
    ensures Live(ProcessMsg(cfg, s, m)) <= Live(s)
  {
    hide RInv, QueueOk, HeadOk, RunningOk, DoneOk, Clamp, HandOver, DropPending, FindPending, ChunkUids;
    HeldIs(cfg, s);
    HeldIs(cfg, ProcessMsg(cfg, s, m));
    if m.UserMsg? {
      var params := if |m.ids| < cfg.maxSeqLen then Clamp(cfg, m.params, |m.ids|) else m.params;
      ChunkUidsAppend(s.pending, Pending(m.uid, m.ids, params, false));
    } else {
      QueueDistinct(cfg, s);
      DropChunks(s.pending, m.uid);
    }
  }

  lemma {:induction false} HeldIs(cfg: Config, s: Sched)
    requires NInv(cfg, s)
    ensures Live(s) == s.running + ChunkUids(s.pending)
  {
    hide RInv, QueueOk, HeadOk, RunningOk, DoneOk;
  }

  lemma {:induction false} MsgsMirror(cfg: Config, s: Sched, msgs: seq<Msg>)
    requires NInv(cfg, s) && AllFresh(cfg, s, msgs) && Mirrors(s, Live(s))
    ensures Mirrors(ProcessMsgs(cfg, s, msgs), Live(ProcessMsgs(cfg, s, msgs)))
    decreases |msgs|
  {
    hide NInv, Fresh, ProcessMsg, Mirrors;
    if msgs != [] {
      MsgKeeps(cfg, s, msgs[0]);
      MsgMirrors(cfg, s, msgs[0]);
      MsgsMirror(cfg, ProcessMsg(cfg, s, msgs[0]), msgs[1..]);
    }
  }

  // ---- admission

  /** Writing one row leaves all other rows alone. */
  lemma {:induction false} OtherRows(t: Table, row: int, at: nat, vals: seq<int>, other: int)
    requires other != row
    ensures RowAt(WriteRow(t, row, at, vals), other) == RowAt(t, other)
  {
  }

  /** Writing behind a known beginning extends it. */
  lemma {:induction false} WriteExtends(t: Table, row: int, at: nat, vals: seq<int>, known: seq<int>)
    requires 0 <= row < |t| && at + |vals| <= |t[row]| && |known| == at && Upto(RowAt(t, row), at) == known
    ensures Upto(RowAt(WriteRow(t, row, at, vals), row), at + |vals|) == known + vals
  {
    var a, b := t[row], WriteRow(t, row, at, vals)[row];
    assert b == a[..at] + vals + a[at + |vals|..];
    assert b[..at + |vals|] == a[..at] + vals;
  }

  lemma {:induction false} PoolFits(cfg: Config, s: Sched, row: int)
    requires RInv(cfg, s, {}, []) && 0 <= row < cfg.numRows
    ensures row < |s.pool| && |s.pool[row]| == cfg.width >= cfg.maxSeqLen
  {
    hide ReqsInv, Owned, CacheOk, AlignUp;
  }

  lemma {:induction false} ChunkMirror(cfg: Config, s: Sched, a: Adder, queue: seq<Pending>, busy: set<int>)
    requires LInv(cfg, s, queue, busy) && queue != [] && queue[0].chunk && TryAddOne(cfg, s, a, queue[0]).Some?
    requires Mirror(s, queue[0].uid)
    ensures Mirror(TryAddOne(cfg, s, a, queue[0]).value.0, queue[0].uid)
  {
    hide RInv, RunningOk, DoneOk, WriteRow, QueueOk, Shape;
    var p := queue[0];
    var r := Get(s.reqs, p.uid);
    var (s', a', q) := TryAddOne(cfg, s, a, p).value;
    assert p in queue;
    ReqFacts(cfg, s, {}, [], p.uid);
    PoolFits(cfg, s, r.row);
    QueueHeadFits(cfg, s, queue);
    WriteExtends(s.pool, r.row, r.cachedLen, p.ids[r.cachedLen..q.deviceLen], r.ids);
    assert p.ids[..r.cachedLen] + p.ids[r.cachedLen..q.deviceLen] == p.ids[..q.deviceLen];
    MirrorIs(s', p.uid, p.ids[..q.deviceLen]);
  }

  lemma {:induction false} QueueHeadFits(cfg: Config, s: Sched, queue: seq<Pending>)
    requires QueueOk(cfg, s, queue) && queue != []
    ensures |queue[0].ids| <= cfg.maxSeqLen
  {
  }

  /** Two writes, one behind the other, from the beginning of a row; the first is skipped when it is empty. */
  lemma {:induction false} TwoWrites(t: Table, row: int, a: seq<int>, b: seq<int>, width: nat)
    requires 0 <= row < |t| && Shape(t, |t|, width) && |a| + |b| <= width
    ensures var t1 := if a == [] then t else WriteRow(t, row, 0, a);
            Upto(RowAt(WriteRow(t1, row, |a|, b), row), |a| + |b|) == a + b
  {
    hide WriteRow;
    var t1 := if a == [] then t else WriteRow(t, row, 0, a);
    WriteExtends(t, row, 0, a, []);
    WriteRowFacts(t, row, 0, a, |t|, width);
    assert [] + a == a;
    WriteExtends(t1, row, |a|, b, a);
  }

  lemma {:induction false} NewMirror(cfg: Config, s: Sched, a: Adder, p: Pending)
    requires RInv(cfg, s, {}, []) && PendOk(cfg, p) && !p.chunk && TryAddOne(cfg, s, a, p).Some?
    ensures Mirror(TryAddOne(cfg, s, a, p).value.0, p.uid)
  {
    hide RInv, WriteRow, LongestMatch, Avail, SlotsOf, Mirror, Shape, TryAddOne;
    NewWrites(cfg, s, a, p);
    var (s', a', q) := TryAddOne(cfg, s, a, p).value;
    var n, row := q.cachedLen, q.row;
    FreeRowRange(cfg, s, {}, [], row);
    PoolFits(cfg, s, row);
    PoolShapeOf(cfg, s);
    var more := p.ids[n..q.deviceLen];
    TwoWrites(s.pool, row, p.ids[..n], more, cfg.width);
    assert p.ids[..n] + more == p.ids[..q.deviceLen];
    MirrorIs(s', p.uid, p.ids[..q.deviceLen]);
  }

  /** What the admission of a new request writes to the pool. */
  lemma {:induction false} NewWrites(cfg: Config, s: Sched, a: Adder, p: Pending)
    requires !p.chunk && p.ids != [] && TryAddOne(cfg, s, a, p).Some?
    ensures var (s', a', q) := TryAddOne(cfg, s, a, p).value;
            var n := q.cachedLen;
            && s.rows != [] && q.row == s.rows[|s.rows| - 1]
            && n < q.deviceLen <= |p.ids| && q.ids == p.ids[..q.deviceLen] && Get(s'.reqs, p.uid) == q
            && s'.pool == WriteRow(if p.ids[..n] == [] then s.pool else WriteRow(s.pool, q.row, 0, p.ids[..n]),
                                 q.row, n, p.ids[n..q.deviceLen])
  {
    hide WriteRow, LongestMatch, Avail, SlotsOf;
  }

  lemma {:induction false} MirrorIs(s: Sched, u: int, ids: seq<int>)
    requires Get(s.reqs, u).ids == ids && Upto(PoolRow(s, u), |ids|) == ids
    ensures Mirror(s, u)
  {
  }

  lemma {:induction false} PoolShapeOf(cfg: Config, s: Sched)
    requires RInv(cfg, s, {}, [])
    ensures Shape(s.pool, |s.pool|, cfg.width)
  {
    hide ReqsInv, Owned, CacheOk, AlignUp;
  }

  /** A step of the round writes no other request's row. */
  lemma {:induction false} StepOthers(cfg: Config, s: Sched, a: Adder, queue: seq<Pending>, busy: set<int>, v: int)
    requires LInv(cfg, s, queue, busy) && Apart(queue, busy) && queue != [] && TryAddOne(cfg, s, a, queue[0]).Some?
    requires v in s.cache.held && v != queue[0].uid
    ensures var s' := TryAddOne(cfg, s, a, queue[0]).value.0;
            PoolRow(s', v) == PoolRow(s, v) && Get(s'.reqs, v) == Get(s.reqs, v)
  {
    hide RInv, RunningOk, DoneOk, WriteRow, LongestMatch, Avail, SlotsOf, QueueOk;
    var p, s' := queue[0], TryAddOne(cfg, s, a, queue[0]).value.0;
    var row := if p.chunk then Get(s.reqs, p.uid).row else s.rows[|s.rows| - 1];
    if p.chunk {
      assert p in queue;
      RowsApart(cfg, s, {}, [], p.uid, v);
    } else {
      FreeRowApart(cfg, s, {}, [], row, v);
    }
    var vr := Get(s.reqs, v).row;
    var q := TryAddOne(cfg, s, a, p).value.2;
    var n := q.cachedLen;
    OtherRows(s.pool, row, 0, p.ids[..n], vr);
    var pool1 := if p.chunk || n == 0 then s.pool else WriteRow(s.pool, row, 0, p.ids[..n]);
    OtherRows(pool1, row, n, p.ids[n..q.deviceLen], vr);
  }

  lemma {:induction false} StepMirrors(cfg: Config, s: Sched, a: Adder, queue: seq<Pending>, busy: set<int>,
                                       others: set<int>)
    requires LInv(cfg, s, queue, busy) && Apart(queue, busy) && queue != [] && TryAddOne(cfg, s, a, queue[0]).Some?
    requires Mirrors(s, Live(s) - others) && others !! ChunkUids(queue)
    ensures var s' := TryAddOne(cfg, s, a, queue[0]).value.0; Mirrors(s', Live(s') - others)
  {
    hide RInv, QueueOk, RunningOk, DoneOk, HeadOk, Apart, TryAddOne, Mirror, AddedFrom, PoolRow, NewAdmit;
    var s' := TryAddOne(cfg, s, a, queue[0]).value.0;
    StepUid(cfg, s, a, queue[0]);
    if queue[0].chunk {
      assert queue[0] in queue && queue[0].uid in ChunkUids(queue);
      ChunkStep(cfg, s, a, queue, busy);
      ChunkMirror(cfg, s, a, queue, busy);
    } else {
      NewStep(cfg, s, a, queue, busy);
      NewIdle(cfg, s, queue, busy);
      NewMirror(cfg, s, a, queue[0]);
    }
    forall v | v in Live(s') - others
      ensures Mirror(s', v)
    {
      if v != queue[0].uid {
        StepOthers(cfg, s, a, queue, busy, v);
        MirrorSame(s, s', v);
      }
    }
  }

  lemma {:induction false} RoundMirrors(cfg: Config, s: Sched, a: Adder, queue: seq<Pending>, busy: set<int>,
                                        others: set<int>)
    requires LInv(cfg, s, queue, busy) && Apart(queue, busy) && a.budget >= 0
    requires Mirrors(s, Live(s) - others) && others !! ChunkUids(queue)
    ensures var s' := AddAll(cfg, s, a, queue).s; Mirrors(s', Live(s') - others)
    decreases |queue|
  {
    hide LInv, Apart, TryAddOne, Mirrors, AddedFrom, Gave, ChunkUids;
    if queue != [] && TryAddOne(cfg, s, a, queue[0]).Some? {
      var (s1, a1, q) := TryAddOne(cfg, s, a, queue[0]).value;
      StepKeeps(cfg, s, a, queue, busy);
      StepMirrors(cfg, s, a, queue, busy, others);
      ChunkUidsRest(queue);
      RoundMirrors(cfg, s1, a1, queue[1..], busy + {q.uid}, others);
    }
  }

  lemma {:induction false} ChunkUidsRest(queue: seq<Pending>)
    requires queue != []
    ensures ChunkUids(queue[1..]) <= ChunkUids(queue)
  {
    assert forall p | p in queue[1..] :: p in queue;
  }

  lemma {:induction false} ScheduleMirrors(cfg: Config, s: Sched, others: set<int>)
    requires LInv(cfg, s, s.pending, others) && Aside(s, others) && Mirrors(s, Live(s) - others)
    ensures var s1 := Schedule(cfg, s).0; Mirrors(s1, Live(s1) - others)
  {
    hide LInv, AddAll, InflightTokens, NextQueue, RoundOk, Mirrors, Sorted, ChunkUids;
    var a := Adder(cfg.budget, InflightTokens(cfg, s));
    QueueApart(cfg, s, others);
    PrefillLive(cfg, s, others);
    RoundMirrors(cfg, s, a, s.pending, others, others);
    var r := AddAll(cfg, s, a, s.pending);
    if r.added != [] {
      MirrorsSame(r.s, Schedule(cfg, s).0, Live(r.s) - others, Live(r.s) - others);
    }
  }

  // ---- the forward pass

  /** The pool row of `u` starts with its host tokens followed by the token just sampled for it. */
  ghost predicate Ahead(s: Sched, u: int, token: int) {
    Upto(PoolRow(s, u), |Get(s.reqs, u).ids| + 1) == Get(s.reqs, u).ids + [token]
  }

  /** The commit of one request writes its sampled token right behind its tokens, or, for one that does not run on, into
  the last column, which is behind a chunk's tokens. */
  lemma {:induction false} CommitOneMirror(cfg: Config, s: Sched, prep: set<int>, e: Entry, token: int)
    requires RInv(cfg, s, prep, []) && e.uid in s.cache.held && EntryOk(cfg, s, e) && Mirror(s, e.uid)
    ensures var s' := CommitOne(cfg, s, e.uid, token);
            && (Get(s.reqs, e.uid).CanDecode() ==> Ahead(s', e.uid, token))
            && (e.chunked ==> Mirror(s', e.uid))
  {
    hide RInv, WriteRow;
    var r, s' := Get(s.reqs, e.uid), CommitOne(cfg, s, e.uid, token);
    ReqFacts(cfg, s, prep, [], e.uid);
    PoolFitsAt(cfg, s, prep, r.row);
    if r.CanDecode() {
      WriteExtends(s.pool, r.row, r.deviceLen, [token], r.ids);
    } else if e.chunked {
      WriteBehind(s.pool, r.row, cfg.width - 1, [token], r.ids);
    }
  }

  lemma {:induction false} WriteBehind(t: Table, row: int, at: nat, vals: seq<int>, known: seq<int>)
    requires 0 <= row < |t| && at + |vals| <= |t[row]| && |known| <= at && Upto(RowAt(t, row), |known|) == known
    ensures Upto(RowAt(WriteRow(t, row, at, vals), row), |known|) == known
  {
    var a, b := t[row], WriteRow(t, row, at, vals)[row];
    assert b == a[..at] + vals + a[at + |vals|..];
    assert b[..|known|] == a[..|known|];
  }

  lemma {:induction false} PoolFitsAt(cfg: Config, s: Sched, prep: set<int>, row: int)
    requires RInv(cfg, s, prep, []) && 0 <= row < cfg.numRows
    ensures row < |s.pool| && |s.pool[row]| == cfg.width >= cfg.maxSeqLen > 0
  {
    hide ReqsInv, Owned, CacheOk, AlignUp;
  }

  lemma {:induction false} CommitOneOthers(cfg: Config, s: Sched, prep: set<int>, u: int, token: int, v: int)
    requires RInv(cfg, s, prep, []) && u in s.cache.held && v in s.cache.held && v != u
    ensures var s' := CommitOne(cfg, s, u, token);
            PoolRow(s', v) == PoolRow(s, v) && Get(s'.reqs, v) == Get(s.reqs, v)
  {
    hide RInv, WriteRow, WritePos;
    RowsApart(cfg, s, prep, [], u, v);
    var pos := WritePos(cfg, Get(s.reqs, u));
    if pos >= 0 {
      OtherRows(s.pool, Get(s.reqs, u).row, pos, [token], Get(s.reqs, v).row);
    }
  }

  lemma {:induction false} CommitOthers(cfg: Config, s: Sched, prep: set<int>, es: seq<Entry>, tokens: seq<int>, v: int)
    requires RInv(cfg, s, prep, []) && Uids(es) <= prep && Uids(es) <= s.cache.held.Keys
    requires DistinctEntries(es) && |tokens| == |es| && v in s.cache.held && v !in Uids(es)
    ensures var s' := Commit(cfg, s, es, tokens);
            PoolRow(s', v) == PoolRow(s, v) && Get(s'.reqs, v) == Get(s.reqs, v)
    decreases |es|
  {
    hide RInv, CommitOne, Uids, PoolRow;
    if es != [] {
      UidsSplit(es);
      DistinctRest(es);
      CommitOneKeeps(cfg, s, prep, es[0].uid, tokens[0]);
      CommitOneOthers(cfg, s, prep, es[0].uid, tokens[0], v);
      CommitOthers(cfg, CommitOne(cfg, s, es[0].uid, tokens[0]), prep - {es[0].uid}, es[1..], tokens[1..], v);
    }
  }

  /** After the commit every request of the batch that runs on is one token ahead on the device, every chunk mirrors. */
  lemma {:induction false} CommitAhead(cfg: Config, s: Sched, prep: set<int>, es: seq<Entry>, tokens: seq<int>, i: nat)
    requires RInv(cfg, s, prep, []) && Uids(es) <= prep && Uids(es) <= s.cache.held.Keys
    requires DistinctEntries(es) && |tokens| == |es| && i < |es| && EntryOk(cfg, s, es[i]) && Mirror(s, es[i].uid)
    ensures var s' := Commit(cfg, s, es, tokens);
            && (Get(s.reqs, es[i].uid).CanDecode() ==> Ahead(s', es[i].uid, tokens[i]))
            && (es[i].chunked ==> Mirror(s', es[i].uid))
    decreases |es|
  {
    hide RInv, CommitOne, Uids, PoolRow, EntryOk, Mirror, Ahead;
    UidsSplit(es);
    DistinctRest(es);
    CommitOneKeeps(cfg, s, prep, es[0].uid, tokens[0]);
    var s1 := CommitOne(cfg, s, es[0].uid, tokens[0]);
    if i == 0 {
      CommitOneMirror(cfg, s, prep, es[0], tokens[0]);
      CommitOthers(cfg, s1, prep - {es[0].uid}, es[1..], tokens[1..], es[0].uid);
      AheadSame(s1, Commit(cfg, s, es, tokens), es[0].uid, tokens[0]);
    } else {
      InUids(es[1..], i - 1);
      CommitOneOthers(cfg, s, prep, es[0].uid, tokens[0], es[i].uid);
      AheadSame(s, s1, es[i].uid, 0);
      EntrySame(cfg, s, s1, es[i]);
      CommitAhead(cfg, s1, prep - {es[0].uid}, es[1..], tokens[1..], i - 1);
    }
  }

  lemma {:induction false} EntrySame(cfg: Config, s: Sched, s': Sched, e: Entry)
    requires EntryOk(cfg, s, e) && Get(s'.reqs, e.uid) == Get(s.reqs, e.uid) && s.reqs.Keys <= s'.reqs.Keys
    ensures EntryOk(cfg, s', e)
  {
  }

  lemma {:induction false} AheadSame(s: Sched, s': Sched, u: int, token: int)
    requires PoolRow(s', u) == PoolRow(s, u) && Get(s'.reqs, u) == Get(s.reqs, u)
    ensures Mirror(s, u) ==> Mirror(s', u)
    ensures Ahead(s, u, token) ==> Ahead(s', u, token)
  {
  }

  /** What the pool holds before post-processing: everybody but the waiting requests and `others` mirrors, and the
  waiting ones that run on are one token ahead. */
  ghost predicate Awaiting(s: Sched, es: seq<Entry>, tokens: seq<int>, others: set<int> := {}) {
    && |tokens| == |es| && Mirrors(s, Live(s) - Waiting(es) - others)
    && forall i {:trigger es[i]} | 0 <= i < |es| && !es[i].chunked && es[i].uid in s.running ::
         Ahead(s, es[i].uid, tokens[i])
  }

  lemma {:induction false} ForwardMirrors(cfg: Config, s: Sched, b: Batch, tokens: seq<int>, others: set<int>)
    requires RInv(cfg, s, Uids(b.entries), []) && Planned(cfg, s, b, others) && |tokens| == |b.entries|
    requires Mirrors(s, Live(s) - others)
    ensures Awaiting(Forward(cfg, s, b, tokens), b.entries, tokens, others)
  {
    hide RInv, Planned, Mirror, Ahead, Commit, Uids, DistinctEntries, EntryOk, Waiting;
    var s1 := Commit(cfg, s, b.entries, tokens);
    PlannedEntries(cfg, s, b, others);
    PlannedApart(cfg, s, b, others);
    CommitAdvances(cfg, s, b.entries, tokens);
    var s2 := Filter(s1, b.entries);
    forall u | u in Live(s2) - Waiting(b.entries) - others
      ensures Mirror(s2, u)
    {
      if u in Uids(b.entries) {
        var i := EntryOf(b.entries, u);
        InUids(b.entries, i);
        EntryAfter(cfg, s, s1, b, i, others);
        CommitAhead(cfg, s, Uids(b.entries), b.entries, tokens, i);
      } else {
        CommitOthers(cfg, s, Uids(b.entries), b.entries, tokens, u);
        AheadSame(s, s1, u, 0);
      }
      AheadSame(s1, s2, u, 0);
    }
    forall i | 0 <= i < |b.entries| && !b.entries[i].chunked && b.entries[i].uid in s2.running
      ensures Ahead(s2, b.entries[i].uid, tokens[i])
    {
      InUids(b.entries, i);
      EntryAfter(cfg, s, s1, b, i, others);
      EntryDecodes(cfg, s, s1, b.entries[i]);
      CommitAhead(cfg, s, Uids(b.entries), b.entries, tokens, i);
      AheadSame(s1, s2, b.entries[i].uid, tokens[i]);
    }
  }

  lemma {:induction false} PlannedApart(cfg: Config, s: Sched, b: Batch, others: set<int>)
    requires Planned(cfg, s, b, others)
    ensures others !! Uids(b.entries)
  {
    hide QueueOk, RunningOk, ChunkUids, HeadReady, ChunksQueued, EntriesOk, DoneOk, Uids;
  }

  lemma {:induction false} EntryDecodes(cfg: Config, s: Sched, s1: Sched, e: Entry)
    requires EntryOk(cfg, s, e) && Get(s1.reqs, e.uid) == Get(s.reqs, e.uid).CompleteOne()
    ensures Get(s1.reqs, e.uid).CanDecode() ==> Get(s.reqs, e.uid).CanDecode()
  {
  }

  // ---- post-processing

  lemma {:induction false} EntryMirrors(cfg: Config, p: Post, prefill: bool, es: seq<Entry>, tokens: seq<int>)
    requires PInv(cfg, p, es) && es != [] && Awaiting(p.s, es, tokens)
    ensures Awaiting(ProcessEntry(cfg, p, prefill, es[0], tokens[0]).s, es[1..], tokens[1..])
  {
    hide LInv, WaitsOk, WaitOk, DoneOk, Waiting, HandOver, IsFinished, Mirror, Ahead, DistinctEntries;
    var e, s := es[0], p.s;
    var s' := ProcessEntry(cfg, p, prefill, e, tokens[0]).s;
    WaitsRest(cfg, s, es);
    NotDeferred(cfg, s, es);
    EntryHeld(cfg, p, prefill, es, tokens[0]);
    forall u | u in Live(s') - Waiting(es[1..])
      ensures Mirror(s', u)
    {
      if u == e.uid && !e.chunked {
        assert Ahead(s, u, tokens[0]);
        AheadMirrors(s, s', u, tokens[0]);
      } else {
        AheadSame(s, s', u, 0);
      }
    }
    forall i | 0 <= i < |es[1..]| && !es[1..][i].chunked && es[1..][i].uid in s'.running
      ensures Ahead(s', es[1..][i].uid, tokens[1..][i])
    {
      assert es[1..][i] == es[i + 1] && Ahead(s, es[i + 1].uid, tokens[i + 1]);
      WaitsApart(cfg, s, es, i + 1);
      AheadSame(s, s', es[i + 1].uid, tokens[i + 1]);
    }
  }

  lemma {:induction false} WaitsApart(cfg: Config, s: Sched, es: seq<Entry>, i: nat)
    requires WaitsOk(cfg, s, es) && 0 < i < |es|
    ensures es[i].uid != es[0].uid
  {
    hide WaitOk;
  }

  lemma {:induction false} AheadMirrors(s: Sched, s': Sched, u: int, token: int)
    requires Ahead(s, u, token) && PoolRow(s', u) == PoolRow(s, u)
    requires Get(s'.reqs, u) == Get(s.reqs, u).AppendHost(token)
    ensures Mirror(s', u)
  {
  }

  /** What processing an entry does to the live requests: a finished one leaves, an unfinished one runs and is appended.
  */
  lemma {:induction false} EntryHeld(cfg: Config, p: Post, prefill: bool, es: seq<Entry>, token: int)
    requires PInv(cfg, p, es) && es != []
    ensures var s, s' := p.s, ProcessEntry(cfg, p, prefill, es[0], token).s;
            && Live(s') <= Live(s) && s'.pool == s.pool && s'.running <= s.running
            && (es[0].chunked ==> s' == s)
            && (!es[0].chunked ==> s'.reqs == s.reqs[es[0].uid := Get(s.reqs, es[0].uid).AppendHost(token)])
            && (!es[0].chunked && es[0].uid in Live(s') ==> es[0].uid in s.running)
            && (!es[0].chunked && es[0].uid !in Live(s') ==> es[0].uid !in s'.running)
  {
    hide LInv, WaitsOk, WaitOk, DoneOk, Waiting, Release, KeepCached, IsFinished;
    var e, s := es[0], p.s;
    WaitsRest(cfg, s, es);
    NotDeferred(cfg, s, es);
    if !e.chunked {
      WaitKeys(cfg, s, e, token);
      if IsFinished(cfg, Get(s.reqs, e.uid).AppendHost(token), token) {
        FinishKeeps(cfg, s, e, token, Waiting(es));
        ReleaseFrame(cfg, Appended(s, e.uid, token).(running := s.running - {e.uid}), e.uid);
        ReleasePool(cfg, Appended(s, e.uid, token).(running := s.running - {e.uid}), e.uid);
      } else {
        ContinueKeeps(cfg, s, e, token, Waiting(es), prefill);
        UnfinishedRuns(cfg, s, e, token);
        KeepFrame(cfg, Appended(s, e.uid, token), e.uid);
        KeepPool(cfg, Appended(s, e.uid, token), e.uid);
        WaitingLive(cfg, s, es, e.uid);
      }
    }
  }

  lemma {:induction false} WaitingLive(cfg: Config, s: Sched, es: seq<Entry>, u: int)
    requires LInv(cfg, s, s.pending, Waiting(es)) && u in Waiting(es)
    ensures u in s.cache.held
  {
    hide RInv, QueueOk, HeadOk, RunningOk, DoneOk, Waiting, ChunkUids;
  }

  lemma {:induction false} ReleasePool(cfg: Config, s: Sched, u: int)
    ensures Release(cfg, s, u).pool == s.pool
  {
    hide HandOver;
  }

  lemma {:induction false} KeepPool(cfg: Config, s: Sched, u: int)
    ensures KeepCached(cfg, s, u).pool == s.pool
  {
    hide HandOver;
  }

  lemma {:induction false} EntriesMirror(cfg: Config, p: Post, prefill: bool, es: seq<Entry>, tokens: seq<int>)
    requires PInv(cfg, p, es) && Awaiting(p.s, es, tokens)
    ensures var s' := ProcessEntries(cfg, p, prefill, es, tokens).s; Mirrors(s', Live(s'))
    decreases |es|
  {
    hide PInv, ProcessEntry, Mirrors;
    if es == [] {
      NoWaiting();
      assert Live(p.s) - {} == Live(p.s);
    } else {
      EntryKeeps(cfg, p, prefill, es, tokens[0]);
      EntryMirrors(cfg, p, prefill, es, tokens);
      EntriesMirror(cfg, ProcessEntry(cfg, p, prefill, es[0], tokens[0]), prefill, es[1..], tokens[1..]);
    }
  }

  // ---- ticks and runs

  lemma {:induction false} ProcessMirrors(cfg: Config, s: Sched, b: Batch, tokens: seq<int>)
    requires LInv(cfg, s, s.pending, Waiting(b.entries)) && WaitsOk(cfg, s, b.entries)
    requires Awaiting(s, b.entries, tokens)
    ensures var s' := ProcessLast(cfg, s, b, tokens).0.(acks := []); Mirrors(s', Live(s'))
  {
    hide LInv, WaitsOk, ProcessEntries, Mirrors, Waiting;
    NoneDone(s);
    EntriesMirror(cfg, Post(s, [], {}), b.prefill, b.entries, tokens);
    var p := ProcessEntries(cfg, Post(s, [], {}), b.prefill, b.entries, tokens);
    MirrorsSame(p.s, ProcessLast(cfg, s, b, tokens).0.(acks := []), Live(p.s), Live(p.s));
  }

  lemma {:induction false} PrepareMirrors(cfg: Config, s: Sched, b: Batch, ev: Eviction, others: set<int>)
    requires RInv(cfg, s, {}, []) && Planned(cfg, s, b, others) && CanPrepare(cfg, s, b, ev)
    requires Mirrors(s, Live(s) - others)
    ensures var s' := Prepare(cfg, s, b, ev); Mirrors(s', Live(s') - others)
  {
    hide RInv, Planned, CanPrepare, Prepare, Mirrors;
    PrepareKeeps(cfg, s, b, ev, others);
    var s' := Prepare(cfg, s, b, ev);
    MirrorsSame(s, s', Live(s) - others, Live(s') - others);
  }

  /** Scheduling, preparing and running a batch. */
  lemma {:induction false} BatchMirrors(cfg: Config, s: Sched, i: Input, others: set<int>)
    requires LInv(cfg, s, s.pending, others) && Aside(s, others) && Mirrors(s, Live(s) - others)
    requires var (s1, b) := Schedule(cfg, s); b.Some? && CanPrepare(cfg, s1, b.value, i.ev)
    ensures var (s1, b) := Schedule(cfg, s);
            var tokens := TokensFor(b.value, i.tokens);
            Awaiting(Forward(cfg, Prepare(cfg, s1, b.value, i.ev), b.value, tokens), b.value.entries, tokens, others)
  {
    hide LInv, Aside, Schedule, CanPrepare, Forward, Prepare, RInv, Planned, Mirrors, Awaiting, Live, Uids;
    var (s1, b) := Schedule(cfg, s);
    ScheduleLive(cfg, s, others);
    ScheduleMirrors(cfg, s, others);
    var s2 := Prepare(cfg, s1, b.value, i.ev);
    PrepareMirrors(cfg, s1, b.value, i.ev, others);
    PrepareKeeps(cfg, s1, b.value, i.ev, others);
    PlannedPrepared(cfg, s1, s2, b.value, others);
    ForwardMirrors(cfg, s2, b.value, TokensFor(b.value, i.tokens), others);
  }

  lemma {:induction false} TickMirrors(cfg: Config, s: Sched, i: Input)
    requires NInv(cfg, s) && Admissible(cfg, s, i) && Mirrors(s, Live(s))
    ensures var s' := NormalTick(cfg, s, i).0; Mirrors(s', Live(s'))
  {
    hide AllFresh, ProcessMsgs, Schedule, CanPrepare, Forward, Prepare, RInv, Planned, LInv, WaitsOk, ProcessLast,
      Mirrors, Awaiting, Live, Waiting, Uids;
    var s0 := ProcessMsgs(cfg, s, i.msgs);
    MsgsKeep(cfg, s, i.msgs);
    MsgsMirror(cfg, s, i.msgs);
    var (s1, b) := Schedule(cfg, s0);
    ScheduleKeeps(cfg, s0);
    if b.None? {
      AcksMirror(s0);
    } else {
      var tokens := TokensFor(b.value, i.tokens);
      assert Live(s0) - {} == Live(s0);
      BatchMirrors(cfg, s0, i, {});
      BatchRuns(cfg, s1, b.value, i.ev, tokens);
      ProcessMirrors(cfg, Forward(cfg, Prepare(cfg, s1, b.value, i.ev), b.value, tokens), b.value, tokens);
    }
  }

  lemma {:induction false} AcksMirror(s: Sched)
    requires Mirrors(s, Live(s))
    ensures var s' := s.(acks := []); Mirrors(s', Live(s'))
  {
    hide Mirrors;
    MirrorsSame(s, s.(acks := []), Live(s), Live(s));
  }

  /** Device mirror: in every reachable state of the normal loop, the pool row of each running request starts with its
  host tokens, all `deviceLen` of them; a queued chunk's starts with the tokens computed so far. */
  lemma {:induction false} DeviceMirror(cfg: Config, ins: seq<Input>)
    requires IsRun(cfg, ins)
    ensures var s := StateAfter(cfg, ins);
            && (forall u {:trigger Get(s.reqs, u)} | u in s.running ::
                  |Get(s.reqs, u).ids| == Get(s.reqs, u).deviceLen
                  && Upto(PoolRow(s, u), Get(s.reqs, u).deviceLen) == Get(s.reqs, u).ids)
            && (s.pending != [] && s.pending[0].chunk ==>
                  Upto(PoolRow(s, s.pending[0].uid), Get(s.reqs, s.pending[0].uid).cachedLen)
                  == Get(s.reqs, s.pending[0].uid).ids <= s.pending[0].ids)
  {
    hide IsRun, StateAfter, PoolRow, LInv;
    Reachable(cfg, ins);
    ReachableMirrors(cfg, ins);
    HeldIs(cfg, StateAfter(cfg, ins));
    MirrorsMean(cfg, StateAfter(cfg, ins), {});
  }

  /** The running requests and the queued chunk. */
  ghost function Active(s: Sched): set<int> {
    s.running + ChunkUids(s.pending)
  }

  lemma {:induction false} MirrorsMean(cfg: Config, s: Sched, others: set<int>)
    requires LInv(cfg, s, s.pending, others) && Aside(s, others) && Mirrors(s, Active(s))
    ensures forall u {:trigger Get(s.reqs, u)} | u in s.running ::
              |Get(s.reqs, u).ids| == Get(s.reqs, u).deviceLen
              && Upto(PoolRow(s, u), Get(s.reqs, u).deviceLen) == Get(s.reqs, u).ids
    ensures s.pending != [] && s.pending[0].chunk ==>
              Upto(PoolRow(s, s.pending[0].uid), Get(s.reqs, s.pending[0].uid).cachedLen)
              == Get(s.reqs, s.pending[0].uid).ids <= s.pending[0].ids
  {
    hide RInv, PoolRow, PendOk, DistinctUids;
    forall u | u in s.running
      ensures |Get(s.reqs, u).ids| == Get(s.reqs, u).deviceLen
      ensures Upto(PoolRow(s, u), Get(s.reqs, u).deviceLen) == Get(s.reqs, u).ids
    {
      assert RunOk(cfg, s, u) && Mirror(s, u);
    }
    if s.pending != [] && s.pending[0].chunk {
      assert s.pending[0] in s.pending && s.pending[0].uid in ChunkUids(s.pending);
      assert Mirror(s, s.pending[0].uid);
    }
  }

  lemma {:induction false} ReachableMirrors(cfg: Config, ins: seq<Input>)
    requires IsRun(cfg, ins)
    ensures var s := StateAfter(cfg, ins); Mirrors(s, Live(s))
    decreases |ins|
  {
    hide NInv, NormalTick, Admissible, CfgOk, Mirrors;
    if ins == [] {
      InitMirrors(cfg);
    } else {
      Reachable(cfg, ins[..|ins| - 1]);
      ReachableMirrors(cfg, ins[..|ins| - 1]);
      TickMirrors(cfg, StateAfter(cfg, ins[..|ins| - 1]), ins[|ins| - 1]);
    }
  }

  lemma {:induction false} InitMirrors(cfg: Config)
    ensures Mirrors(InitState(cfg), Live(InitState(cfg)))
  {
    hide Range;
  }
}
