/** The scheduler in place: its queues and request records, the table manager's rows and the cache manager, changed by
the methods of one tick of either loop. Each method is specified by the function of SchedSpec it carries out. In the
overlap loop the tokens of the batch in flight, `lag`, are not appended yet, and the requests of `others` wait for their
last token or their release; the normal loop has neither. */
module Scheduling {
  import opened Paging
  import opened Sums
  import opened PrefixStore
  import opened CacheSpec
  import opened Requests
  import opened RadixTree
  import opened RadixStore
  import opened RadixUse
  import opened RadixCache
  import opened Tables
  import opened CacheManagement
  import opened SchedSpec
  import opened SchedInv
  import opened SchedAdmit
  import opened SchedRound
  import opened SchedBatch
  import opened SchedForward
  import opened SchedPost
  import opened SchedRun
  import opened SchedSound
  import opened SchedIsolation
  import opened Overlap
  import opened OverlapRun
  import opened OverlapLag
  import opened OverlapOwn
  import opened SchedSettings
  import opened OverlapPages

  /** Rows of the device tables. The free ones are handed out from the end of the list. */
  class TableManager {
    const pageTable: array2<int>
    const tokenPool: array2<int>
    var freeSlots: seq<int>

    constructor (maxRunningReqs: nat, pageTable: array2<int>)
      ensures this.pageTable == pageTable && fresh(tokenPool)
      ensures freeSlots == Range(0, maxRunningReqs, 1)
      ensures tokenPool.Length0 == pageTable.Length0 && tokenPool.Length1 == pageTable.Length1
      ensures forall i, j | 0 <= i < tokenPool.Length0 && 0 <= j < tokenPool.Length1 :: tokenPool[i, j] == 0
    {
      this.pageTable := pageTable;
      freeSlots := Range(0, maxRunningReqs, 1);
      tokenPool := new int[pageTable.Length0, pageTable.Length1]((i, j) => 0);
    }

    method Allocate() returns (slot: int)
      requires freeSlots != []
      modifies this`freeSlots
      ensures old(freeSlots) == freeSlots + [slot]
    {
      slot := freeSlots[|freeSlots| - 1];
      freeSlots := freeSlots[..|freeSlots| - 1];
    }

    method Free(slot: int)
      modifies this`freeSlots
      ensures freeSlots == old(freeSlots) + [slot]
    {
      freeSlots := freeSlots + [slot];
    }
  }

  lemma {:induction false} ZeroTable(a: array2<int>)
    requires forall i, j | 0 <= i < a.Length0 && 0 <= j < a.Length1 :: a[i, j] == 0
    ensures TableOf(a) == seq(a.Length0, i => seq(a.Length1, j => 0))
  {
    var z := seq(a.Length0, i => seq(a.Length1, j => 0));
    SameTable(TableOf(a), z, a.Length0, a.Length1);
  }

  class Scheduler {
    const cfg: Config
    const tables: TableManager
    const cache: CacheManager
    var pendingList: seq<Pending>
    var runningReqs: set<int>
    var reqs: map<int, Req>
    var handles: map<int, Handle>
    var finishedReqs: set<int>
    var inflightUids: set<int>
    var deferredAborts: set<int>
    var pendingAcks: seq<int>
    ghost var freed: seq<int>

    constructor (cfg: Config)
      ensures Valid() && View() == InitState(cfg) && this.cfg == cfg && !cache.lazy && fresh(Repr())
    {
      hide CacheManager.Valid, CacheManager.View, TableOf, Range;
      this.cfg := cfg;
      var pageTable := new int[cfg.numRows + 1, cfg.width]((i, j) => 0);
      var tables := new TableManager(cfg.numRows, pageTable);
      var cache := new CacheManager(cfg.numPages, cfg.ps, pageTable);
      this.tables, this.cache := tables, cache;
      pendingList, runningReqs, reqs, handles := [], {}, map[], map[];
      finishedReqs, inflightUids, deferredAborts, pendingAcks := {}, {}, {}, [];
      freed := [];
      new;
      ZeroTable(cache.pageTable);
      ZeroTable(tables.tokenPool);
    }

    /** The scheduler as a value. */
    ghost function View(): Sched
      reads this, tables, cache, cache.prefixCache, cache.pageTable, tables.tokenPool
    {
      Sched(pendingList, runningReqs, reqs, finishedReqs, inflightUids, deferredAborts, pendingAcks,
            tables.freeSlots, cache.View(), TableOf(cache.pageTable), TableOf(tables.tokenPool), freed)
    }

    /** The objects fit together: shared tables of the configured size, and the handle of every lock at hand. */
    ghost predicate Valid()
      reads this`handles, cache, cache.prefixCache, cache.prefixCache.nodes
    {
      && cache.Valid() && cache.pageSize == cfg.ps && cache.numPages == cfg.numPages
      && tables.pageTable == cache.pageTable && tables.tokenPool != cache.pageTable
      && cache.pageTable.Length0 == cfg.numRows + 1 && cache.pageTable.Length1 == cfg.width
      && tables.tokenPool.Length0 == cfg.numRows + 1 && tables.tokenPool.Length1 == cfg.width
      && HandlesOk()
    }

    ghost predicate HandlesOk()
      reads this`handles, cache.prefixCache
    {
      forall u {:trigger handles[u]} {:trigger cache.prefixCache.held[u]} | u in cache.prefixCache.held ::
        u in handles && handles[u].node == cache.prefixCache.held[u] && cache.prefixCache.HandleOk(handles[u])
    }

    /** Everything the scheduler changes. */
    ghost function Repr(): set<object>
      reads cache, cache.prefixCache
    {
      {this, tables, cache, cache.prefixCache, cache.pageTable, tables.tokenPool} + cache.prefixCache.nodes
    }

    // ---- releasing and caching

    /** What a hand-over asks of a request's record. */
    ghost predicate CanHandOver(u: int)
      reads this`reqs, cache.prefixCache
    {
      && u in reqs && u in cache.prefixCache.held && reqs[u].uid == u && 0 <= reqs[u].row < cfg.numRows
      && reqs[u].cachedLen <= |reqs[u].ids| && reqs[u].cachedLen <= cfg.width
    }

    /** Gives a request's row back and hands its computed tokens over for good. */
    method FreeReqResources(u: int)
      requires Valid() && CanHandOver(u)
      modifies tables`freeSlots, cache`freeSlots, cache`lazyFreeList, cache`clock, cache`lastUse, cache.prefixCache,
        cache.prefixCache.nodes, this`freed
      ensures Valid() && View() == Release(cfg, old(View()), u)
      ensures old(cache.prefixCache.nodes) <= cache.prefixCache.nodes
      ensures fresh(cache.prefixCache.nodes - old(cache.prefixCache.nodes))
    {
      hide CacheManager.Valid, CacheReqOp;
      var req := reqs[u];
      tables.Free(req.row);
      var h := cache.CacheReq(req, handles[u], true);
      freed := freed + [u];
    }

    /** Hands a request's computed tokens over and moves its lock along. */
    method KeepReq(u: int)
      requires Valid() && CanHandOver(u)
      modifies cache`freeSlots, cache`lazyFreeList, cache`clock, cache`lastUse, cache.prefixCache,
        cache.prefixCache.nodes, this`handles
      ensures Valid() && View() == KeepCached(cfg, old(View()), u)
      ensures old(cache.prefixCache.nodes) <= cache.prefixCache.nodes
      ensures fresh(cache.prefixCache.nodes - old(cache.prefixCache.nodes))
    {
      hide CacheManager.Valid, CacheReqOp;
      var h := cache.CacheReq(reqs[u], handles[u], false);
      handles := handles[u := h];
    }

    // ---- messages

    /** Takes the entry of `u` out of the queue; says whether part of its prompt was computed. */
    method AbortPending(u: int) returns (chunk: bool)
      modifies this`pendingList
      ensures pendingList == DropPending(old(pendingList), u)
      ensures var k := FindPending(old(pendingList), u); chunk <==> k < |old(pendingList)| && old(pendingList)[k].chunk
    {
      for i := 0 to |pendingList|
        invariant pendingList == old(pendingList) && forall j | 0 <= j < i :: pendingList[j].uid != u
      {
        if pendingList[i].uid == u {
          FoundAt(pendingList, u, i);
          chunk := pendingList[i].chunk;
          pendingList := pendingList[..i] + pendingList[i + 1..];
          return;
        }
      }
      NotFound(pendingList, u);
      chunk := false;
    }

    method AbortRunning(u: int) returns (found: bool)
      modifies this`runningReqs
      ensures found <==> u in old(runningReqs)
      ensures runningReqs == old(runningReqs) - {u}
    {
      found := u in runningReqs;
      runningReqs := runningReqs - {u};
    }

    /** Whatever an abort may have to release can be handed over. */
    ghost predicate CanAbort(u: int)
      reads this`reqs, this`runningReqs, this`pendingList, cache.prefixCache
    {
      (u in runningReqs || (FindPending(pendingList, u) < |pendingList|
        && pendingList[FindPending(pendingList, u)].chunk))
        ==> CanHandOver(u)
    }

    /** Queues a request, its output cut to what the engine can hold; one whose prompt is too long is dropped. */
    method ProcessUser(uid: int, ids: seq<int>, params: Params)
      modifies this`pendingList
      ensures View() == ProcessMsg(cfg, old(View()), UserMsg(uid, ids, params))
    {
      hide CacheManager.View, TableOf;
      var maxOutputLen := cfg.maxSeqLen - |ids|;
      if maxOutputLen <= 0 {
        return;
      }
      var p := params;
      if p.maxTokens > maxOutputLen {
        p := p.(maxTokens := maxOutputLen);
      }
      pendingList := pendingList + [Pending(uid, ids, p, false)];
    }

    /** Takes a request out of the queue, or else out of the running set; says whether it held anything. */
    method TakeOut(u: int) returns (free: bool)
      modifies this`pendingList, this`runningReqs
      ensures (View(), free) == TakenOut(old(View()), u)
    {
      hide DropPending, FindPending, CacheManager.View, TableOf;
      free := AbortPending(u);
      if !free {
        free := AbortRunning(u);
      }
    }

    /** An abort that hits the batch in flight: the request is kept out of every container and marked. */
    method DeferAbort(uid: int)
      requires uid in inflightUids
      modifies this`pendingList, this`runningReqs, this`deferredAborts
      ensures View() == ProcessMsg(cfg, old(View()), AbortMsg(uid))
    {
      hide CacheManager.View, TableOf, Release, DropPending, FindPending;
      var found := AbortRunning(uid);
      var chunk := AbortPending(uid);
      deferredAborts := deferredAborts + {uid};
    }

    /** Any other abort: what the request holds is released at once, and the abort acknowledged. */
    method AbortNow(uid: int)
      requires Valid() && CanAbort(uid) && uid !in inflightUids
      modifies this`pendingList, this`runningReqs, this`pendingAcks, this`freed, tables`freeSlots, cache`freeSlots,
        cache`lazyFreeList, cache`clock, cache`lastUse, cache.prefixCache, cache.prefixCache.nodes
      ensures Valid() && View() == ProcessMsg(cfg, old(View()), AbortMsg(uid))
      ensures old(cache.prefixCache.nodes) <= cache.prefixCache.nodes
      ensures fresh(cache.prefixCache.nodes - old(cache.prefixCache.nodes))
    {
      hide CacheManager.Valid, CacheManager.View, TableOf, Release, DropPending, FindPending, HandlesOk, ProcessMsg,
        TakenOut;
      AbortNowIs(cfg, View(), uid);
      TakesFree(View(), uid);
      var free := TakeOut(uid);
      if free {
        FreeReqResources(uid);
      }
      pendingAcks := pendingAcks + [uid];
    }

    method ProcessAbort(uid: int)
      requires Valid() && (uid !in inflightUids ==> CanAbort(uid))
      modifies this, tables`freeSlots, cache`freeSlots, cache`lazyFreeList, cache`clock, cache`lastUse,
        cache.prefixCache, cache.prefixCache.nodes
      ensures Valid() && View() == ProcessMsg(cfg, old(View()), AbortMsg(uid))
      ensures old(cache.prefixCache.nodes) <= cache.prefixCache.nodes
      ensures fresh(cache.prefixCache.nodes - old(cache.prefixCache.nodes))
    {
      hide CacheManager.Valid, View, ProcessMsg, CanAbort;
      if uid in inflightUids {
        DeferAbort(uid);
      } else {
        AbortNow(uid);
      }
    }

    method ProcessOneMsg(m: Msg)
      requires Valid() && (m.AbortMsg? && m.uid !in inflightUids ==> CanAbort(m.uid))
      modifies this, tables`freeSlots, cache`freeSlots, cache`lazyFreeList, cache`clock, cache`lastUse,
        cache.prefixCache, cache.prefixCache.nodes
      ensures Valid() && View() == ProcessMsg(cfg, old(View()), m)
      ensures old(cache.prefixCache.nodes) <= cache.prefixCache.nodes
      ensures fresh(cache.prefixCache.nodes - old(cache.prefixCache.nodes))
    {
      hide CacheManager.Valid, View, ProcessMsg, CanAbort;
      match m
      case UserMsg(uid, ids, params) => ProcessUser(uid, ids, params);
      case AbortMsg(uid) => ProcessAbort(uid);
    }

    /** While messages arrive every abort outside the batch in flight can be carried out. */
    lemma {:induction false} HearingCanAbort(u: int, es: seq<Entry>, prefill: bool)
      requires Valid() && Hearing(cfg, View(), es, prefill) && u !in inflightUids
      ensures CanAbort(u)
    {
      hide CacheManager.Valid, RInv, TableOf, AllFlying, AllParked, Waiting, Uids;
      var s := View();
      WaitingUids(es);
      HeldUids(cache.prefixCache.held);
      ChunkHead(cfg, Outside(s), s.pending, u);
      var k := FindPending(pendingList, u);
      assert k < |pendingList| ==> pendingList[k] in pendingList;
      if u in s.running || u in ChunkUids(s.pending) {
        ReqFacts(cfg, Outside(s), {}, [], u);
        assert u in s.running ==> RunOk(cfg, Outside(s), u);
      }
    }

    /** Receives the messages of a tick, with the batch `es` in flight. */
    method ReceiveMsgs(msgs: seq<Msg>, ghost es: seq<Entry>, ghost prefill: bool)
      requires Valid() && Hearing(cfg, View(), es, prefill) && Ctrl(View()) && AllFresh(cfg, View(), msgs)
      modifies this, tables`freeSlots, cache`freeSlots, cache`lazyFreeList, cache`clock, cache`lastUse,
        cache.prefixCache, cache.prefixCache.nodes
      ensures Valid() && View() == ProcessMsgs(cfg, old(View()), msgs)
      ensures old(cache.prefixCache.nodes) <= cache.prefixCache.nodes
      ensures fresh(cache.prefixCache.nodes - old(cache.prefixCache.nodes))
    {
      hide CacheManager.Valid, View, Hearing, Ctrl, ProcessMsg, Fresh, CanAbort;
      ghost var s := View();
      for k := 0 to |msgs|
        invariant Valid() && Hearing(cfg, View(), es, prefill) && Ctrl(View()) && AllFresh(cfg, View(), msgs[k..])
        invariant ProcessMsgs(cfg, View(), msgs[k..]) == ProcessMsgs(cfg, s, msgs)
        invariant old(cache.prefixCache.nodes) <= cache.prefixCache.nodes
        invariant fresh(cache.prefixCache.nodes - old(cache.prefixCache.nodes))
      {
        assert msgs[k..][0] == msgs[k] && msgs[k..][1..] == msgs[k + 1..];
        MsgHears(cfg, View(), msgs[k], es, prefill);
        OneCtrl(cfg, View(), msgs[k]);
        if msgs[k].AbortMsg? && msgs[k].uid !in inflightUids {
          HearingCanAbort(msgs[k].uid, es, prefill);
        }
        ProcessOneMsg(msgs[k]);
      }
    }

    // ---- admission

    /** Matches and locks the stored prefix of a new request, if what it may need fits what is left. */
    method Reserve(p: Pending, reserved: int) returns (ok: bool, h: Handle)
      requires Valid() && !cache.lazy && p.ids != [] && p.uid !in cache.prefixCache.held
      modifies this`handles, cache`clock, cache`lastUse, cache.prefixCache, cache.prefixCache.nodes
      ensures Valid() && !cache.lazy && cache.prefixCache.HandleOk(h)
      ensures handles == if ok then old(handles)[p.uid := h] else old(handles)
      ensures old(cache.prefixCache.nodes) <= cache.prefixCache.nodes
      ensures fresh(cache.prefixCache.nodes - old(cache.prefixCache.nodes))
      ensures var c := old(cache.View());
              var n := LongestMatch(c.store, p.ids[..|p.ids| - 1], cfg.ps);
              var fits := |p.ids| - n + p.params.maxTokens + reserved;
              && n < |p.ids| && h.cachedLen == n && h.node.path == p.ids[..n]
              && (ok <==> fits <= Avail(c) * cfg.ps && fits <= Avail(LockOp(c, p.uid, p.ids[..n])) * cfg.ps)
              && cache.View() == (if ok then LockOp(c, p.uid, p.ids[..n]) else c)
              && cache.prefixCache.held == (if ok then old(cache.prefixCache.held)[p.uid := h.node]
                                            else old(cache.prefixCache.held))
    {
      hide CacheManager.Valid, CacheManager.View, LongestMatch, Avail;
      cache.ViewHeld();
      h := cache.MatchReq(p.ids);
      var estimated := |p.ids| - h.cachedLen + p.params.maxTokens;
      var available := cache.AvailableSize();
      ok := false;
      if estimated + reserved <= available {
        cache.Lock(h, p.uid);
        available := cache.AvailableSize();
        if estimated + reserved > available {
          LockUnlock(cache.View(), old(cache.View()), p.uid, h.node.path);
          LockUnlockNodes(old(cache.prefixCache.held), p.uid, h.node);
          cache.Unlock(h, p.uid);
        } else {
          ok := true;
          handles := handles[p.uid := h];
        }
      }
    }

    /** Takes a row for a request whose prefix is locked, and copies the cached part into it. */
    method Occupy(p: Pending, h: Handle) returns (row: int)
      requires Valid() && tables.freeSlots != [] && cache.prefixCache.HandleOk(h) && h.cachedLen <= |p.ids|
      requires h.node.path == p.ids[..h.cachedLen]
      requires 0 <= tables.freeSlots[|tables.freeSlots| - 1] < cfg.numRows && h.cachedLen <= cfg.width
      modifies tables`freeSlots, tables.tokenPool, cache.pageTable
      ensures Valid() && old(tables.freeSlots) == tables.freeSlots + [row]
      ensures var n := h.cachedLen;
              && TableOf(tables.tokenPool)
                 == (if n == 0 then old(TableOf(tables.tokenPool))
                     else WriteRow(old(TableOf(tables.tokenPool)), row, 0, p.ids[..n]))
              && TableOf(cache.pageTable)
                 == (if n == 0 then old(TableOf(cache.pageTable))
                     else WriteRow(old(TableOf(cache.pageTable)), row, 0, SlotsOf(cache.View().store, p.ids[..n])))
    {
      hide WriteRow, SlotsOf, HandlesOk, TableOf, CacheManager.Valid, CacheManager.View;
      row := tables.Allocate();
      if h.cachedLen > 0 {
        WriteSlice(tables.tokenPool, row, 0, p.ids[..h.cachedLen]);
        var indices := cache.MatchedIndices(h);
        WriteSlice(cache.pageTable, row, 0, indices);
      }
    }

    /** A row at the end of the free list is a row of the tables. */
    ghost predicate RowsOk()
      reads tables
    {
      tables.freeSlots != [] ==> 0 <= tables.freeSlots[|tables.freeSlots| - 1] < cfg.numRows
    }

    /** Admits a new request if a row is free and its estimate fits. */
    method TryAllocateOne(p: Pending, budget: int, reserved: int) returns (r: Option<int>)
      requires Valid() && !cache.lazy && RowsOk() && p.ids != [] && p.uid !in cache.prefixCache.held
      requires |p.ids| <= cfg.width
      modifies this`handles, tables`freeSlots, tables.tokenPool, cache.pageTable, cache`clock, cache`lastUse,
        cache.prefixCache, cache.prefixCache.nodes
      ensures Valid() && !cache.lazy
      ensures old(cache.prefixCache.nodes) <= cache.prefixCache.nodes
      ensures fresh(cache.prefixCache.nodes - old(cache.prefixCache.nodes))
      ensures match TryAllocate(cfg, old(View()), Adder(budget, reserved), p)
              case None => r.None? && View() == old(View())
              case Some((s1, row, n)) =>
                r == Some(row) && View() == s1 && p.uid in handles && handles[p.uid].cachedLen == n <= |p.ids|
                && 0 <= row < cfg.numRows
    {
      hide CacheManager.Valid, CacheManager.View, LongestMatch, Avail, WriteRow, SlotsOf, TableOf, HandlesOk;
      if tables.freeSlots == [] {
        return None;
      }
      var ok, h := Reserve(p, reserved);
      if !ok {
        return None;
      }
      var row := Occupy(p, h);
      r := Some(row);
    }

    /** Builds the request's record for its next prefill step and copies the step's tokens to the device. */
    method AddOneReq(p: Pending, row: int, cached: nat, budget: int, reserved: int)
      returns (req: Req, budget': int, reserved': int)
      requires Valid() && cached <= |p.ids| <= cfg.width && budget > 0 && 0 <= row < cfg.numRows
      modifies this`reqs, tables.tokenPool
      ensures Valid()
      ensures AddReq(old(View()), Adder(budget, reserved), p, row, cached) == (View(), Adder(budget', reserved'), req)
    {
      hide CacheManager.Valid, CacheManager.View, WriteRow, HandlesOk, TableOf;
      var remain := |p.ids| - cached;
      var chunk := if budget < remain then budget else remain;
      budget' := budget - chunk;
      reserved' := reserved + remain + p.params.maxTokens;
      WriteSlice(tables.tokenPool, row, cached, p.ids[cached..cached + chunk]);
      req := Req(p.uid, row, p.ids[..cached + chunk], cached, cached + chunk, cached + chunk + p.params.maxTokens,
                 chunk < remain, p.params);
      reqs := reqs[p.uid := req];
    }

    /** What admission asks of a queue entry. */
    ghost predicate CanAdd(p: Pending)
      reads this`reqs, tables, cache.prefixCache
    {
      && RowsOk() && |p.ids| <= cfg.width
      && (if p.chunk then p.uid in reqs && 0 <= reqs[p.uid].row < cfg.numRows else p.uid !in cache.prefixCache.held)
    }

    /** Takes the next queue entry into the batch: the next chunk of a prompt begun before, or a new request. */
    method TryAddOneReq(p: Pending, budget: int, reserved: int)
      returns (r: Option<Req>, budget': int, reserved': int)
      requires Valid() && !cache.lazy && CanAdd(p)
      modifies this`handles, this`reqs, tables`freeSlots, tables.tokenPool, cache.pageTable, cache`clock, cache`lastUse,
        cache.prefixCache, cache.prefixCache.nodes
      ensures Valid() && !cache.lazy
      ensures old(cache.prefixCache.nodes) <= cache.prefixCache.nodes
      ensures fresh(cache.prefixCache.nodes - old(cache.prefixCache.nodes))
      ensures match TryAddOne(cfg, old(View()), Adder(budget, reserved), p)
              case None => r.None? && View() == old(View()) && budget' == budget && reserved' == reserved
              case Some((s1, a1, q)) => r == Some(q) && View() == s1 && a1 == Adder(budget', reserved')
    {
      hide CacheManager.Valid, View, TryAllocate, AddReq, HandlesOk;
      budget', reserved' := budget, reserved;
      ViewReqs();
      if budget <= 0 || p.ids == [] {
        return None, budget, reserved;
      }
      var row, cached;
      if p.chunk {
        row, cached := reqs[p.uid].row, reqs[p.uid].cachedLen;
        if cached > |p.ids| {
          return None, budget, reserved;
        }
      } else {
        var slot := TryAllocateOne(p, budget, reserved);
        if slot.None? {
          return None, budget, reserved;
        }
        row, cached := slot.value, handles[p.uid].cachedLen;
      }
      var req;
      req, budget', reserved' := AddOneReq(p, row, cached, budget, reserved);
      r := Some(req);
    }

    lemma {:induction false} ViewReqs()
      ensures View().reqs == reqs && View().pending == pendingList && View().running == runningReqs
      ensures View().rows == tables.freeSlots && View().inflight == inflightUids && View().deferred == deferredAborts
      ensures View().finished == finishedReqs && View().acks == pendingAcks && View().cache == cache.View()
      ensures View().table == TableOf(cache.pageTable) && View().pool == TableOf(tables.tokenPool)
    {
      hide CacheManager.View, TableOf;
    }

    /** Tokens the running requests may still need, with a page of slack for each. */
    method CountInflight() returns (n: int)
      requires forall u | u in runningReqs :: u in reqs && reqs[u].RemainLen() > 0
      ensures n == InflightTokens(cfg, View())
    {
      hide CacheManager.View, TableOf, Total, RemainSum;
      var todo := runningReqs;
      ghost var done: set<int> := {};
      n := 0;
      RemainNone(reqs);
      while todo != {}
        invariant done + todo == runningReqs && done !! todo && n == Total(RemainSum(reqs, done))
        decreases |todo|
      {
        ghost var some := Member(todo);
        var u: int :| u in todo;
        RemainMore(reqs, done, u);
        n := n + reqs[u].RemainLen();
        done, todo := done + {u}, todo - {u};
      }
      assert done == runningReqs;
      n := n + (cfg.ps - 1) * |runningReqs|;
    }

    /** What holds of queue and resources while a batch is put together. */
    ghost predicate Admitting(queue: seq<Pending>, busy: set<int>, lag: map<int, int>)
      reads this, tables, cache, cache.prefixCache, cache.prefixCache.nodes, cache.pageTable, tables.tokenPool
    {
      && Valid() && !cache.lazy && LInv(cfg, Caught(View(), lag), queue, busy) && Apart(queue, busy)
      && Unqueued(queue, lag)
    }

    lemma {:induction false} AdmittingCanAdd(queue: seq<Pending>, busy: set<int>, lag: map<int, int>)
      requires Admitting(queue, busy, lag) && queue != []
      ensures CanAdd(queue[0])
    {
      hide CacheManager.Valid, CacheManager.View, TableOf, RInv, RunningOk, DoneOk, DistinctUids, AlignUp, Later;
      var t, p := Caught(View(), lag), queue[0];
      cache.ViewHeld();
      LaterGet(reqs, lag, p.uid);
      assert p in queue;
      if t.rows != [] {
        FreeRowRange(cfg, t, {}, [], t.rows[|t.rows| - 1]);
      }
      if p.chunk {
        ReqFacts(cfg, t, {}, [], p.uid);
      } else {
        NewIdle(cfg, t, queue, busy);
      }
      WidthPositive(cfg, t);
    }

    /** One step of the round leaves queue and resources in order. */
    lemma {:induction false} AdmittingStep(s: Sched, a: Adder, queue: seq<Pending>, busy: set<int>, lag: map<int, int>)
      requires LInv(cfg, Caught(s, lag), queue, busy) && Apart(queue, busy) && Unqueued(queue, lag) && queue != []
      requires TryAddOne(cfg, s, a, queue[0]).Some?
      ensures var (s', a', q) := TryAddOne(cfg, s, a, queue[0]).value;
              && LInv(cfg, Caught(s', lag), queue[1..], busy + {q.uid}) && Apart(queue[1..], busy + {q.uid})
              && Unqueued(queue[1..], lag) && a'.budget >= 0
    {
      hide LInv, Apart, TryAddOne, Caught, AddedFrom, Gave;
      StepSame(cfg, s, lag, a, queue[0]);
      StepKeeps(cfg, Caught(s, lag), a, queue, busy);
      assert forall i | 0 <= i < |queue[1..]| :: queue[1..][i] == queue[i + 1];
    }

    /** Takes queue entries from the front into the batch, until one does not fit. */
    method FillBatch(reserved0: int, ghost lag: map<int, int>, ghost others: set<int>)
      returns (added: seq<Req>, chunked: seq<Pending>)
      requires Valid() && !cache.lazy && Schedulable(cfg, View(), lag, others)
      modifies this`handles, this`reqs, tables`freeSlots, tables.tokenPool, cache.pageTable, cache`clock, cache`lastUse,
        cache.prefixCache, cache.prefixCache.nodes
      ensures Valid() && !cache.lazy
      ensures var r := AddAll(cfg, old(View()), Adder(cfg.budget, reserved0), pendingList);
              View() == r.s && added == r.added && chunked == ChunkList(pendingList, r.added)
      ensures old(cache.prefixCache.nodes) <= cache.prefixCache.nodes
      ensures fresh(cache.prefixCache.nodes - old(cache.prefixCache.nodes))
    {
      hide CacheManager.Valid, View, LInv, Apart, Unqueued, TryAddOne, CanAdd, HandlesOk, AddAll, ChunkList, Caught;
      ghost var s := View();
      ViewReqs();
      var budget, reserved: int := cfg.budget, reserved0;
      added, chunked := [], [];
      ghost var busy := others;
      ghost var whole := AddAll(cfg, s, Adder(budget, reserved), pendingList);
      CaughtQueue(s, lag);
      QueueApart(cfg, Caught(s, lag), others);
      var k := 0;
      assert pendingList[0..] == pendingList;
      while k < |pendingList|
        invariant k == |added| <= |pendingList| && budget >= 0
        invariant Admitting(pendingList[k..], busy, lag)
        invariant FillingTo(cfg, View(), Adder(budget, reserved), pendingList, k, added, chunked, whole)
        invariant old(cache.prefixCache.nodes) <= cache.prefixCache.nodes
        invariant fresh(cache.prefixCache.nodes - old(cache.prefixCache.nodes))
      {
        ghost var queue := pendingList[k..];
        ghost var s1, a := View(), Adder(budget, reserved);
        AdmittingCanAdd(queue, busy, lag);
        var p := pendingList[k];
        assert queue[0] == p && queue[1..] == pendingList[k + 1..];
        var r;
        r, budget, reserved := TryAddOneReq(p, budget, reserved);
        if r.None? {
          break;
        }
        AdmittingStep(s1, a, queue, busy, lag);
        RoundTurn(cfg, s1, a, pendingList, k, added, chunked, r.value, whole);
        busy := busy + {r.value.uid};
        added := added + [r.value];
        if r.value.chunked {
          chunked := chunked + [p.(chunk := true)];
        }
        k := k + 1;
      }
      RoundStops(cfg, View(), Adder(budget, reserved), pendingList, k, added, chunked, whole);
    }

    /** Puts the next prefill batch together. */
    method SchedulePrefillBatch(ghost lag: map<int, int>, ghost others: set<int>) returns (b: Option<Batch>)
      requires Valid() && !cache.lazy && Schedulable(cfg, View(), lag, others)
      modifies this`handles, this`reqs, this`pendingList, tables`freeSlots, tables.tokenPool, cache.pageTable,
        cache`clock, cache`lastUse, cache.prefixCache, cache.prefixCache.nodes
      ensures Valid() && !cache.lazy && (View(), b) == SchedulePrefill(cfg, old(View()))
      ensures old(cache.prefixCache.nodes) <= cache.prefixCache.nodes
      ensures fresh(cache.prefixCache.nodes - old(cache.prefixCache.nodes))
    {
      hide CacheManager.Valid, Schedulable, CacheManager.View, TableOf, AddAll, ChunkList, InflightTokens, HandlesOk;
      ghost var s := View();
      RunningRemain(cfg, s, lag, others);
      var reserved := CountInflight();
      ghost var r := AddAll(cfg, s, Adder(cfg.budget, reserved), s.pending);
      NothingAddedSame(cfg, s, Adder(cfg.budget, reserved), s.pending);
      RoundPending(cfg, s, Adder(cfg.budget, reserved), s.pending);
      var added, chunked := FillBatch(reserved, lag, others);
      if |added| == 0 {
        return None;
      }
      pendingList := chunked + pendingList[|added|..];
      b := Some(Batch(EntriesOf(added), true));
    }

    /** The running requests in the order of their uids. */
    method SortRunning() returns (us: seq<int>)
      ensures us == Sorted(runningReqs)
    {
      hide Least, Sorted;
      us := [];
      var todo := runningReqs;
      while todo != {}
        invariant us + Sorted(todo) == Sorted(runningReqs)
        decreases |todo|
      {
        var m := Smallest(todo);
        SortedLeast(todo, m);
        TakeFirst(us, m, Sorted(todo - {m}));
        us := us + [m];
        todo := todo - {m};
      }
      SortedNone();
    }

    /** The next batch: a prefill batch if one can be put together, else all running requests. */
    method ScheduleNextBatch(ghost lag: map<int, int>, ghost others: set<int>) returns (b: Option<Batch>)
      requires Valid() && !cache.lazy && Schedulable(cfg, View(), lag, others)
      modifies this`handles, this`reqs, this`pendingList, tables`freeSlots, tables.tokenPool, cache.pageTable,
        cache`clock, cache`lastUse, cache.prefixCache, cache.prefixCache.nodes
      ensures Valid() && !cache.lazy && (View(), b) == Schedule(cfg, old(View()))
      ensures old(cache.prefixCache.nodes) <= cache.prefixCache.nodes
      ensures fresh(cache.prefixCache.nodes - old(cache.prefixCache.nodes))
    {
      hide CacheManager.Valid, Schedulable, View, SchedulePrefill, HandlesOk, Sorted, DecodeEntries;
      ViewReqs();
      PrefillRest(cfg, View());
      b := SchedulePrefillBatch(lag, others);
      ViewReqs();
      if b.None? {
        if runningReqs != {} {
          var us := SortRunning();
          b := Some(Batch(DecodeEntries(us), false));
        }
      }
    }

    // ---- preparing the batch

    /** The records of a batch's requests, in order. */
    method BatchReqs(es: seq<Entry>) returns (rs: seq<Req>)
      requires forall i {:trigger es[i]} | 0 <= i < |es| :: es[i].uid in reqs
      ensures rs == ReqsOf(reqs, es)
    {
      rs := [];
      for k := 0 to |es|
        invariant rs == ReqsOf(reqs, es[..k])
      {
        ReqsSnoc(reqs, es, k);
        rs := rs + [reqs[es[k].uid]];
      }
      assert es[..|es|] == es;
    }

    /** The slots the batch will write, gathered from the page table through the flat index lists. */
    method GatherOutLoc(rs: seq<Req>) returns (outLoc: seq<int>)
      requires Valid() && Inside(TableOf(cache.pageTable), BatchStretches(rs))
      ensures outLoc == Slices(TableOf(cache.pageTable), BatchStretches(rs))
    {
      hide CacheManager.Valid, FlatRows, FlatPositions, Gathered, Slices, HandlesOk;
      var l := BatchStretches(rs);
      InsideUpward(TableOf(cache.pageTable), l);
      var positions := MakePositions(l);
      var rows := MakeRows(l);
      FlatInside(TableOf(cache.pageTable), l, cache.pageTable.Length0, cache.pageTable.Length1);
      outLoc := Gather(cache.pageTable, rows[..], positions[..]);
      GatherFlat(TableOf(cache.pageTable), l);
    }

    /** Handles survive an eviction, which removes no locked node. */
    twostate lemma {:induction false} StillHandles()
      requires old(Valid()) && cache.Valid() && handles == old(handles)
      requires cache.prefixCache.held == old(cache.prefixCache.held)
      ensures HandlesOk()
    {
      forall u | u in cache.prefixCache.held
        ensures u in handles && handles[u].node == cache.prefixCache.held[u] && cache.prefixCache.HandleOk(handles[u])
      {
        assert old(cache.prefixCache.HandleOk(handles[u]));
        assert cache.prefixCache.held[u] in cache.prefixCache.held.Values;
      }
    }

    /** Gives the requests of the batch their pages. */
    method AllocateBatch(b: Batch, rs: seq<Req>) returns (token: AllocationToken, ghost ev: Eviction)
      requires Valid() && !cache.lazy && rs == ReqsOf(reqs, b.entries)
      requires FitRows(rs, cfg.numRows + 1, cfg.width, cfg.ps)
      requires PagesFor(cfg, reqs, b.entries) <= Avail(cache.View())
      modifies cache`freeSlots, cache`lastUse, cache.prefixCache`nodes, cache.prefixCache`evictableSize,
        cache.prefixCache.nodes`children, cache.pageTable
      ensures Valid() && !cache.lazy && cache.prefixCache.nodes <= old(cache.prefixCache.nodes)
      ensures CanPrepare(cfg, old(View()), b, ev) && View() == Prepare(cfg, old(View()), b, ev)
      ensures token == TokenOf(cfg, old(View()), b, ev)
      ensures LeastRecent(old(cache.lastUse), old(cache.View()).store, cache.View().store, cache.View().held)
    {
      hide CacheManager.Valid, CacheManager.View, TableOf, AllocOp, Avail, LegalEviction, Allocated, FitRows, AssignTo,
        OverwritesOf, AllocationInfo, NeedOf, Expand, PagesFor, AssignPages, HandlesOk, LeastRecent;
      NeedIsPages(cfg, reqs, b.entries);
      ghost var s := View();
      token, ev := cache.AllocatePaged(rs);
      StillHandles();
      if PagesFor(cfg, reqs, b.entries) > 0 {
        AllocBalance(s.cache, PagesFor(cfg, reqs, b.entries), ev, cfg.ps, All);
        AssignIsPages(cfg, reqs, s.table, b.entries, Allocated(s.cache, PagesFor(cfg, reqs, b.entries), ev, cfg.ps));
      }
    }

    /** Takes the allocation for a batch back. */
    method UndoBatch(b: Batch, rs: seq<Req>, token: AllocationToken, ghost s: Sched, ghost ev: Eviction)
      requires Valid() && rs == ReqsOf(s.reqs, b.entries) && FitRows(rs, cfg.numRows + 1, cfg.width, cfg.ps)
      requires Shape(s.table, cfg.numRows + 1, cfg.width) && CanPrepare(cfg, s, b, ev)
      requires View() == Prepare(cfg, s, b, ev) && token == TokenOf(cfg, s, b, ev)
      modifies cache`freeSlots, cache`lazyFreeList, cache.pageTable
      ensures Valid() && View() == s.(cache := Undone(cfg, s, b, ev))
    {
      hide CacheManager.Valid, CacheManager.View, TableOf, AllocOp, LegalEviction, Allocated, FitRows, Restored,
        HandlesOk, AssignTo, OverwritesOf, AllocationInfo, NeedOf, Expand, PagesFor, AssignPages, PutsBack, FreeOp;
      TokenFits(cfg, s, b, ev);
      cache.RollbackAllocation(token);
      ghost var need := PagesFor(cfg, s.reqs, b.entries);
      if need == 0 {
        FreeNothing(s.cache, cfg.ps);
        RestoredNone(s.table);
      } else {
        ghost var pages := Allocated(s.cache, need, ev, cfg.ps);
        AllocBalance(s.cache, need, ev, cfg.ps, All);
        NeedIsPages(cfg, s.reqs, b.entries);
        AssignIsPages(cfg, s.reqs, s.table, b.entries, pages);
        RollbackRestores(s.table, rs, pages, cfg.numRows + 1, cfg.width, cfg.ps);
      }
    }

    /** Rows and columns of the device table where the sampled tokens go. */
    method MakeWriteTuple(es: seq<Entry>) returns (rows: seq<int>, columns: seq<int>)
      requires forall i {:trigger es[i]} | 0 <= i < |es| :: es[i].uid in reqs
      ensures rows == WriteRows(reqs, es) && columns == WriteColumns(cfg, reqs, es)
    {
      var records := reqs;
      rows := seq(|es|, i requires 0 <= i < |es| => Get(records, es[i].uid).row);
      columns := seq(|es|, i requires 0 <= i < |es| => WritePos(cfg, Get(records, es[i].uid)));
    }

    /** Gives the batch's requests their pages, gathers the slots the batch will write, and works out where its sampled
    tokens go. When the rest of the preparation fails, the allocation is undone. */
    method PrepareBatch(b: Batch, fails: bool, ghost lag: map<int, int>, ghost others: set<int>)
      returns (ok: bool, outLoc: seq<int>, rows: seq<int>, columns: seq<int>, ghost ev: Eviction)
      requires Valid() && !cache.lazy && Runnable(cfg, View(), b, lag, others)
      requires PagesFor(cfg, reqs, b.entries) <= Avail(cache.View())
      modifies cache`freeSlots, cache`lazyFreeList, cache`lastUse, cache.prefixCache`nodes,
        cache.prefixCache`evictableSize, cache.prefixCache.nodes`children, cache.pageTable
      ensures Valid() && !cache.lazy && cache.prefixCache.nodes <= old(cache.prefixCache.nodes)
      ensures ok == !fails && CanPrepare(cfg, old(View()), b, ev)
      ensures rows == WriteRows(reqs, b.entries) && columns == WriteColumns(cfg, reqs, b.entries)
      ensures ok ==> View() == Prepare(cfg, old(View()), b, ev) && outLoc == OutLoc(View(), b.entries)
      ensures !ok ==> View() == old(View()).(cache := Undone(cfg, old(View()), b, ev))
    {
      hide CacheManager.Valid, View, Runnable, Avail, FitRows, Slices, PagesFor, OutLoc, Prepare, CanPrepare, Undone,
        TokenOf, HandlesOk, WriteRows, WriteColumns, Inside, LeastRecent;
      ghost var s := View();
      ViewReqs();
      PlannedFits(cfg, s, b, lag, others);
      var rs := BatchReqs(b.entries);
      var token;
      token, ev := AllocateBatch(b, rs);
      ViewReqs();
      rows, columns := MakeWriteTuple(b.entries);
      outLoc := [];
      ok := !fails;
      if ok {
        BatchInside(View().table, rs, cfg.numRows + 1, cfg.width, cfg.ps);
        outLoc := GatherOutLoc(rs);
        SlicesAreOutLoc(View(), b.entries);
      } else {
        UndoBatch(b, rs, token, s, ev);
      }
    }

    // ---- the forward pass

    /** Advances every request of the batch by one step. */
    method CompleteAll(es: seq<Entry>)
      requires forall i {:trigger es[i]} | 0 <= i < |es| :: es[i].uid in reqs
      modifies this`reqs
      ensures reqs == CompletedReqs(old(reqs), es)
    {
      ghost var was := reqs;
      for k := 0 to |es|
        invariant forall i {:trigger es[i]} | 0 <= i < |es| :: es[i].uid in reqs
        invariant CompletedReqs(reqs, es[k..]) == CompletedReqs(was, es)
      {
        assert es[k..][0] == es[k] && es[k..][1..] == es[k + 1..];
        var u := es[k].uid;
        reqs := reqs[u := reqs[u].CompleteOne()];
      }
    }

    /** The running set after a batch. */
    method FilterReqs(es: seq<Entry>)
      modifies this`runningReqs
      ensures runningReqs == Filter(old(View()), es).running
    {
      hide CacheManager.View, TableOf;
      runningReqs := set u | u in runningReqs + Uids(es) && Get(reqs, u).CanDecode();
    }

    /** Runs the batch: commits one step of every request, writes the sampled tokens to the device table through the
    write tuple, and renews the running set. */
    method RunForward(b: Batch, rows: seq<int>, columns: seq<int>, tokens: seq<int>, ghost lag: map<int, int>,
                      ghost others: set<int>)
      requires Valid() && Planned(cfg, Caught(View(), lag), b, others) && cfg.maxSeqLen <= cfg.width && cfg.width > 0
      requires forall i {:trigger b.entries[i]} | 0 <= i < |b.entries| :: RowInTable(cfg, reqs, b.entries[i].uid)
      requires rows == WriteRows(reqs, b.entries) && columns == WriteColumns(cfg, reqs, b.entries)
      requires |tokens| == |b.entries|
      modifies this`reqs, this`runningReqs, tables.tokenPool
      ensures Valid() && View() == SchedSpec.Forward(cfg, old(View()), b, tokens)
    {
      hide CacheManager.Valid, CacheManager.View, TableOf, HandlesOk, Scattered, Commit, CompletedReqs, Planned, Caught;
      ghost var s := View();
      ColumnsFit(cfg, s, b, lag, others);
      PlannedEntries(cfg, Caught(s, lag), b, others);
      CommitIs(cfg, s, b.entries, tokens);
      CompleteAll(b.entries);
      Scatter(tables.tokenPool, rows, columns, tokens);
      FilterReqs(b.entries);
    }

    // ---- post-processing

    /** What post-processing asks of an entry. */
    ghost predicate CanPost(e: Entry, prefill: bool)
      reads this`reqs, this`deferredAborts, this`finishedReqs, cache.prefixCache
    {
      !e.chunked && e.uid !in deferredAborts ==>
        && e.uid in reqs
        && (e.uid !in finishedReqs || prefill ==>
              && e.uid in cache.prefixCache.held && reqs[e.uid].uid == e.uid && 0 <= reqs[e.uid].row < cfg.numRows
              && reqs[e.uid].cachedLen <= |reqs[e.uid].ids| + 1 && reqs[e.uid].cachedLen <= cfg.width)
    }

    /** Releases a request that is finished for the first time, and caches the prefix of one that was just prefilled. */
    method FinishOrKeep(u: int, finished: bool, prefill: bool)
      requires Valid() && (finished || prefill ==> CanHandOver(u))
      modifies this`runningReqs, this`handles, this`freed, tables`freeSlots, cache`freeSlots, cache`lazyFreeList,
        cache`clock, cache`lastUse, cache.prefixCache, cache.prefixCache.nodes
      ensures Valid() && View() == Ended(cfg, old(View()), u, finished, prefill)
      ensures old(cache.prefixCache.nodes) <= cache.prefixCache.nodes
      ensures fresh(cache.prefixCache.nodes - old(cache.prefixCache.nodes))
    {
      hide CacheManager.Valid, CacheManager.View, TableOf, HandlesOk, Release, KeepCached;
      if finished {
        runningReqs := runningReqs - {u};
        FreeReqResources(u);
      } else if prefill {
        KeepReq(u);
      }
    }

    /** Processes one result of the batch: appends the token, replies, and releases the request or caches its prefix. */
    method ProcessResult(prefill: bool, e: Entry, token: int, reply: seq<Reply>, newFinished: set<int>)
      returns (reply': seq<Reply>, newFinished': set<int>)
      requires Valid() && CanPost(e, prefill)
      modifies this`reqs, this`runningReqs, this`handles, this`freed, tables`freeSlots, cache`freeSlots,
        cache`lazyFreeList, cache`clock, cache`lastUse, cache.prefixCache, cache.prefixCache.nodes
      ensures Valid()
      ensures ProcessEntry(cfg, Post(old(View()), reply, newFinished), prefill, e, token)
           == Post(View(), reply', newFinished')
      ensures old(cache.prefixCache.nodes) <= cache.prefixCache.nodes
      ensures fresh(cache.prefixCache.nodes - old(cache.prefixCache.nodes))
    {
      hide CacheManager.Valid, CacheManager.View, TableOf, HandlesOk, Ended, IsFinished, ProcessEntry;
      reply', newFinished' := reply, newFinished;
      var u := e.uid;
      EntrySettled(cfg, Post(View(), reply, newFinished), prefill, e, token);
      if !(e.chunked || u in deferredAborts) {
        var req := reqs[u].AppendHost(token);
        reqs := reqs[u := req];
        var finished := IsFinished(cfg, req, token);
        reply' := reply + [Detok(u, token, finished)];
        var first := finished && u !in finishedReqs;
        FinishOrKeep(u, first, prefill);
        newFinished' := if first then newFinished + {u} else newFinished;
      }
    }

    /** Every result can be processed. */
    lemma {:induction false} ProcessingCanPost(p: Post, es: seq<Entry>, tokens: seq<int>, fes: seq<Entry>,
                                               prefill: bool)
      requires Valid() && |tokens| == |es| && Processing(cfg, p, es, tokens, fes, prefill) && p.s == View() && es != []
      ensures CanPost(es[0], prefill)
    {
      hide CacheManager.Valid, CacheManager.View, TableOf, RInv, QueueOk, HeadOk, RunningOk, DoneOk, Waiting,
        ChunkUids, AllLanding, DistinctEntries, AllParked, LagOf, Later, Away, Idle;
      var lag, u := LagOf(es, tokens, p.s.deferred), es[0].uid;
      var t := Caught(p.s, lag);
      cache.ViewHeld();
      LaterGet(reqs, lag, u);
      if !es[0].chunked && u !in deferredAborts {
        FirstToGo(p.s, t, es, prefill);
        if u in t.cache.held {
          ReqFacts(cfg, t, {}, [], u);
          RowKnown(cfg, t, u);
          WidthPositive(cfg, t);
        }
      }
    }

    /** Processes the results of a batch in order; `fes` is the batch launched meanwhile. */
    method ProcessResults(b: Batch, tokens: seq<int>, ghost fes: seq<Entry>)
      returns (reply: seq<Reply>, newFinished: set<int>)
      requires Valid() && |tokens| == |b.entries|
      requires Processing(cfg, Post(View(), [], {}), b.entries, tokens, fes, b.prefill)
      modifies this`reqs, this`runningReqs, this`handles, this`freed, tables`freeSlots, cache`freeSlots,
        cache`lazyFreeList, cache`clock, cache`lastUse, cache.prefixCache, cache.prefixCache.nodes
      ensures Valid()
      ensures Post(View(), reply, newFinished)
           == ProcessEntries(cfg, Post(old(View()), [], {}), b.prefill, b.entries, tokens)
      ensures old(cache.prefixCache.nodes) <= cache.prefixCache.nodes
      ensures fresh(cache.prefixCache.nodes - old(cache.prefixCache.nodes))
    {
      hide Valid, CacheManager.Valid, View, HandlesOk, Processing, ProcessEntry, CanPost, Avail;
      ghost var start := Post(View(), [], {});
      reply, newFinished := [], {};
      assert b.entries[0..] == b.entries && tokens[0..] == tokens;
      for k := 0 to |b.entries|
        invariant Valid()
        invariant Processing(cfg, Post(View(), reply, newFinished), b.entries[k..], tokens[k..], fes, b.prefill)
        invariant ProcessEntries(cfg, Post(View(), reply, newFinished), b.prefill, b.entries[k..], tokens[k..])
               == ProcessEntries(cfg, start, b.prefill, b.entries, tokens)
        invariant old(cache.prefixCache.nodes) <= cache.prefixCache.nodes
        invariant fresh(cache.prefixCache.nodes - old(cache.prefixCache.nodes))
      {
        ghost var es := b.entries[k..];
        assert es[0] == b.entries[k] && es[1..] == b.entries[k + 1..];
        assert tokens[k..][0] == tokens[k] && tokens[k..][1..] == tokens[k + 1..];
        ProcessingCanPost(Post(View(), reply, newFinished), es, tokens[k..], fes, b.prefill);
        EntryProcessing(cfg, Post(View(), reply, newFinished), es, tokens[k..], fes, b.prefill);
        reply, newFinished := ProcessResult(b.prefill, b.entries[k], tokens[k], reply, newFinished);
      }
    }

    /** Processes a batch whose tokens were sampled; the pages it frees join the free list together at the end. */
    method ProcessLastData(b: Batch, tokens: seq<int>, ghost fes: seq<Entry>) returns (reply: seq<Reply>)
      requires Valid() && !cache.lazy && |tokens| == |b.entries|
      requires Processing(cfg, Post(View(), [], {}), b.entries, tokens, fes, b.prefill)
      modifies this`reqs, this`runningReqs, this`handles, this`freed, this`finishedReqs, tables`freeSlots,
        cache`freeSlots, cache`lazy, cache`lazyFreeList, cache`clock, cache`lastUse, cache.prefixCache,
        cache.prefixCache.nodes
      ensures Valid() && !cache.lazy && (View(), reply) == ProcessLast(cfg, old(View()), b, tokens)
      ensures old(cache.prefixCache.nodes) <= cache.prefixCache.nodes
      ensures fresh(cache.prefixCache.nodes - old(cache.prefixCache.nodes))
    {
      hide CacheManager.Valid, CacheManager.View, TableOf, HandlesOk, Processing, ProcessEntries;
      cache.EnterLazyRegion();
      var newFinished;
      reply, newFinished := ProcessResults(b, tokens, fes);
      cache.LeaveLazyRegion();
      finishedReqs := newFinished;
    }

    // ---- deferred aborts

    lemma {:induction false} ApplyingCanHandOver(es: seq<Entry>, done: set<int>, fes: seq<Entry>)
      requires Valid() && Applying(cfg, View(), es, done, fes) && es != []
      requires es[0].uid in deferredAborts && es[0].uid !in done
      ensures CanHandOver(es[0].uid)
    {
      hide CacheManager.Valid, CacheManager.View, TableOf, RInv, QueueOk, HeadOk, RunningOk, DoneOk, Waiting,
        ChunkUids, AllLanding, Away, Idle;
      var s, u := View(), es[0].uid;
      cache.ViewHeld();
      InUids(es, 0);
      assert Parked(s, u);
      ReqFacts(cfg, Outside(s), {}, [], u);
      RowKnown(cfg, Outside(s), u);
      WidthPositive(cfg, Outside(s));
    }

    /** Releases every request of the last batch whose abort was deferred, once, and queues its acknowledgement. */
    method ApplyDeferredAborts(es: seq<Entry>, ghost fes: seq<Entry>)
      requires Valid() && Applying(cfg, View(), es, {}, fes)
      modifies this`deferredAborts, this`pendingAcks, this`freed, tables`freeSlots, cache`freeSlots, cache`lazyFreeList,
        cache`clock, cache`lastUse, cache.prefixCache, cache.prefixCache.nodes
      ensures Valid() && View() == ApplyEntries(cfg, old(View()), es, {}).(deferred := {})
      ensures old(cache.prefixCache.nodes) <= cache.prefixCache.nodes
      ensures fresh(cache.prefixCache.nodes - old(cache.prefixCache.nodes))
    {
      hide Valid, CacheManager.Valid, View, HandlesOk, Applying, Release, CanHandOver, Avail;
      ghost var s := View();
      var done: set<int> := {};
      assert es[0..] == es;
      for k := 0 to |es|
        invariant Valid() && Applying(cfg, View(), es[k..], done, fes)
        invariant ApplyEntries(cfg, View(), es[k..], done) == ApplyEntries(cfg, s, es, {})
        invariant old(cache.prefixCache.nodes) <= cache.prefixCache.nodes
        invariant fresh(cache.prefixCache.nodes - old(cache.prefixCache.nodes))
      {
        ghost var rest := es[k..];
        assert rest[0] == es[k] && rest[1..] == es[k + 1..];
        ViewReqs();
        var u := es[k].uid;
        ApplyNext(cfg, View(), rest, done, fes);
        if u in deferredAborts && u !in done {
          ApplyingCanHandOver(rest, done, fes);
          ReleaseAndAck(u);
          done := done + {u};
        }
      }
      ClearDeferred();
    }

    method ReleaseAndAck(u: int)
      requires Valid() && CanHandOver(u)
      modifies this`pendingAcks, this`freed, tables`freeSlots, cache`freeSlots, cache`lazyFreeList, cache`clock,
        cache`lastUse, cache.prefixCache, cache.prefixCache.nodes
      ensures Valid() && View() == Acked(cfg, old(View()), u)
      ensures old(cache.prefixCache.nodes) <= cache.prefixCache.nodes
      ensures fresh(cache.prefixCache.nodes - old(cache.prefixCache.nodes))
    {
      hide CacheManager.Valid, CacheManager.View, TableOf, Release, HandlesOk;
      FreeReqResources(u);
      pendingAcks := pendingAcks + [u];
    }

    method ClearDeferred()
      modifies this`deferredAborts
      ensures View() == old(View()).(deferred := {})
    {
      hide CacheManager.View, TableOf;
      deferredAborts := {};
    }

    /** Sends the acknowledgements that piled up during the tick. */
    method FlushPendingAcks() returns (acks: seq<Reply>)
      modifies this`pendingAcks
      ensures View() == old(View()).(acks := []) && acks == AckReplies(old(View()).acks)
    {
      hide CacheManager.View, TableOf;
      acks := AckReplies(pendingAcks);
      pendingAcks := [];
    }

    // ---- one tick

    /** Prepares and runs a batch. `sampled` are the tokens the sampler yields for it. */
    method RunBatch(b: Batch, sampled: seq<int>, ghost lag: map<int, int>, ghost others: set<int>)
      returns (tokens: seq<int>, ghost ev: Eviction)
      requires Valid() && !cache.lazy && Runnable(cfg, View(), b, lag, others)
      requires PagesFor(cfg, reqs, b.entries) <= Avail(cache.View())
      modifies this`reqs, this`runningReqs, tables.tokenPool, cache`freeSlots, cache`lazyFreeList, cache`lastUse,
        cache.prefixCache`nodes, cache.prefixCache`evictableSize, cache.prefixCache.nodes`children, cache.pageTable
      ensures Valid() && !cache.lazy && cache.prefixCache.nodes <= old(cache.prefixCache.nodes)
      ensures CanPrepare(cfg, old(View()), b, ev) && tokens == TokensFor(b, sampled)
      ensures View() == SchedSpec.Forward(cfg, Prepare(cfg, old(View()), b, ev), b, tokens)
    {
      hide CacheManager.Valid, View, Runnable, Avail, PagesFor, Prepare, CanPrepare, SchedSpec.Forward, HandlesOk,
        OutLoc, WriteRows, WriteColumns, Planned, Caught;
      ghost var s := View();
      ViewReqs();
      tokens := TokensFor(b, sampled);
      var ok, outLoc, rows, columns;
      ok, outLoc, rows, columns, ev := PrepareBatch(b, false, lag, others);
      ReadyToRun(cfg, s, b, ev, lag, others);
      ViewReqs();
      RunForward(b, rows, columns, tokens, lag, others);
    }

    /** Schedules, prepares and runs the next batch, if there is one. */
    method LaunchNext(sampled: seq<int>, ghost lag: map<int, int>, ghost others: set<int>)
      returns (f: Option<Flight>, ghost ev: Eviction)
      requires Valid() && !cache.lazy && Schedulable(cfg, View(), lag, others) && Ctrl(View()) && Fitting(cfg, View())
      modifies Repr()
      ensures Valid() && !cache.lazy && fresh(Repr() - old(Repr()))
      ensures CanLaunch(cfg, old(View()), Input([], ev, sampled))
      ensures (View(), f) == Launch(cfg, old(View()), Input([], ev, sampled))
    {
      hide CacheManager.Valid, View, Schedulable, Avail, PagesFor, Prepare, CanPrepare, SchedSpec.Forward, HandlesOk,
        Schedule, Runnable, Ctrl;
      ScheduleRunnable(cfg, View(), lag, others);
      var b := ScheduleNextBatch(lag, others);
      ev := Eviction(map[], []);
      f := None;
      if b.Some? {
        ViewReqs();
        var tokens;
        tokens, ev := RunBatch(b.value, sampled, lag, others);
        f := Some(Flight(b.value, tokens));
      }
    }

    /** One tick of the normal loop: receive, schedule, prepare, run, post-process, acknowledge. */
    method NormalLoop(msgs: seq<Msg>, sampled: seq<int>) returns (replies: seq<Reply>, ghost ev: Eviction)
      requires Valid() && !cache.lazy && NInv(cfg, View()) && AllFresh(cfg, View(), msgs)
      requires Affordable(cfg, View(), msgs)
      modifies Repr()
      ensures Valid() && !cache.lazy && NInv(cfg, View())
      ensures Admissible(cfg, old(View()), Input(msgs, ev, sampled))
      ensures (View(), replies) == NormalTick(cfg, old(View()), Input(msgs, ev, sampled))
      ensures fresh(Repr() - old(Repr()))
    {
      hide CacheManager.Valid, View, ProcessLast, HandlesOk, NInv, AllFresh, ProcessMsgs, Schedule, Hearing, Ctrl,
        Schedulable, Launch, Processing, PagesFor, Avail, CanPrepare;
      ghost var s := View();
      PlainHearing(cfg, s);
      MsgsKeep(cfg, s, msgs);
      ReceiveMsgs(msgs, [], false);
      ghost var s1 := View();
      PlainHearing(cfg, s1);
      PlainSchedulable(cfg, s1);
      var f;
      f, ev := LaunchNext(sampled, map[], {});
      ghost var i := Input(msgs, ev, sampled);
      LaunchInput(cfg, s1, i);
      replies := [];
      if f.Some? {
        PlainProcessing(cfg, s1, i);
        replies := ProcessLastData(f.value.batch, f.value.tokens, []);
      }
      TickKeeps(cfg, s, i);
      var acks := FlushPendingAcks();
      replies := replies + acks;
    }

    /** The end of a tick of the overlap loop: post-processes the last batch, carries out the aborts that hit it, and
    acknowledges. `fes` is the batch just launched. */
    method FinishLast(last: Option<Flight>, ghost fes: seq<Entry>) returns (replies: seq<Reply>)
      requires Valid() && !cache.lazy && CanFinish(cfg, View(), last, fes)
      modifies this, tables`freeSlots, cache`freeSlots, cache`lazy, cache`lazyFreeList, cache`clock, cache`lastUse,
        cache.prefixCache, cache.prefixCache.nodes
      ensures Valid() && !cache.lazy && (View(), replies) == Finished(cfg, old(View()), last)
      ensures old(cache.prefixCache.nodes) <= cache.prefixCache.nodes
      ensures fresh(cache.prefixCache.nodes - old(cache.prefixCache.nodes))
    {
      hide CacheManager.Valid, View, HandlesOk, ProcessLast, Processing, Applying, ApplyEntries;
      replies := [];
      if last.Some? {
        replies := ProcessLastData(last.value.batch, last.value.tokens, fes);
      }
      ApplyDeferredAborts(if last.None? then [] else last.value.batch.entries, fes);
      var acks := FlushPendingAcks();
      SetInflight({});
      replies := replies + acks;
    }

    /** The first half of a tick of the overlap loop: receives the messages and launches the next batch. */
    method ReceiveAndLaunch(msgs: seq<Msg>, sampled: seq<int>, last: Option<Flight>)
      returns (f: Option<Flight>, ghost ev: Eviction)
      requires Valid() && !cache.lazy && FInv(View(), last) && OwnInv(cfg, View(), last)
      requires OFresh(cfg, View(), last, msgs)
      requires Fitting(cfg, ProcessMsgs(cfg, View().(inflight := LastUids(last)), msgs))
      modifies Repr()
      ensures Valid() && !cache.lazy && fresh(Repr() - old(Repr()))
      ensures Fits(cfg, old(View()), last, Input(msgs, ev, sampled))
      ensures (View(), f)
           == Launch(cfg, ProcessMsgs(cfg, old(View()).(inflight := LastUids(last)), msgs), Input(msgs, ev, sampled))
    {
      hide CacheManager.Valid, View, HandlesOk, FInv, OwnInv, OFresh, Fitting, ProcessMsgs, Hearing, Ctrl, Schedulable,
        Launch, CanLaunch, AllFresh, LagOf, Idle, Uids, DistinctEntries;
      ghost var s, es, prefill := View(), LastEntries(last), IsPrefill(last);
      StartTick(cfg, s, last, msgs);
      SetInflight(if last.None? then {} else Uids(last.value.batch.entries));
      ReceiveMsgs(msgs, es, prefill);
      ghost var s1 := View();
      ghost var lag := LagOf(es, Tokens(last), s1.deferred);
      HeardCaught(cfg, s1, es, Tokens(last), prefill);
      f, ev := LaunchNext(sampled, lag, Idle(Caught(s1, lag)));
      LaunchInput(cfg, s1, Input(msgs, ev, sampled));
    }

    /** One tick of the overlap loop: receive, launch the next batch, and only then post-process the last one, carry out
    the aborts that hit it, and acknowledge. */
    method OverlapLoop(msgs: seq<Msg>, sampled: seq<int>, last: Option<Flight>)
      returns (f: Option<Flight>, replies: seq<Reply>, ghost ev: Eviction)
      requires Valid() && !cache.lazy && FInv(View(), last) && OwnInv(cfg, View(), last)
      requires OFresh(cfg, View(), last, msgs) && !LateAbort(View(), last, msgs)
      requires Fitting(cfg, ProcessMsgs(cfg, View().(inflight := LastUids(last)), msgs))
      modifies Repr()
      ensures Valid() && !cache.lazy && FInv(View(), f) && OwnInv(cfg, View(), f)
      ensures Fits(cfg, old(View()), last, Input(msgs, ev, sampled))
      ensures (View(), f, replies) == OverlapTick(cfg, old(View()), last, Input(msgs, ev, sampled))
      ensures fresh(Repr() - old(Repr()))
    {
      hide CacheManager.Valid, View, HandlesOk, FInv, OwnInv, OFresh, LateAbort, Fitting, ProcessMsgs, Launch,
        CanLaunch, OverlapTick, Finished, CanFinish, LastUids;
      ghost var s := View();
      f, ev := ReceiveAndLaunch(msgs, sampled, last);
      ghost var i := Input(msgs, ev, sampled);
      TickFinishes(cfg, s, last, i);
      replies := FinishLast(last, LastEntries(f));
      TickOwn(cfg, s, last, i);
      ControlKeeps(cfg, s, last, i);
    }

    method SetInflight(us: set<int>)
      modifies this`inflightUids
      ensures View() == old(View()).(inflight := us)
    {
      hide CacheManager.View, TableOf;
      inflightUids := us;
    }
  }

  /** The state with `u` out of the queue, or else out of the running set, and whether it held anything. */
  ghost function TakenOut(s: Sched, u: int): (Sched, bool) {
    var k := FindPending(s.pending, u);
    var chunk := k < |s.pending| && s.pending[k].chunk;
    (s.(pending := DropPending(s.pending, u), running := if chunk then s.running else s.running - {u}),
     chunk || u in s.running)
  }

  lemma {:induction false} TakesFree(s: Sched, u: int)
    ensures TakenOut(s, u).1 <==>
              u in s.running || (FindPending(s.pending, u) < |s.pending| && s.pending[FindPending(s.pending, u)].chunk)
  {
    hide FindPending, DropPending;
  }

  /** An abort of a request that is not in flight, step by step. */
  lemma {:induction false} AbortNowIs(cfg: Config, s: Sched, u: int)
    requires u !in s.inflight
    ensures var (s1, free) := TakenOut(s, u);
            var s2 := if free then Release(cfg, s1, u) else s1;
            ProcessMsg(cfg, s, AbortMsg(u)) == s2.(acks := s2.acks + [u])
  {
    hide FindPending, DropPending, HandOver;
    if u !in s.running {
      assert s.running - {u} == s.running;
    }
  }

  /** The state after a result: the request is released, its prefix cached, or neither. */
  ghost function Ended(cfg: Config, s: Sched, u: int, finished: bool, prefill: bool): Sched {
    if finished then Release(cfg, s.(running := s.running - {u}), u)
    else if prefill then KeepCached(cfg, s, u)
    else s
  }

  /** Processing an entry, step by step. */
  lemma {:induction false} EntrySettled(cfg: Config, p: Post, prefill: bool, e: Entry, token: int)
    ensures ProcessEntry(cfg, p, prefill, e, token)
         == if e.chunked || e.uid in p.s.deferred then p
            else
              var r := Get(p.s.reqs, e.uid).AppendHost(token);
              var fin := IsFinished(cfg, r, token);
              var first := fin && e.uid !in p.s.finished;
              Post(Ended(cfg, p.s.(reqs := p.s.reqs[e.uid := r]), e.uid, first, prefill),
                   p.replies + [Detok(e.uid, token, fin)], if first then p.finished + {e.uid} else p.finished)
  {
    hide HandOver, IsFinished;
  }

  method Smallest(us: set<int>) returns (m: int)
    requires us != {}
    ensures m in us && Least(m, us)
  {
    ghost var some := Member(us);
    m :| m in us;
    var rest := us - {m};
    while rest != {}
      invariant rest <= us && m in us && forall u | u in us && u !in rest :: m <= u
      decreases |rest|
    {
      ghost var other := Member(rest);
      var u: int :| u in rest;
      if u < m {
        m := u;
      }
      rest := rest - {u};
    }
  }

  lemma {:induction false} TakeFirst(a: seq<int>, x: int, b: seq<int>)
    ensures a + ([x] + b) == a + [x] + b
  {
  }

  lemma {:induction false} SortedLeast(us: set<int>, m: int)
    requires Least(m, us)
    ensures Sorted(us) == [m] + Sorted(us - {m})
  {
    LeastExists(us);
    var l :| Least(l, us) && Sorted(us) == [l] + Sorted(us - {l});
  }

  lemma {:induction false} SortedNone()
    ensures Sorted({}) == []
  {
  }

  lemma {:induction false} PrefillRest(cfg: Config, s: Sched)
    ensures SchedulePrefill(cfg, s).1.None? ==> SchedulePrefill(cfg, s).0 == s
  {
    hide AddAll, InflightTokens, ChunkList;
  }

  /** The request records of the entries. */
  function ReqsOf(reqs: map<int, Req>, es: seq<Entry>): seq<Req> {
    if es == [] then [] else [Get(reqs, es[0].uid)] + ReqsOf(reqs, es[1..])
  }

  lemma {:induction false} ReqsSnoc(reqs: map<int, Req>, es: seq<Entry>, k: nat)
    requires k < |es|
    ensures ReqsOf(reqs, es[..k + 1]) == ReqsOf(reqs, es[..k]) + [Get(reqs, es[k].uid)]
    decreases k
  {
    if k == 0 {
      assert es[..1] == [es[0]] && es[..1][1..] == [] && es[..0] == [];
    } else {
      ReqsSnoc(reqs, es[1..], k - 1);
      assert es[..k + 1][1..] == es[1..][..k] && es[..k][1..] == es[1..][..k - 1];
    }
  }

  /** The positions each request of a batch computes. */
  function BatchStretches(rs: seq<Req>): seq<Stretch> {
    if rs == [] then [] else [Stretch(rs[0].row, rs[0].cachedLen, rs[0].deviceLen)] + BatchStretches(rs[1..])
  }

  /** The cache manager's view of an allocation is the scheduler's. */
  lemma {:induction false} NeedIsPages(cfg: Config, reqs: map<int, Req>, es: seq<Entry>)
    ensures NeedOf(ReqsOf(reqs, es), cfg.ps) == PagesFor(cfg, reqs, es)
    decreases |es|
  {
    hide PagesNeeded;
    if es != [] {
      NeedIsPages(cfg, reqs, es[1..]);
      assert ReqsOf(reqs, es)[1..] == ReqsOf(reqs, es[1..]);
    }
  }

  lemma {:induction false} AssignIsPages(cfg: Config, reqs: map<int, Req>, t: Table, es: seq<Entry>, pages: seq<int>)
    requires |pages| == PagesFor(cfg, reqs, es)
    ensures AssignTo(t, ReqsOf(reqs, es), pages, cfg.ps) == AssignPages(cfg, reqs, t, es, pages)
    decreases |es|
  {
    hide PagesNeeded, WriteRow, Expand, AlignUp;
    if es != [] {
      var r := Get(reqs, es[0].uid);
      var n := PagesNeeded(r, cfg.ps);
      assert ReqsOf(reqs, es)[0] == r && ReqsOf(reqs, es)[1..] == ReqsOf(reqs, es[1..]);
      AssignIsPages(cfg, reqs, WriteRow(t, r.row, AlignUp(r.cachedLen, cfg.ps), Expand(pages[..n], cfg.ps)), es[1..],
                    pages[n..]);
    }
  }

  /** The gathered slots are those the batch's requests write. */
  lemma {:induction false} SlicesAreOutLoc(s: Sched, es: seq<Entry>)
    ensures Slices(s.table, BatchStretches(ReqsOf(s.reqs, es))) == OutLoc(s, es)
    decreases |es|
  {
    if es != [] {
      SlicesAreOutLoc(s, es[1..]);
      var rs := ReqsOf(s.reqs, es);
      assert rs[1..] == ReqsOf(s.reqs, es[1..]);
      assert BatchStretches(rs)[1..] == BatchStretches(rs[1..]);
    }
  }

  /** What an allocation for the batch remembers. */
  ghost function TokenOf(cfg: Config, s: Sched, b: Batch, ev: Eviction): AllocationToken {
    var need := PagesFor(cfg, s.reqs, b.entries);
    if need == 0 then AllocationToken([], [])
    else
      AllocationToken(Expand(Allocated(s.cache, need, ev, cfg.ps), cfg.ps),
                      OverwritesOf(s.table, AllocationInfo(ReqsOf(s.reqs, b.entries), cfg.ps)))
  }

  /** The cache after an allocation for the batch was taken back: the pages evicted meanwhile stay free. */
  ghost function Undone(cfg: Config, s: Sched, b: Batch, ev: Eviction): Cache {
    var need := PagesFor(cfg, s.reqs, b.entries);
    if need == 0 then s.cache
    else FreeOp(AllocOp(s.cache, need, ev, cfg.ps), Expand(Allocated(s.cache, need, ev, cfg.ps), cfg.ps), cfg.ps)
  }

  function WriteRows(reqs: map<int, Req>, es: seq<Entry>): seq<int> {
    seq(|es|, i requires 0 <= i < |es| => Get(reqs, es[i].uid).row)
  }

  function WriteColumns(cfg: Config, reqs: map<int, Req>, es: seq<Entry>): seq<int> {
    seq(|es|, i requires 0 <= i < |es| => WritePos(cfg, Get(reqs, es[i].uid)))
  }

  lemma {:induction false} ReqsAt(reqs: map<int, Req>, es: seq<Entry>, i: nat)
    requires i < |es|
    ensures |ReqsOf(reqs, es)| == |es| && ReqsOf(reqs, es)[i] == Get(reqs, es[i].uid)
    decreases |es|
  {
    ReqsLength(reqs, es);
    if i > 0 {
      ReqsAt(reqs, es[1..], i - 1);
    }
  }

  lemma {:induction false} ReqsLength(reqs: map<int, Req>, es: seq<Entry>)
    ensures |ReqsOf(reqs, es)| == |es|
    decreases |es|
  {
    if es != [] {
      ReqsLength(reqs, es[1..]);
    }
  }

  /** A scheduled batch that can be prepared and run. */
  ghost predicate Runnable(cfg: Config, s: Sched, b: Batch, lag: map<int, int>, others: set<int>) {
    RInv(cfg, Caught(s, lag), {}, []) && Planned(cfg, Caught(s, lag), b, others)
  }

  lemma {:induction false} ScheduleRunnable(cfg: Config, s: Sched, lag: map<int, int>, others: set<int>)
    requires Schedulable(cfg, s, lag, others) && Fitting(cfg, s)
    ensures var (s1, b) := Schedule(cfg, s);
            b.Some? ==> Runnable(cfg, s1, b.value, lag, others)
                        && PagesFor(cfg, s1.reqs, b.value.entries) <= Avail(s1.cache)
  {
    hide LInv, Aside, Unqueued, Caught, Schedule, Planned, RInv, PagesFor, Avail;
    CaughtQueue(s, lag);
    ScheduleSame(cfg, s, lag);
    ScheduleLive(cfg, Caught(s, lag), others);
  }

  /** The rows of a planned batch have room for its pages. */
  lemma {:induction false} PlannedFits(cfg: Config, s: Sched, b: Batch, lag: map<int, int>, others: set<int>)
    requires Runnable(cfg, s, b, lag, others)
    ensures FitRows(ReqsOf(s.reqs, b.entries), cfg.numRows + 1, cfg.width, cfg.ps)
    ensures forall i {:trigger b.entries[i]} | 0 <= i < |b.entries| :: b.entries[i].uid in s.reqs
    ensures Shape(s.table, cfg.numRows + 1, cfg.width)
  {
    hide Planned, ReqsInv, Owned, CacheOk, ReqsOf, AlignUp, Shape, Later;
    var t := Caught(s, lag);
    PlannedReady(cfg, t, b, others);
    ReqsLength(s.reqs, b.entries);
    forall i | 0 <= i < |b.entries|
      ensures FitsRow(ReqsOf(s.reqs, b.entries)[i], cfg.numRows + 1, cfg.width, cfg.ps)
      ensures b.entries[i].uid in s.reqs
    {
      ReqsAt(s.reqs, b.entries, i);
      var u := b.entries[i].uid;
      LaterGet(s.reqs, lag, u);
      ReqFacts(cfg, t, {}, [], u);
      RowKnown(cfg, t, u);
      AlignUpMono(Get(t.reqs, u).deviceLen, cfg.maxSeqLen, cfg.ps);
    }
  }

  lemma {:induction false} RowKnown(cfg: Config, s: Sched, u: int)
    requires ReqInv(cfg, s, {}, u)
    ensures u in s.reqs && 0 <= Get(s.reqs, u).row < cfg.numRows
  {
    hide Whole, Segment, Aligned;
  }

  lemma {:induction false} BatchInside(t: Table, rs: seq<Req>, rows: nat, width: nat, ps: Pos)
    requires Shape(t, rows, width) && FitRows(rs, rows, width, ps)
    ensures Inside(t, BatchStretches(rs))
    decreases |rs|
  {
    hide AlignUp;
    if rs != [] {
      assert forall i | 0 <= i < |rs[1..]| :: rs[1..][i] == rs[i + 1];
      BatchInside(t, rs[1..], rows, width, ps);
      assert FitsRow(rs[0], rows, width, ps);
      AlignBracket(rs[0].deviceLen, ps);
      var l := BatchStretches(rs);
      assert forall i | 1 <= i < |l| :: l[i] == BatchStretches(rs[1..])[i - 1];
    }
  }

  /** What a rollback puts back fits its rows. */
  lemma {:induction false} TokenFits(cfg: Config, s: Sched, b: Batch, ev: Eviction)
    requires Shape(s.table, cfg.numRows + 1, cfg.width)
    requires FitRows(ReqsOf(s.reqs, b.entries), cfg.numRows + 1, cfg.width, cfg.ps)
    ensures var os := TokenOf(cfg, s, b, ev).overwrites;
            forall i {:trigger os[i]} | 0 <= i < |os| :: PutsBack(os[i], cfg.numRows + 1, cfg.width)
  {
    hide AllocationInfo, FitRows, PagesFor, Allocated, Expand, ReqsOf;
    var l := AllocationInfo(ReqsOf(s.reqs, b.entries), cfg.ps);
    InfoInside(s.table, ReqsOf(s.reqs, b.entries), cfg.numRows + 1, cfg.width, cfg.ps);
    var os := TokenOf(cfg, s, b, ev).overwrites;
    forall i | 0 <= i < |os|
      ensures PutsBack(os[i], cfg.numRows + 1, cfg.width)
    {
      assert os[i] == OverwritesOf(s.table, l)[i];
      assert l[i].from <= l[i].to <= |s.table[l[i].row]|;
    }
  }

  // ---- the forward pass

  /** The records after every request of the batch was advanced. */
  function CompletedReqs(reqs: map<int, Req>, es: seq<Entry>): map<int, Req>
    decreases |es|
  {
    if es == [] then reqs
    else CompletedReqs(reqs[es[0].uid := Get(reqs, es[0].uid).CompleteOne()], es[1..])
  }

  ghost predicate RowInTable(cfg: Config, reqs: map<int, Req>, u: int) {
    u in reqs && 0 <= reqs[u].row < cfg.numRows
  }

  lemma {:induction false} CellIsRow(t: Table, row: int, at: nat, v: int)
    ensures WriteRow(t, row, at, [v]) == WriteCell(t, row, at, v)
  {
    if 0 <= row < |t| && at < |t[row]| {
      assert t[row][..at] + [v] + t[row][at + 1..] == t[row][at := v];
    }
  }

  /** The write tuple of the rest of a batch does not see the first request's step. */
  lemma {:induction false} TupleRest(cfg: Config, reqs: map<int, Req>, es: seq<Entry>, r: Req)
    requires es != [] && DistinctEntries(es)
    ensures var reqs' := reqs[es[0].uid := r];
            && WriteRows(reqs', es[1..]) == WriteRows(reqs, es)[1..]
            && WriteColumns(cfg, reqs', es[1..]) == WriteColumns(cfg, reqs, es)[1..]
  {
    hide WritePos;
    assert forall i | 0 <= i < |es[1..]| :: es[1..][i] == es[i + 1] && es[0].uid != es[i + 1].uid;
  }

  /** Advancing all requests first and writing all tokens afterwards, through the tuple made before, is the commit. */
  lemma {:induction false} CommitIs(cfg: Config, s: Sched, es: seq<Entry>, tokens: seq<int>)
    requires DistinctEntries(es) && |tokens| == |es|
    requires forall i {:trigger es[i]} | 0 <= i < |es| :: WritePos(cfg, Get(s.reqs, es[i].uid)) >= 0
    ensures Commit(cfg, s, es, tokens)
         == s.(reqs := CompletedReqs(s.reqs, es),
               pool := Scattered(s.pool, WriteRows(s.reqs, es), WriteColumns(cfg, s.reqs, es), tokens))
    decreases |es|
  {
    hide WritePos, WriteRow, WriteCell;
    if es != [] {
      var u := es[0].uid;
      var s1 := CommitOne(cfg, s, u, tokens[0]);
      DistinctRest(es);
      TupleRest(cfg, s.reqs, es, Get(s.reqs, u).CompleteOne());
      CellIsRow(s.pool, Get(s.reqs, u).row, WritePos(cfg, Get(s.reqs, u)), tokens[0]);
      forall i | 0 <= i < |es[1..]|
        ensures WritePos(cfg, Get(s1.reqs, es[1..][i].uid)) >= 0
      {
        assert es[1..][i] == es[i + 1] && es[0].uid != es[i + 1].uid;
      }
      CommitIs(cfg, s1, es[1..], tokens[1..]);
    }
  }

  /** Every sampled token goes to a cell of the table. */
  lemma {:induction false} ColumnsFit(cfg: Config, s: Sched, b: Batch, lag: map<int, int>, others: set<int>)
    requires Planned(cfg, Caught(s, lag), b, others) && cfg.maxSeqLen <= cfg.width && cfg.width > 0
    ensures forall i {:trigger b.entries[i]} | 0 <= i < |b.entries| ::
              0 <= WritePos(cfg, Get(s.reqs, b.entries[i].uid)) < cfg.width && b.entries[i].uid in s.reqs
  {
    hide QueueOk, RunningOk, ChunkUids, HeadReady, ChunksQueued, Uids, Later;
    forall i | 0 <= i < |b.entries|
      ensures 0 <= WritePos(cfg, Get(s.reqs, b.entries[i].uid)) < cfg.width && b.entries[i].uid in s.reqs
    {
      LaterGet(s.reqs, lag, b.entries[i].uid);
      assert EntryOk(cfg, Caught(s, lag), b.entries[i]);
    }
  }

  // ---- one tick

  /** A prepared batch can run. */
  lemma {:induction false} ReadyToRun(cfg: Config, s: Sched, b: Batch, ev: Eviction, lag: map<int, int>,
                                      others: set<int>)
    requires Runnable(cfg, s, b, lag, others) && CanPrepare(cfg, s, b, ev)
    ensures var s1 := Prepare(cfg, s, b, ev);
            && Planned(cfg, Caught(s1, lag), b, others) && s1.reqs == s.reqs && cfg.maxSeqLen <= cfg.width
              && cfg.width > 0
            && (forall i {:trigger b.entries[i]} | 0 <= i < |b.entries| :: RowInTable(cfg, s1.reqs, b.entries[i].uid))
  {
    hide RInv, Planned, CanPrepare, Prepare, FitRows, ReqInv, AllReady, Later;
    var t := Caught(s, lag);
    CanPrepareSame(cfg, s, lag, b, ev);
    PrepareSame(cfg, s, lag, b, ev);
    PrepareKeeps(cfg, t, b, ev, others);
    PlannedPrepared(cfg, t, Prepare(cfg, t, b, ev), b, others);
    PrepareFrame(cfg, s, b, ev);
    PlannedReady(cfg, t, b, others);
    WidthPositive(cfg, t);
    forall i | 0 <= i < |b.entries|
      ensures RowInTable(cfg, s.reqs, b.entries[i].uid)
    {
      var u := b.entries[i].uid;
      ReadyHeld(cfg, t, b.entries, i);
      LaterGet(s.reqs, lag, u);
      ReqFacts(cfg, t, {}, [], u);
      RowKnown(cfg, t, u);
    }
  }

  lemma {:induction false} LaunchInput(cfg: Config, s: Sched, i: Input)
    ensures Launch(cfg, s, i) == Launch(cfg, s, Input([], i.ev, i.tokens))
    ensures CanLaunch(cfg, s, i) == CanLaunch(cfg, s, Input([], i.ev, i.tokens))
  {
    hide Schedule, Prepare, SchedSpec.Forward, CanPrepare;
  }

  // ---- the normal loop

  /** Between the ticks of the normal loop nothing is in flight. */
  lemma {:induction false} PlainHearing(cfg: Config, s: Sched)
    requires NInv(cfg, s)
    ensures Hearing(cfg, s, [], false) && Ctrl(s)
  {
    hide RInv, QueueOk, HeadOk, RunningOk, DoneOk, Ctrl;
    NoWaiting();
    NoUids();
    PlainCtrl(cfg, s);
    assert Outside(s) == s;
    assert ({} + {}) * s.cache.held.Keys == {};
  }

  lemma {:induction false} PlainCaught(cfg: Config, s: Sched, others: set<int>)
    requires LInv(cfg, s, s.pending, others)
    ensures Caught(s, map[]) == s
  {
    hide RInv, QueueOk, HeadOk, RunningOk, DoneOk, ChunkUids;
    assert Later(s.reqs, map[]) == s.reqs;
  }

  lemma {:induction false} PlainSchedulable(cfg: Config, s: Sched)
    requires NInv(cfg, s)
    ensures Schedulable(cfg, s, map[], {})
  {
    hide LInv, ChunkUids;
    PlainCaught(cfg, s, {});
  }

  /** The batch of the normal loop is processed in the tick that launched it. */
  lemma {:induction false} PlainProcessing(cfg: Config, s: Sched, i: Input)
    requires NInv(cfg, s) && CanLaunch(cfg, s, i)
    ensures var (s2, f) := Launch(cfg, s, i);
            f.Some? ==> |f.value.tokens| == |f.value.batch.entries|
                        && Processing(cfg, Post(s2, [], {}), f.value.batch.entries, f.value.tokens, [],
                          f.value.batch.prefill)
  {
    hide NInv, LInv, Schedule, Prepare, SchedSpec.Forward, CanPrepare, Planned, RInv, WaitsOk, Waiting, Processing;
    ScheduleKeeps(cfg, s);
    var (s1, b) := Schedule(cfg, s);
    if b.Some? {
      var tokens := TokensFor(b.value, i.tokens);
      BatchRuns(cfg, s1, b.value, i.ev, tokens);
      WaitsProcessing(cfg, SchedSpec.Forward(cfg, Prepare(cfg, s1, b.value, i.ev), b.value, tokens), b.value.entries,
        tokens, b.value.prefill);
    }
  }

  lemma {:induction false} WaitsProcessing(cfg: Config, s: Sched, es: seq<Entry>, tokens: seq<int>, prefill: bool)
    requires LInv(cfg, s, s.pending, Waiting(es)) && WaitsOk(cfg, s, es) && |tokens| == |es|
    ensures Processing(cfg, Post(s, [], {}), es, tokens, [], prefill)
  {
    hide LInv, WaitOk, Waiting, Later, LagOf, RunOk, ChunkUids, DistinctEntries;
    var lag := LagOf(es, tokens, s.deferred);
    var t := Caught(s, lag);
    PlainOutside(cfg, s, Waiting(es));
    HeldOf(cfg, s, Waiting(es));
    LagKeys(es, tokens, s.deferred);
    forall i | 0 <= i < |es| && !es[i].chunked
      ensures es[i].uid in Waiting(es) && WaitOk(cfg, s, es[i]) && es[i].uid in s.cache.held
    {
      InUids(es, i);
    }
    CatchUp(cfg, s, es, tokens, Waiting(es));
    forall u | u in t.running && u in Waiting(es)
      ensures RunOk(cfg, t, u)
    {
      var i := WaitingOf(es, u);
      WaitRuns(cfg, s, lag, es[i]);
    }
    OnlyIdle(cfg, t, Waiting(es));
    NoWaiting();
    assert Idle(t) + {} * t.cache.held.Keys == Idle(t);
    NoneDone(t);
    forall i | 0 <= i < |es| && !es[i].chunked && es[i].uid !in s.deferred
      ensures ToGo(s, t, es[i], prefill)
    {
      WaitToGo(cfg, s, lag, es[i], prefill);
    }
  }

  lemma {:induction false} PlainOutside(cfg: Config, s: Sched, busy: set<int>)
    requires LInv(cfg, s, s.pending, busy)
    ensures Outside(s) == s && s.deferred == {}
  {
    hide RInv, QueueOk, HeadOk, RunningOk, DoneOk, ChunkUids;
  }

  lemma {:induction false} WaitToGo(cfg: Config, s: Sched, lag: map<int, int>, e: Entry, prefill: bool)
    requires WaitOk(cfg, s, e) && e.uid in s.cache.held && e.uid in lag
    ensures ToGo(s, Caught(s, lag), e, prefill)
  {
    hide ChunkUids;
  }

  // ---- the overlap loop

  lemma {:induction false} StartTick(cfg: Config, s: Sched, last: Option<Flight>, msgs: seq<Msg>)
    requires FInv(s, last) && OwnInv(cfg, s, last) && OFresh(cfg, s, last, msgs)
    ensures var s0 := s.(inflight := LastUids(last));
            && Hearing(cfg, s0, LastEntries(last), IsPrefill(last)) && Ctrl(s0) && AllFresh(cfg, s0, msgs)
            && Hearing(cfg, ProcessMsgs(cfg, s0, msgs), LastEntries(last), IsPrefill(last))
            && Ctrl(ProcessMsgs(cfg, s0, msgs))
    ensures LastUids(last) == if last.None? then {} else Uids(last.value.batch.entries)
    ensures DistinctEntries(LastEntries(last)) && |Tokens(last)| == |LastEntries(last)|
  {
    hide OwnInv, Hearing, Ctrl, Released, ProcessMsgs, AllFresh, PlainIdle, DistinctEntries, Heard;
    StartHearing(cfg, s, last);
    WithInflight(s, last);
    NoUids();
    MsgsHear(cfg, s.(inflight := LastUids(last)), msgs, LastEntries(last), IsPrefill(last));
    MsgsHeard(cfg, s.(inflight := LastUids(last)), msgs);
  }

  /** Post-processing of the last batch, releases put off, acknowledgements: the end of a tick as a value. */
  ghost function Finished(cfg: Config, s: Sched, last: Option<Flight>): (Sched, seq<Reply>)
    requires last.Some? ==> |last.value.tokens| == |last.value.batch.entries|
  {
    var (s3, replies) := if last.None? then (s, []) else ProcessLast(cfg, s, last.value.batch, last.value.tokens);
    var s4 := ApplyEntries(cfg, s3, LastEntries(last), {});
    (s4.(deferred := {}, acks := [], inflight := {}), replies + AckReplies(s4.acks))
  }

  /** The last batch can be processed, and its deferred aborts carried out after that. */
  ghost predicate CanFinish(cfg: Config, s: Sched, last: Option<Flight>, fes: seq<Entry>) {
    && (last.Some? ==>
          && |last.value.tokens| == |last.value.batch.entries|
          && Processing(cfg, Post(s, [], {}), last.value.batch.entries, last.value.tokens, fes,
            last.value.batch.prefill))
    && Applying(cfg, if last.None? then s else ProcessLast(cfg, s, last.value.batch, last.value.tokens).0,
                LastEntries(last), {}, fes)
  }

  /** The rest of a tick once its batch is launched. */
  lemma {:induction false} TickFinishes(cfg: Config, s: Sched, last: Option<Flight>, i: Input)
    requires FInv(s, last) && OwnInv(cfg, s, last) && Fits(cfg, s, last, i) && !LateAbort(s, last, i.msgs)
    ensures var (s2, f) := Launch(cfg, ProcessMsgs(cfg, s.(inflight := LastUids(last)), i.msgs), i);
            && CanFinish(cfg, s2, last, LastEntries(f))
            && OverlapTick(cfg, s, last, i) == (Finished(cfg, s2, last).0, f, Finished(cfg, s2, last).1)
  {
    hide OwnInv, Hearing, Ctrl, Launch, CanLaunch, ProcessMsgs, AllFresh, Processing, Applying, OverlapTick,
      ProcessLast, Uids, PlainIdle, DistinctEntries, LateAbort, OFresh;
    StagesShape(s, last);
    StartTick(cfg, s, last, i.msgs);
    StartProcessing(cfg, ProcessMsgs(cfg, s.(inflight := LastUids(last)), i.msgs), i, LastEntries(last), Tokens(last),
                    IsPrefill(last));
    TickApplying(cfg, s, last, i);
    TickInPlace(cfg, s, last, i);
  }

  /** The state after post-processing, in which the deferred aborts can be carried out. */
  lemma {:induction false} TickApplying(cfg: Config, s: Sched, last: Option<Flight>, i: Input)
    requires FInv(s, last) && OwnInv(cfg, s, last) && OFresh(cfg, s, last, i.msgs) && !LateAbort(s, last, i.msgs)
    requires CanLaunch(cfg, ProcessMsgs(cfg, s.(inflight := LastUids(last)), i.msgs), i)
    ensures var (s2, f) := Launch(cfg, ProcessMsgs(cfg, s.(inflight := LastUids(last)), i.msgs), i);
            var s3 := if last.None? then s2 else ProcessLast(cfg, s2, last.value.batch, last.value.tokens).0;
            Applying(cfg, s3, LastEntries(last), {}, LastEntries(f))
  {
    hide OwnInv, Settling, CanLaunch, StagesOk, Ctrl, Uids, Released, PlainIdle, DistinctEntries, Aborts, AllFresh,
      Applying, Launch, ProcessMsgs, ProcessEntries, ApplyEntries;
    var g := StagesOf(cfg, s, last, i);
    StagesShape(s, last);
    HeardOf(cfg, s, last, i);
    TickIs(cfg, s, last, i);
    TickProcessed(cfg, s, last, i);
    HeardDeferred(s, last, i, g);
    OnTime(s, last, i.msgs);
    StartApplying(cfg, g.post.s, g.post.finished, g.flight, LastEntries(last));
  }

  lemma {:induction false} TickInPlace(cfg: Config, s: Sched, last: Option<Flight>, i: Input)
    requires last.Some? ==> |last.value.tokens| == |last.value.batch.entries|
    ensures var (s2, f) := Launch(cfg, ProcessMsgs(cfg, s.(inflight := LastUids(last)), i.msgs), i);
            var (s3, replies) := if last.None? then (s2, [])
                else ProcessLast(cfg, s2, last.value.batch, last.value.tokens);
            var s4 := ApplyEntries(cfg, s3, LastEntries(last), {});
            OverlapTick(cfg, s, last, i)
              == (s4.(deferred := {}, acks := [], inflight := {}), f, replies + AckReplies(s4.acks))
  {
    hide Launch, ProcessMsgs, ProcessLast, Uids;
    NoUids();
  }

  /** One more entry of the deferred aborts. */
  lemma {:induction false} ApplyNext(cfg: Config, s: Sched, es: seq<Entry>, done: set<int>, fes: seq<Entry>)
    requires Applying(cfg, s, es, done, fes) && es != []
    ensures var u := es[0].uid;
            var now := u in s.deferred && u !in done;
            && Applying(cfg, if now then Acked(cfg, s, u) else s, es[1..], if now then done + {u} else done, fes)
            && ApplyEntries(cfg, s, es, done)
               == ApplyEntries(cfg, if now then Acked(cfg, s, u) else s, es[1..], if now then done + {u} else done)
  {
    hide Landed, Waiting, ChunkUids, Release, Uids, Parked, Idle, Avail;
    UidsSplit(es);
    if es[0].uid in s.deferred && es[0].uid !in done {
      ApplyStep(cfg, s, es, done, fes);
    }
  }

  lemma {:induction false} ReadyHeld(cfg: Config, s: Sched, es: seq<Entry>, i: nat)
    requires AllReady(cfg, s, {}, es) && i < |es|
    ensures es[i].uid in s.cache.held
  {
    assert Ready(cfg, s, {}, es[i].uid);
  }

  lemma {:induction false} WidthPositive(cfg: Config, s: Sched)
    requires RInv(cfg, s, {}, [])
    ensures cfg.maxSeqLen <= cfg.width && cfg.width > 0
  {
    hide Owned, ReqsInv, CacheOk, Shape;
  }

  lemma {:induction false} RemainNone(reqs: map<int, Req>)
    ensures Total(RemainSum(reqs, {})) == 0
  {
    assert RemainSum(reqs, {}) == map[];
  }

  lemma {:induction false} RemainMore(reqs: map<int, Req>, us: set<int>, u: int)
    requires u !in us && Get(reqs, u).RemainLen() > 0
    ensures Total(RemainSum(reqs, us + {u})) == Total(RemainSum(reqs, us)) + Get(reqs, u).RemainLen()
  {
    TotalAdd(RemainSum(reqs, us), RemainSum(reqs, us + {u}), u);
  }

  lemma {:induction false} RunningRemain(cfg: Config, s: Sched, lag: map<int, int>, others: set<int>)
    requires Schedulable(cfg, s, lag, others)
    ensures forall u | u in s.running :: u in s.reqs && s.reqs[u].RemainLen() > 0
    ensures InflightTokens(cfg, s) >= 0
  {
    hide RInv, QueueOk, HeadOk, DoneOk, RemainSum, ChunkUids, Later, Unqueued;
    forall u | u in s.running
      ensures u in s.reqs && s.reqs[u].RemainLen() > 0
    {
      LaterGet(s.reqs, lag, u);
      assert RunOk(cfg, Caught(s, lag), u);
    }
  }

  lemma {:induction false} CaughtQueue(s: Sched, lag: map<int, int>)
    ensures Caught(s, lag).pending == s.pending
  {
  }

  /** The admission loop so far against the round as a whole. */
  ghost predicate FillingTo(cfg: Config, s: Sched, a: Adder, pending: seq<Pending>, k: nat, added: seq<Req>,
                            chunked: seq<Pending>, whole: Round)
    requires k <= |pending|
  {
    var rest := AddAll(cfg, s, a, pending[k..]);
    && whole == Round(rest.s, rest.a, added + rest.added) && |whole.added| <= |pending|
    && ChunkList(pending, whole.added) == chunked + ChunkList(pending[k..], rest.added)
  }

  /** One more turn of the admission loop. */
  lemma {:induction false} RoundTurn(cfg: Config, s: Sched, a: Adder, pending: seq<Pending>, k: nat, added: seq<Req>,
                                     chunked: seq<Pending>, q: Req, whole: Round)
    requires k < |pending| && FillingTo(cfg, s, a, pending, k, added, chunked, whole)
    requires TryAddOne(cfg, s, a, pending[k]).Some? && TryAddOne(cfg, s, a, pending[k]).value.2 == q
    ensures var (s1, a1, q1) := TryAddOne(cfg, s, a, pending[k]).value;
            FillingTo(cfg, s1, a1, pending, k + 1, added + [q],
                      if q.chunked then chunked + [pending[k].(chunk := true)] else chunked, whole)
  {
    hide TryAddOne;
    var queue := pending[k..];
    assert queue[0] == pending[k] && queue[1..] == pending[k + 1..];
    var (s1, a1, q1) := TryAddOne(cfg, s, a, queue[0]).value;
    var r, rest := AddAll(cfg, s, a, queue), AddAll(cfg, s1, a1, queue[1..]);
    assert r.added == [q] + rest.added && r.added[1..] == rest.added;
    assert added + r.added == added + [q] + rest.added;
  }

  /** The loop stops where the round does. */
  lemma {:induction false} RoundStops(cfg: Config, s: Sched, a: Adder, pending: seq<Pending>, k: nat, added: seq<Req>,
                                      chunked: seq<Pending>, whole: Round)
    requires k <= |pending| && FillingTo(cfg, s, a, pending, k, added, chunked, whole)
    requires k == |pending| || TryAddOne(cfg, s, a, pending[k]).None?
    ensures whole == Round(s, a, added) && chunked == ChunkList(pending, added)
  {
    hide TryAddOne;
    assert k < |pending| ==> pending[k..][0] == pending[k];
    assert added + [] == added && chunked + [] == chunked;
  }

  lemma {:induction false} NothingAddedSame(cfg: Config, s: Sched, a: Adder, queue: seq<Pending>)
    ensures AddAll(cfg, s, a, queue).added == [] ==> AddAll(cfg, s, a, queue).s == s
  {
    hide TryAddOne;
  }

  lemma {:induction false} RoundPending(cfg: Config, s: Sched, a: Adder, queue: seq<Pending>)
    ensures AddAll(cfg, s, a, queue).s.pending == s.pending
    decreases |queue|
  {
    hide LongestMatch, WriteRow, Avail, SlotsOf;
    if queue != [] && TryAddOne(cfg, s, a, queue[0]).Some? {
      var (s1, a1, q) := TryAddOne(cfg, s, a, queue[0]).value;
      RoundPending(cfg, s1, a1, queue[1..]);
    }
  }

  lemma {:induction false} HeldUids(held: map<int, RadixTreeNode>)
    ensures HeldPaths(held).Keys == held.Keys
  {
  }

  lemma {:induction false} LockUnlock(c': Cache, c: Cache, u: int, path: seq<int>)
    requires c' == LockOp(c, u, path) && u !in c.held
    ensures UnlockOp(c', u) == c
  {
    assert c.held[u := path] - {u} == c.held;
  }

  lemma {:induction false} LockUnlockNodes(held: map<int, RadixTreeNode>, u: int, n: RadixTreeNode)
    requires u !in held
    ensures held[u := n] - {u} == held
  {
  }

  lemma {:induction false} FoundAt(ps: seq<Pending>, u: int, i: nat)
    requires i < |ps| && ps[i].uid == u && forall j | 0 <= j < i :: ps[j].uid != u
    ensures FindPending(ps, u) == i
  {
    var k := FindPending(ps, u);
    assert k < |ps| ==> ps[k].uid == u;
  }

  lemma {:induction false} NotFound(ps: seq<Pending>, u: int)
    requires forall j | 0 <= j < |ps| :: ps[j].uid != u
    ensures FindPending(ps, u) == |ps| && DropPending(ps, u) == ps
  {
  }
}
