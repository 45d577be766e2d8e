/** Which request a sampled token belongs to: the `k`-th token of a tick is the one of the `k`-th request of its batch -
in its reply, on the host and on the device, in the same tick in the normal loop and one tick later under overlap. */
module SampledTokens {
  import opened Paging
  import opened Requests
  import opened SchedSpec
  import opened SchedInv
  import opened SchedAdmit
  import opened SchedForward
  import opened SchedPost
  import opened SchedRun
  import opened SchedEntries
  import opened SchedSettings
  import opened SchedMirror
  import opened Overlap
  import opened OverlapRun
  import opened OverlapReplies
  import opened OverlapPages
  import opened OverlapLag
  import opened OverlapMirror

  /** The batch a state schedules after these messages. */
  ghost function NextBatch(cfg: Config, s: Sched, msgs: seq<Msg>): Option<Batch> {
    Schedule(cfg, ProcessMsgs(cfg, s, msgs)).1
  }

  lemma {:induction false} EachItsOwn(b: Batch, tokens: seq<int>, k: nat)
    requires k < |b.entries| <= |tokens|
    ensures TokensFor(b, tokens)[k] == tokens[k]
  {
  }

  lemma {:induction false} SameEntry(es: seq<Entry>, j: nat, k: nat)
    requires DistinctEntries(es) && j < |es| && k < |es| && es[j].uid == es[k].uid
    ensures j == k
  {
  }

  /** The reply to `u` in these, if any, is this token. */
  ghost predicate Answers(rs: seq<Reply>, u: int, token: int) {
    exists fin :: Said(rs, u) == [Detok(u, token, fin)]
  }

  /** Post-processing gives each entry that is not cut the token at its own place. */
  lemma {:induction false} ProcessAnswers(cfg: Config, s: Sched, b: Batch, tokens: seq<int>, k: nat)
    requires |tokens| == |b.entries| && DistinctEntries(b.entries) && k < |b.entries| && !b.entries[k].chunked
    requires b.entries[k].uid !in s.deferred
    ensures var p := ProcessEntries(cfg, Post(s, [], {}), b.prefill, b.entries, tokens);
            var u := b.entries[k].uid;
            && Answers(p.replies, u, tokens[k]) && u in p.s.reqs
            && Get(p.s.reqs, u) == Get(s.reqs, u).AppendHost(tokens[k])
  {
    hide ProcessEntries, Said, DistinctEntries, IsFinished;
    var u := b.entries[k].uid;
    InUids(b.entries, k);
    var j := EntriesHit(cfg, Post(s, [], {}), b.prefill, b.entries, tokens, u);
    SameEntry(b.entries, j, k);
    NoneSaid(u);
    var q := Get(s.reqs, u).AppendHost(tokens[k]);
    assert [] + [Detok(u, tokens[k], IsFinished(cfg, q, tokens[k]))]
           == [Detok(u, tokens[k], IsFinished(cfg, q, tokens[k]))];
  }

  lemma {:induction false} AnswersMore(rs: seq<Reply>, us: seq<int>, u: int, token: int)
    requires Answers(rs, u, token)
    ensures Answers(rs + AckReplies(us), u, token)
  {
    hide Said;
    SaidConcat(rs, AckReplies(us), u);
    NothingSaid(us, u);
    assert Said(rs, u) + [] == Said(rs, u);
  }

  // ---- the normal loop

  lemma {:induction false} NormalAnswers(cfg: Config, s: Sched, i: Input, k: nat)
    requires NInv(cfg, s) && AllFresh(cfg, s, i.msgs)
    requires var b := NextBatch(cfg, s, i.msgs);
             b.Some? && k < |b.value.entries| <= |i.tokens| && !b.value.entries[k].chunked
    ensures var (s', replies) := NormalTick(cfg, s, i);
            var u := NextBatch(cfg, s, i.msgs).value.entries[k].uid;
            && Answers(replies, u, i.tokens[k]) && Get(s'.reqs, u).ids != []
            && Get(s'.reqs, u).ids[|Get(s'.reqs, u).ids| - 1] == i.tokens[k]
  {
    hide LInv, Ctrl, AllFresh, ProcessMsgs, Schedule, Prepare, Forward, ProcessEntries, DistinctEntries, Launched, Said;
    var s0 := ProcessMsgs(cfg, s, i.msgs);
    MsgsKeep(cfg, s, i.msgs);
    PlainCtrl(cfg, s0);
    LaunchIs(cfg, s0, i);
    var (s2, f) := Launch(cfg, s0, i);
    LaunchKeys(s0, s2, f);
    NoDeferred(cfg, s0, s2, f);
    var b := NextBatch(cfg, s, i.msgs).value;
    EachItsOwn(b, i.tokens, k);
    ProcessAnswers(cfg, s2, b, f.value.tokens, k);
    var p := ProcessEntries(cfg, Post(s2, [], {}), b.prefill, b.entries, f.value.tokens);
    AnswersMore(p.replies, p.s.acks, b.entries[k].uid, i.tokens[k]);
  }

  lemma {:induction false} NoDeferred(cfg: Config, s: Sched, s2: Sched, f: Option<Flight>)
    requires NInv(cfg, s) && Launched(s, s2, f)
    ensures s2.deferred == {}
  {
    hide RInv, QueueOk, HeadOk, RunningOk, DoneOk, DistinctEntries, DistinctUids, PlainIdle;
  }

  /** Over every run of the normal loop: each request of a batch that is not cut is answered with the token sampled at
  its own place, which is the last of its tokens on the host and, while it goes on, the last on the device. */
  lemma {:induction false} OwnToken(cfg: Config, ins: seq<Input>, i: Input, k: nat)
    requires IsRun(cfg, ins + [i])
    requires var b := NextBatch(cfg, StateAfter(cfg, ins), i.msgs);
             b.Some? && k < |b.value.entries| <= |i.tokens| && !b.value.entries[k].chunked
    ensures var (s', replies) := NormalTick(cfg, StateAfter(cfg, ins), i);
            var u := NextBatch(cfg, StateAfter(cfg, ins), i.msgs).value.entries[k].uid;
            var r := Get(s'.reqs, u);
            && Answers(replies, u, i.tokens[k]) && r.ids != [] && r.ids[|r.ids| - 1] == i.tokens[k]
            && (u in s'.running ==>
                  0 < r.deviceLen <= |PoolRow(s', u)| && PoolRow(s', u)[r.deviceLen - 1] == i.tokens[k])
  {
    hide NormalTick, AllFresh, ProcessMsgs, Schedule, CanPrepare, LInv, PoolRow, Answers, IsRun, NextBatch;
    var all := ins + [i];
    assert all[..|all| - 1] == ins && all[|all| - 1] == i;
    RunParts(cfg, ins, i);
    Reachable(cfg, ins);
    NormalAnswers(cfg, StateAfter(cfg, ins), i, k);
    DeviceMirror(cfg, all);
    var s', u := StateAfter(cfg, all), NextBatch(cfg, StateAfter(cfg, ins), i.msgs).value.entries[k].uid;
    if u in s'.running {
      LastOf(PoolRow(s', u), Get(s'.reqs, u).deviceLen, Get(s'.reqs, u).ids);
    }
  }

  lemma {:induction false} RunParts(cfg: Config, ins: seq<Input>, i: Input)
    requires IsRun(cfg, ins + [i])
    ensures IsRun(cfg, ins) && AllFresh(cfg, StateAfter(cfg, ins), i.msgs)
    ensures StateAfter(cfg, ins + [i]) == NormalTick(cfg, StateAfter(cfg, ins), i).0
  {
    hide NormalTick, AllFresh, ProcessMsgs, Schedule, CanPrepare;
    var all := ins + [i];
    assert all[..|all| - 1] == ins && all[|all| - 1] == i;
  }

  lemma {:induction false} LastOf(row: seq<int>, n: nat, ids: seq<int>)
    requires ids != [] && n == |ids| && Upto(row, n) == ids
    ensures 0 < n <= |row| && row[n - 1] == ids[n - 1]
  {
  }

  // ---- the overlap loop

  /** A tick answers each request of the batch in flight that is neither cut nor aborted by then with its own token. */
  lemma {:induction false} OverlapAnswers(cfg: Config, s: Sched, last: Option<Flight>, i: Input, k: nat)
    requires FInv(s, last) && OFresh(cfg, s, last, i.msgs) && last.Some? && k < |last.value.batch.entries|
    requires !last.value.batch.entries[k].chunked && last.value.batch.entries[k].uid !in Aborts(i.msgs)
    ensures |last.value.tokens| == |last.value.batch.entries|
    ensures Answers(OverlapTick(cfg, s, last, i).2, last.value.batch.entries[k].uid, last.value.tokens[k])
  {
    hide FInv, OverlapTick, StagesOk, OFresh, ProcessMsgs, Launch, ProcessEntries, ApplyEntries, Uids, DistinctEntries,
      DistinctUids, Said, Aborts, Answers;
    FlightShape(s, last);
    TickStages(cfg, s, last, i);
    TickIs(cfg, s, last, i);
    var g, u := StagesOf(cfg, s, last, i), last.value.batch.entries[k].uid;
    InUids(last.value.batch.entries, k);
    DeferredNow(s, last, i, g, u);
    ProcessAnswers(cfg, g.launched, last.value.batch, last.value.tokens, k);
    AnswersMore(g.post.replies, g.applied.acks, u, last.value.tokens[k]);
  }

  /** The batch that a tick of the overlap loop launches, with its tokens. */
  lemma {:induction false} FlightTokens(cfg: Config, s: Sched, last: Option<Flight>, i: Input, k: nat)
    requires FInv(s, last)
    requires var b := NextBatch(cfg, s.(inflight := LastUids(last)), i.msgs);
             b.Some? && k < |b.value.entries| <= |i.tokens|
    ensures var f, b := OverlapTick(cfg, s, last, i).1, NextBatch(cfg, s.(inflight := LastUids(last)), i.msgs).value;
            && f.Some? && f.value.batch == b && |f.value.tokens| == |b.entries| && f.value.tokens[k] == i.tokens[k]
  {
    hide FInv, ProcessMsgs, Schedule, Prepare, Forward, ProcessEntries, ApplyEntries, Uids;
    var b := NextBatch(cfg, s.(inflight := LastUids(last)), i.msgs).value;
    NoUids();
    EachItsOwn(b, i.tokens, k);
  }

  /** Over every run of the overlap loop: each request of a launched batch that is not cut is answered in the next tick
  with the token sampled at its own place, unless it is aborted by then. */
  lemma {:induction false} OwnTokenLater(cfg: Config, ins: seq<Input>, i: Input, j: Input, k: nat)
    requires IsLoop(cfg, ins + [i] + [j])
    requires var l := LoopAfter(cfg, ins);
             var b := NextBatch(cfg, l.s.(inflight := LastUids(l.last)), i.msgs);
             b.Some? && k < |b.value.entries| <= |i.tokens| && !b.value.entries[k].chunked
    ensures var l := LoopAfter(cfg, ins);
            var u := NextBatch(cfg, l.s.(inflight := LastUids(l.last)), i.msgs).value.entries[k].uid;
            if u in Aborts(j.msgs) then Said(LoopAfter(cfg, ins + [i] + [j]).replies, u) == []
            else Answers(LoopAfter(cfg, ins + [i] + [j]).replies, u, i.tokens[k])
  {
    hide FInv, OverlapTick, OFresh, LoopAfter, IsLoop, Uids, Aborts, Said, Answers, NextBatch, Waiting;
    LoopStep(cfg, ins + [i], j);
    LoopStep(cfg, ins, i);
    LoopControl(cfg, ins);
    LoopControl(cfg, ins + [i]);
    var l, l' := LoopAfter(cfg, ins), LoopAfter(cfg, ins + [i]);
    FlightTokens(cfg, l.s, l.last, i, k);
    var u := l'.last.value.batch.entries[k].uid;
    if u in Aborts(j.msgs) {
      SentExactly(cfg, l'.s, l'.last, j, u);
    } else {
      OverlapAnswers(cfg, l'.s, l'.last, j, k);
    }
  }

  /** And while a request of that batch goes on, that token is already the last one in its row on the device. */
  lemma {:induction false} OwnTokenAhead(cfg: Config, ins: seq<Input>, i: Input, k: nat)
    requires IsServed(cfg, ins + [i]) && Timely(cfg, ins + [i])
    requires var l := LoopAfter(cfg, ins);
             var b := NextBatch(cfg, l.s.(inflight := LastUids(l.last)), i.msgs);
             b.Some? && k < |b.value.entries| <= |i.tokens| && !b.value.entries[k].chunked
    ensures var l, s' := LoopAfter(cfg, ins), LoopAfter(cfg, ins + [i]).s;
            var u := NextBatch(cfg, l.s.(inflight := LastUids(l.last)), i.msgs).value.entries[k].uid;
            var r := Get(s'.reqs, u);
            u in s'.running ==> 0 < r.deviceLen <= |PoolRow(s', u)| && PoolRow(s', u)[r.deviceLen - 1] == i.tokens[k]
  {
    hide FInv, OverlapTick, OFresh, LoopAfter, IsLoop, IsServed, Timely, Uids, NextBatch, PoolRow, Waiting, LagOf,
      DistinctEntries;
    ServedLoop(cfg, ins + [i]);
    LoopStep(cfg, ins, i);
    LoopControl(cfg, ins);
    LoopControl(cfg, ins + [i]);
    var l, l' := LoopAfter(cfg, ins), LoopAfter(cfg, ins + [i]);
    FlightTokens(cfg, l.s, l.last, i, k);
    FlightShape(l'.s, l'.last);
    LagAt(l'.last.value.batch.entries, l'.last.value.tokens, k);
    LoopDeviceMirror(cfg, ins + [i]);
    var u := l'.last.value.batch.entries[k].uid;
    if u in l'.s.running {
      LastOf(PoolRow(l'.s, u), Get(l'.s.reqs, u).deviceLen, Get(l'.s.reqs, u).ids + [i.tokens[k]]);
    }
  }
}
