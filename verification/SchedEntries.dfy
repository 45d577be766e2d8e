/** What one tick does to a single request, whoever else is in the batch: what scheduling makes of it, how the batch
advances it, and which token and reply it gets. */
module SchedEntries {
  import CacheSpec
  import opened Requests
  import opened SchedSpec
  import opened SchedAdmit
  import opened SchedRound
  import opened SchedBatch
  import opened SchedPost
  import opened Overlap

  // ---- the replies of one request

  ghost function SaidBy(r: Reply, u: int): seq<Reply> {
    if r.Detok? && r.uid == u then [r] else []
  }

  ghost function Said(rs: seq<Reply>, u: int): seq<Reply> {
    if rs == [] then [] else SaidBy(rs[0], u) + Said(rs[1..], u)
  }

  lemma {:induction false} SaidConcat(a: seq<Reply>, b: seq<Reply>, u: int)
    ensures Said(a + b, u) == Said(a, u) + Said(b, u)
    decreases |a|
  {
    hide SaidBy;
    if a == [] {
      assert a + b == b && [] + Said(b, u) == Said(b, u);
    } else {
      SaidConcat(a[1..], b, u);
      assert (a + b)[1..] == a[1..] + b && (a + b)[0] == a[0];
      assert SaidBy(a[0], u) + (Said(a[1..], u) + Said(b, u)) == SaidBy(a[0], u) + Said(a[1..], u) + Said(b, u);
    }
  }

  lemma {:induction false} SaidOne(r: Reply, u: int)
    ensures Said([r], u) == SaidBy(r, u)
  {
    assert [r][1..] == [];
  }

  lemma {:induction false} NothingSaid(us: seq<int>, u: int)
    ensures Said(AckReplies(us), u) == []
    decreases |us|
  {
    if us != [] {
      NothingSaid(us[1..], u);
      assert AckReplies(us)[1..] == AckReplies(us[1..]);
    }
  }

  lemma {:induction false} NoneSaid(u: int)
    ensures Said([], u) == []
  {
  }

  // ---- scheduling

  /** A request as admission makes it of its queue entry. */
  ghost predicate MadeFrom(q: Req, p: Pending) {
    && q.uid == p.uid && q.params == p.params && q.deviceLen <= |p.ids| && q.ids == p.ids[..q.deviceLen]
    && (q.chunked <==> q.deviceLen < |p.ids|) && q.maxLen == q.deviceLen + p.params.maxTokens
  }

  lemma {:induction false} StepMakes(cfg: Config, s: Sched, a: Adder, p: Pending)
    requires TryAddOne(cfg, s, a, p).Some?
    ensures MadeFrom(TryAddOne(cfg, s, a, p).value.2, p)
  {
    hide WriteRow;
  }

  lemma {:induction false} RoundMakes(cfg: Config, s: Sched, a: Adder, queue: seq<Pending>, i: nat)
    requires i < |AddAll(cfg, s, a, queue).added|
    ensures MadeFrom(AddAll(cfg, s, a, queue).added[i], queue[i])
    decreases |queue|
  {
    hide TryAddOne, MadeFrom;
    StepMakes(cfg, s, a, queue[0]);
    var (s1, a1, q) := TryAddOne(cfg, s, a, queue[0]).value;
    if i > 0 {
      RoundMakes(cfg, s1, a1, queue[1..], i - 1);
    }
  }

  lemma {:induction false} BackFrom(todo: seq<Pending>, added: seq<Req>, p: Pending)
    requires |added| <= |todo| && p in ChunkList(todo, added)
    ensures exists i {:trigger added[i]} :: 0 <= i < |added| && added[i].chunked && p == todo[i].(chunk := true)
    decreases |added|
  {
    if added[0].chunked && p == todo[0].(chunk := true) {
    } else {
      BackFrom(todo[1..], added[1..], p);
      var i :| 0 <= i < |added[1..]| && added[1..][i].chunked && p == todo[1..][i].(chunk := true);
      assert added[i + 1].chunked && p == todo[i + 1].(chunk := true);
    }
  }

  /** What scheduling makes of `u`: nothing unless it is in the batch; in a prefill batch, a new stretch of its queued
  prompt; in a decode batch it was running. */
  ghost predicate Picked(s: Sched, s1: Sched, b: Batch, u: int) {
    var q := Get(s1.reqs, u);
    if u !in Uids(b.entries) then q == Get(s.reqs, u) && (u in s1.reqs <==> u in s.reqs) && u !in Waiting(b.entries)
    else if b.prefill then
      && u !in s.running && u in s1.reqs && (u in Waiting(b.entries) <==> !q.chunked)
      && (exists p :: p in s.pending && MadeFrom(q, p) && p.uid == u)
    else u in s.running && q == Get(s.reqs, u) && (u in s1.reqs <==> u in s.reqs) && u in Waiting(b.entries)
  }

  lemma {:induction false} DecodePicks(s: Sched, u: int)
    ensures Picked(s, s, Batch(DecodeEntries(Sorted(s.running)), false), u)
    ensures Uids(DecodeEntries(Sorted(s.running))) == s.running
  {
    hide Sorted, MadeFrom;
    var es := DecodeEntries(Sorted(s.running));
    SortedUids(s.running);
    WaitingUids(es);
    if u in Uids(es) {
      var i := EntryOf(es, u);
      InUids(es, i);
    }
  }

  lemma {:induction false} PrefillPicks(cfg: Config, s: Sched, a: Adder, u: int)
    requires Ctrl(s)
    ensures var r := AddAll(cfg, s, a, s.pending);
            Picked(s, r.s.(pending := ChunkList(s.pending, r.added) + s.pending[|r.added|..]),
                   Batch(EntriesOf(r.added), true), u)
  {
    hide AddAll, ChunkList, MadeFrom, UidsOf, Uids, Waiting, DistinctUids;
    var r := AddAll(cfg, s, a, s.pending);
    var es := EntriesOf(r.added);
    RoundIs(cfg, s, a, s.pending);
    EntriesAre(r.added);
    WaitingUids(es);
    if u in UidsOf(r.added) {
      var i := UidAt(r.added, u);
      AddedUids(cfg, s, a, s.pending, i);
      RoundMakes(cfg, s, a, s.pending, i);
      assert s.pending[i] in s.pending;
      InUids(es, i);
      PickedWaiting(r.s, r.added, u, i);
    }
  }

  lemma {:induction false} PickedWaiting(s: Sched, added: seq<Req>, u: int, i: nat)
    requires forall k {:trigger added[k]} | 0 <= k < |added| :: Get(s.reqs, added[k].uid) == added[k]
    requires i < |added| && added[i].uid == u
    ensures u in Waiting(EntriesOf(added)) <==> !added[i].chunked
  {
    hide UidsOf, Uids, Waiting;
    var es := EntriesOf(added);
    EntriesAre(added);
    InUids(es, i);
    if u in Waiting(es) {
      var k := WaitingOf(es, u);
      assert added[k].uid == u;
    }
  }

  lemma {:induction false} SchedulePicks(cfg: Config, s: Sched, u: int)
    requires Ctrl(s)
    ensures var (s1, b) := Schedule(cfg, s);
            && s1.running == s.running
            && (if b.None? then s1 == s
                else Picked(s, s1, b.value, u) && DistinctEntries(b.value.entries)
                     && Uids(b.value.entries) <= s1.reqs.Keys)
  {
    hide AddAll, ChunkList, InflightTokens, Picked, Sorted, Ctrl, Uids, DistinctUids, DistinctEntries;
    var a := Adder(cfg.budget, InflightTokens(cfg, s));
    ScheduleIs(cfg, s);
    PrefillPicks(cfg, s, a, u);
    DecodePicks(s, u);
  }

  // ---- launching

  /** What preparing and running a batch does to `u`. */
  lemma {:induction false} ForwardOne(cfg: Config, s: Sched, b: Batch, ev: CacheSpec.Eviction, tokens: seq<int>, u: int)
    requires |tokens| == |b.entries| && DistinctEntries(b.entries)
    ensures var s2 := Forward(cfg, Prepare(cfg, s, b, ev), b, tokens);
            && s2.pending == s.pending && (u in s2.reqs <==> u in s.reqs || u in Uids(b.entries))
            && Get(s2.reqs, u) == (if u in Uids(b.entries) then Get(s.reqs, u).CompleteOne() else Get(s.reqs, u))
            && (u in s2.running <==> (u in s.running || u in Uids(b.entries)) && Get(s2.reqs, u).CanDecode())
  {
    hide Prepare, Commit, Uids, DistinctEntries;
    PrepareFrame(cfg, s, b, ev);
    var s1 := Prepare(cfg, s, b, ev);
    CommitAdvances(cfg, s1, b.entries, tokens);
  }

  // ---- post-processing

  lemma {:induction false} EntrySkips(cfg: Config, p: Post, prefill: bool, e: Entry, token: int, u: int)
    requires e.chunked || e.uid != u || u in p.s.deferred
    ensures var s, s' := p.s, ProcessEntry(cfg, p, prefill, e, token).s;
            && Get(s'.reqs, u) == Get(s.reqs, u) && (u in s'.reqs <==> u in s.reqs) && s'.running <= s.running
            && s'.deferred == s.deferred && s'.pending == s.pending
            && Said(ProcessEntry(cfg, p, prefill, e, token).replies, u) == Said(p.replies, u)
  {
    hide HandOver, IsFinished, Said;
    if !e.chunked && e.uid !in p.s.deferred {
      var r := Detok(e.uid, token, IsFinished(cfg, Get(p.s.reqs, e.uid).AppendHost(token), token));
      SaidConcat(p.replies, [r], u);
      SaidOne(r, u);
      assert Said(p.replies, u) + [] == Said(p.replies, u);
    }
  }

  lemma {:induction false} EntriesSkip(cfg: Config, p: Post, prefill: bool, es: seq<Entry>, tokens: seq<int>, u: int)
    requires |tokens| == |es| && (u !in Waiting(es) || u in p.s.deferred)
    ensures var p' := ProcessEntries(cfg, p, prefill, es, tokens);
            && Get(p'.s.reqs, u) == Get(p.s.reqs, u) && (u in p'.s.reqs <==> u in p.s.reqs)
            && p'.s.running <= p.s.running && p'.s.pending == p.s.pending && Said(p'.replies, u) == Said(p.replies, u)
    decreases |es|
  {
    hide ProcessEntry, Waiting, Said;
    if es != [] {
      assert es == [es[0]] + es[1..];
      WaitingCons(es[0], es[1..]);
      EntrySkips(cfg, p, prefill, es[0], tokens[0], u);
      EntriesSkip(cfg, ProcessEntry(cfg, p, prefill, es[0], tokens[0]), prefill, es[1..], tokens[1..], u);
    }
  }

  lemma {:induction false} EntryHits(cfg: Config, p: Post, prefill: bool, e: Entry, token: int)
    requires !e.chunked && e.uid !in p.s.deferred
    ensures var p', u := ProcessEntry(cfg, p, prefill, e, token), e.uid;
            var q := Get(p.s.reqs, u).AppendHost(token);
            && Get(p'.s.reqs, u) == q && u in p'.s.reqs && p'.s.running <= p.s.running && p'.s.pending == p.s.pending
            && p'.s.deferred == p.s.deferred
            && Said(p'.replies, u) == Said(p.replies, u) + [Detok(u, token, IsFinished(cfg, q, token))]
  {
    hide HandOver, IsFinished, Said;
    var q := Get(p.s.reqs, e.uid).AppendHost(token);
    SaidConcat(p.replies, [Detok(e.uid, token, IsFinished(cfg, q, token))], e.uid);
    SaidOne(Detok(e.uid, token, IsFinished(cfg, q, token)), e.uid);
  }

  /** A request in flight that is past prefill and not aborted gets its token and its reply. */
  lemma {:induction false} EntriesHit(cfg: Config, p: Post, prefill: bool, es: seq<Entry>, tokens: seq<int>, u: int)
    returns (k: nat)
    requires |tokens| == |es| && DistinctEntries(es) && u in Waiting(es) && u !in p.s.deferred
    ensures k < |es| && es[k] == Entry(u, false)
    ensures var p' := ProcessEntries(cfg, p, prefill, es, tokens);
            var q := Get(p.s.reqs, u).AppendHost(tokens[k]);
            && Get(p'.s.reqs, u) == q && u in p'.s.reqs && p'.s.running <= p.s.running && p'.s.pending == p.s.pending
            && Said(p'.replies, u) == Said(p.replies, u) + [Detok(u, tokens[k], IsFinished(cfg, q, tokens[k]))]
    decreases |es|
  {
    hide ProcessEntry, Waiting, Said, Uids, IsFinished, DistinctEntries;
    var i := WaitingOf(es, u);
    DistinctRest(es);
    var p1 := ProcessEntry(cfg, p, prefill, es[0], tokens[0]);
    if i == 0 {
      k := 0;
      EntryHits(cfg, p, prefill, es[0], tokens[0]);
      WaitingUids(es[1..]);
      EntriesSkip(cfg, p1, prefill, es[1..], tokens[1..], u);
    } else {
      assert es[1..][i - 1] == es[i];
      InUids(es[1..], i - 1);
      EntrySkips(cfg, p, prefill, es[0], tokens[0], u);
      k := EntriesHit(cfg, p1, prefill, es[1..], tokens[1..], u);
      k := k + 1;
    }
  }
}
