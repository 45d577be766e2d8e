/** Admission reckons in tokens and the allocator in pages: with pages of several slots, a batch of short prompts can
pass admission and still ask for more pages than there are. */
module PageSlack {
  import opened Paging
  import opened PrefixStore
  import opened CacheSpec
  import opened Requests
  import opened SchedSpec
  import opened SchedRun
  import opened SchedSound

  /** Two rows and a single page. */
  function OnePage(ps: Pos): Config {
    Config(ps, 1, 2, AlignUp(2, ps), 2, 2, 0)
  }

  /** A request of one token that asks for none. */
  function Short(u: int): Pending {
    Pending(u, [1], Params(0, true, {}), false)
  }

  function Arrive(): seq<Msg> {
    [UserMsg(0, [1], Params(0, true, {})), UserMsg(1, [1], Params(0, true, {}))]
  }

  lemma {:induction false} Arrived(cfg: Config, s: Sched)
    requires cfg.maxSeqLen == 2 && s.pending == [] && s.reqs == map[]
    ensures AllFresh(cfg, s, Arrive()) && ProcessMsgs(cfg, s, Arrive()) == s.(pending := [Short(0), Short(1)])
  {
    var a, b := Arrive()[0], Arrive()[1];
    var s1 := ProcessMsg(cfg, s, a);
    assert s1 == s.(pending := [Short(0)]);
    var s2 := ProcessMsg(cfg, s1, b);
    assert s2 == s.(pending := [Short(0), Short(1)]);
    assert Arrive()[1..] == [b] && [b][1..] == [];
    assert ProcessMsgs(cfg, s1, [b]) == ProcessMsgs(cfg, s2, []);
    assert AllFresh(cfg, s2, []) && AllFresh(cfg, s1, [b]);
  }

  /** Nothing stored, one page free. */
  ghost predicate Bare(s: Sched) {
    s.cache.store == map[] && |s.cache.free| == 1
  }

  lemma {:induction false} BareAvail(c: Cache)
    requires c.store == map[]
    ensures Avail(c) == |c.free|
  {
    assert Unprotected(c.store, c.held) == {};
  }

  /** A short request passes admission as long as its token fits the page. */
  lemma {:induction false} ShortFits(cfg: Config, s: Sched, a: Adder, u: int)
    requires Bare(s) && s.rows != [] && a.budget >= 1 && a.reserved + 1 <= cfg.ps
    ensures var r := TryAddOne(cfg, s, a, Short(u));
            && r.Some? && Bare(r.value.0) && |r.value.0.rows| == |s.rows| - 1
            && r.value.1 == Adder(a.budget - 1, a.reserved + 1)
            && r.value.0.reqs == s.reqs[u := r.value.2] && r.value.2.cachedLen == 0 && r.value.2.deviceLen == 1
            && r.value.2.uid == u
  {
    hide Avail, WriteRow;
    var p := Short(u);
    assert LongestMatch(s.cache.store, p.ids[..|p.ids| - 1], cfg.ps) == 0;
    BareAvail(s.cache);
    BareAvail(LockOp(s.cache, u, p.ids[..0]));
  }

  /** Both requests are taken, and need a page each. */
  lemma {:induction false} BothFit(cfg: Config, s: Sched)
    requires Bare(s) && |s.rows| == 2 && cfg.budget == 2 && cfg.ps >= 2 && s.running == {}
    requires s.pending == [Short(0), Short(1)]
    ensures var (s1, b) := Schedule(cfg, s);
            b.Some? && PagesFor(cfg, s1.reqs, b.value.entries) == 2 && Avail(s1.cache) == 1
  {
    hide TryAddOne, Avail, Sorted;
    assert RemainSum(s.reqs, {}) == map[];
    var a := Adder(2, 0);
    ShortFits(cfg, s, a, 0);
    var (s1, a1, q0) := TryAddOne(cfg, s, a, Short(0)).value;
    ShortFits(cfg, s1, a1, 1);
    var (s2, a2, q1) := TryAddOne(cfg, s1, a1, Short(1)).value;
    assert s.pending[1..] == [Short(1)] && [Short(1)][1..] == [];
    assert AddAll(cfg, s2, a2, []) == Round(s2, a2, []);
    assert AddAll(cfg, s1, a1, [Short(1)]) == Round(s2, a2, [q1]);
    assert AddAll(cfg, s, a, s.pending) == Round(s2, a2, [q0, q1]);
    assert [q0, q1][1..] == [q1] && [q1][1..] == [];
    var es := EntriesOf([q0, q1]);
    assert EntriesOf([q1]) == [Entry(1, q1.chunked)] + EntriesOf([]);
    assert es == [Entry(0, q0.chunked), Entry(1, q1.chunked)];
    BareAvail(s2.cache);
    TwoPages(cfg, s2.reqs, es);
  }

  lemma {:induction false} TwoPages(cfg: Config, reqs: map<int, Req>, es: seq<Entry>)
    requires |es| == 2
    requires forall i | 0 <= i < 2 :: Get(reqs, es[i].uid).cachedLen == 0 && Get(reqs, es[i].uid).deviceLen == 1
    ensures PagesFor(cfg, reqs, es) == 2
  {
    assert DivCeil(1, cfg.ps) == 1 + DivCeil(if 1 >= cfg.ps then 1 - cfg.ps else 0, cfg.ps) && DivCeil(0, cfg.ps) == 0;
    assert es[1..][0] == es[1] && es[1..][1..] == [];
    assert PagesFor(cfg, reqs, es[1..]) == 1;
  }

  /** Admission is sound over all runs exactly when a page holds one slot. */
  lemma {:induction false} SoundExactly(ps: Pos)
    ensures (forall cfg: Config, ins, msgs |
               cfg.ps == ps && IsRun(cfg, ins) && AllFresh(cfg, StateAfter(cfg, ins), msgs) ::
               Affordable(cfg, StateAfter(cfg, ins), msgs)) <==> ps == 1
  {
    hide IsRun, StateAfter, AllFresh, Affordable;
    if ps == 1 {
      forall cfg: Config, ins, msgs | cfg.ps == ps && IsRun(cfg, ins) && AllFresh(cfg, StateAfter(cfg, ins), msgs)
        ensures Affordable(cfg, StateAfter(cfg, ins), msgs)
      {
        SoundHere(cfg, ins, msgs);
      }
    } else {
      RunsShort(ps);
    }
  }

  lemma {:induction false} SoundHere(cfg: Config, ins: seq<Input>, msgs: seq<Msg>)
    requires cfg.ps == 1 && IsRun(cfg, ins) && AllFresh(cfg, StateAfter(cfg, ins), msgs)
    ensures Affordable(cfg, StateAfter(cfg, ins), msgs)
  {
    hide IsRun, StateAfter, AllFresh, Schedule, ProcessMsgs, PagesFor, Avail;
    AdmissionSound(cfg, ins, msgs);
  }

  /** With larger pages two short requests are admitted to one page. */
  lemma {:induction false} RunsShort(ps: Pos)
    requires ps >= 2
    ensures var cfg := OnePage(ps);
            && IsRun(cfg, []) && AllFresh(cfg, StateAfter(cfg, []), Arrive())
            && !Affordable(cfg, StateAfter(cfg, []), Arrive())
  {
    hide Schedule, ProcessMsgs, PagesFor, Avail, AllFresh, AlignUp;
    var cfg := OnePage(ps);
    var s := StateAfter(cfg, []);
    InitBare(ps);
    Arrived(cfg, s);
    BothFit(cfg, s.(pending := [Short(0), Short(1)]));
  }

  lemma {:induction false} InitBare(ps: Pos)
    ensures var s := InitState(OnePage(ps));
            Bare(s) && |s.rows| == 2 && s.pending == [] && s.reqs == map[] && s.running == {}
  {
  }
}
