/** What each elementary change of the tree - split, add a leaf, drop a leaf, set a count, set a time - does to a
snapshot, and the invariants it keeps: well-formedness, exact reference counts, running sizes, ancestor times. */
module RadixOps {
  import opened Paging
  import opened Sums
  import opened RadixTree

  // ---- elementary changes

  /** `t'` is `t` with the new node `nn` put between `c` and its parent, taking the first `pos` tokens of `c`. */
  ghost predicate IsSplit(t: Tree, t': Tree, root: RadixTreeNode, c: RadixTreeNode, nn: RadixTreeNode, pos: nat,
                          ps: Pos)
  {
    && c in t && c != root && t[c].parent != null && t[c].parent in t && t[c].parent != c
    && 0 < pos < |t[c].key| == |t[c].value| && Aligned(pos, ps)
    && nn !in t && nn.pageSize == ps
    && |t[c].parent.path| + pos <= |c.path| == |c.slots|
    && nn.path == c.path[..|t[c].parent.path| + pos] && nn.slots == c.slots[..|t[c].parent.path| + pos]
    && t'.Keys == t.Keys + {nn}
    && (var r, p := t[c], t[c].parent;
        && t'[nn] == Rec(p, map[KeyFn(r.key[pos..], ps) := c], r.key[..pos], r.value[..pos], r.ref, r.ts)
        && t'[c] == r.(parent := nn, key := r.key[pos..], value := r.value[pos..])
        && t'[p] == t[p].(children := t[p].children[KeyFn(r.key[..pos], ps) := nn])
        && forall n | n in t && n != c && n != p :: t'[n] == t[n])
  }

  lemma {:induction false} SplitKeys(t: Tree, t': Tree, root: RadixTreeNode, ps: Pos, c: RadixTreeNode,
                                     nn: RadixTreeNode, pos: nat)
    requires WF(t, root, ps) && IsSplit(t, t', root, c, nn, pos, ps)
    ensures KeyFn(t[c].key[..pos], ps) == KeyFn(t[c].key, ps)
    ensures NodeOk(t', nn, ps) && NodeOk(t', c, ps)
  {
    assert NodeOk(t, c, ps);
    var r, p := t[c], t[c].parent;
    AlignedFacts(|r.key|, pos, ps);
    AlignedAtLeastPage(pos, ps);
    assert r.key == r.key[..pos] + r.key[pos..] && r.value == r.value[..pos] + r.value[pos..];
    assert nn.path == p.path + r.key[..pos] && nn.slots == p.slots + r.value[..pos];
    assert p != root ==> NodeOk(t, p, ps);
    AlignedFacts(|p.path|, pos, ps);
  }

  lemma {:induction false} SplitNode(t: Tree, t': Tree, root: RadixTreeNode, ps: Pos, c: RadixTreeNode,
                                     nn: RadixTreeNode, pos: nat,
                  n: RadixTreeNode)
    requires WF(t, root, ps) && IsSplit(t, t', root, c, nn, pos, ps) && n in t && n != root && n != c
    ensures NodeOk(t', n, ps)
  {
    SplitKeys(t, t', root, ps, c, nn, pos);
    assert NodeOk(t, c, ps) && NodeOk(t, n, ps);
    var p := t[c].parent;
    if t[n].parent == p {
      var k := KeyFn(t[n].key, ps);
      assert t[p].children[k] == n;
    }
  }

  lemma {:induction false} SplitChild(t: Tree, t': Tree, root: RadixTreeNode, ps: Pos, c: RadixTreeNode,
                                      nn: RadixTreeNode, pos: nat,
                   n: RadixTreeNode, k: seq<int>)
    requires WF(t, root, ps) && IsSplit(t, t', root, c, nn, pos, ps) && n in t' && k in t'[n].children
    ensures ChildOk(t', root, n, k, ps)
  {
    SplitKeys(t, t', root, ps, c, nn, pos);
    assert NodeOk(t, c, ps);
    if n != nn && (n != t[c].parent || k != KeyFn(t[c].key, ps)) {
      assert ChildOk(t, root, n, k, ps);
    }
  }

  lemma {:induction false} SplitWF(t: Tree, t': Tree, root: RadixTreeNode, ps: Pos, c: RadixTreeNode,
                                   nn: RadixTreeNode, pos: nat)
    requires WF(t, root, ps) && IsSplit(t, t', root, c, nn, pos, ps)
    ensures WF(t', root, ps)
  {
    SplitKeys(t, t', root, ps, c, nn, pos);
    forall n | n in t' && n != root
      ensures NodeOk(t', n, ps)
    {
      if n != nn && n != c {
        SplitNode(t, t', root, ps, c, nn, pos, n);
      }
    }
    forall n | n in t'
      ensures n.pageSize == ps
    {
      assert n in t || n == nn;
    }
    forall n, k | n in t' && k in t'[n].children
      ensures ChildOk(t', root, n, k, ps)
    {
      SplitChild(t, t', root, ps, c, nn, pos, n, k);
    }
  }

  /** `t'` is `t` with the new leaf `nn` filed under `p`. */
  ghost predicate IsAddLeaf(t: Tree, t': Tree, p: RadixTreeNode, nn: RadixTreeNode, key: seq<int>, value: seq<int>,
                            tic: int, ps: Pos)
  {
    && p in t && nn !in t && nn.pageSize == ps && key != [] && Aligned(|key|, ps) && |value| == |key|
    && nn.path == p.path + key && nn.slots == p.slots + value
    && KeyFn(key, ps) !in t[p].children
    && t'.Keys == t.Keys + {nn}
    && t'[nn] == Rec(p, map[], key, value, 0, tic)
    && t'[p] == t[p].(children := t[p].children[KeyFn(key, ps) := nn])
    && forall n | n in t && n != p :: t'[n] == t[n]
  }

  lemma {:induction false} AddLeafNode(t: Tree, t': Tree, root: RadixTreeNode, ps: Pos, p: RadixTreeNode,
                                       nn: RadixTreeNode,
                    key: seq<int>, value: seq<int>, tic: int, n: RadixTreeNode)
    requires WF(t, root, ps) && IsAddLeaf(t, t', p, nn, key, value, tic, ps) && n in t' && n != root
    ensures NodeOk(t', n, ps)
  {
    if n == nn {
      assert p != root ==> NodeOk(t, p, ps);
      AlignedFacts(|p.path|, |key|, ps);
    } else {
      assert NodeOk(t, n, ps);
    }
  }

  lemma {:induction false} AddLeafChild(t: Tree, t': Tree, root: RadixTreeNode, ps: Pos, p: RadixTreeNode,
                                        nn: RadixTreeNode,
                     key: seq<int>, value: seq<int>, tic: int, n: RadixTreeNode, k: seq<int>)
    requires WF(t, root, ps) && IsAddLeaf(t, t', p, nn, key, value, tic, ps) && n in t' && k in t'[n].children
    ensures ChildOk(t', root, n, k, ps)
  {
    assert p != root ==> NodeOk(t, p, ps);
    if n != p || k != KeyFn(key, ps) {
      assert ChildOk(t, root, n, k, ps);
    }
  }

  lemma {:induction false} AddLeafWF(t: Tree, t': Tree, root: RadixTreeNode, ps: Pos, p: RadixTreeNode,
                                     nn: RadixTreeNode,
                  key: seq<int>, value: seq<int>, tic: int)
    requires WF(t, root, ps) && IsAddLeaf(t, t', p, nn, key, value, tic, ps)
    ensures WF(t', root, ps)
  {
    forall n | n in t' && n != root
      ensures NodeOk(t', n, ps)
    {
      AddLeafNode(t, t', root, ps, p, nn, key, value, tic, n);
    }
    forall n | n in t'
      ensures n.pageSize == ps
    {
      assert n in t || n == nn;
    }
    forall n, k | n in t' && k in t'[n].children
      ensures ChildOk(t', root, n, k, ps)
    {
      AddLeafChild(t, t', root, ps, p, nn, key, value, tic, n, k);
    }
  }

  /** `t'` is `t` without the leaf `n`. */
  ghost predicate IsRemoveLeaf(t: Tree, t': Tree, root: RadixTreeNode, n: RadixTreeNode, ps: Pos)
  {
    && n in t && n != root && t[n].children == map[] && t[n].ref == 0
    && t[n].parent != null && t[n].parent in t && t[n].parent != n
    && t'.Keys == t.Keys - {n}
    && (var p := t[n].parent;
        && t'[p] == t[p].(children := t[p].children - {KeyFn(t[n].key, ps)})
        && forall m | m in t && m != n && m != p :: t'[m] == t[m])
  }

  /** No node hangs below a leaf, and no other is filed under its page. */
  lemma {:induction false} RemoveLeafNode(t: Tree, t': Tree, root: RadixTreeNode, ps: Pos, n: RadixTreeNode,
                                          m: RadixTreeNode)
    requires IsRemoveLeaf(t, t', root, n, ps) && NodeOk(t, n, ps) && m in t' && m in t && NodeOk(t, m, ps)
    ensures NodeOk(t', m, ps)
  {
    hide KeyFn, Aligned;
    var p := t[m].parent;
    assert p != n;
    assert p == t[n].parent ==> KeyFn(t[m].key, ps) != KeyFn(t[n].key, ps);
  }

  lemma {:induction false} RemoveLeafChild(t: Tree, t': Tree, root: RadixTreeNode, ps: Pos, n: RadixTreeNode,
                                           m: RadixTreeNode, k: seq<int>)
    requires IsRemoveLeaf(t, t', root, n, ps) && NodeOk(t, n, ps) && m in t' && k in t'[m].children
    requires m in t && k in t[m].children && ChildOk(t, root, m, k, ps)
    ensures ChildOk(t', root, m, k, ps)
  {
    hide KeyFn, Aligned;
  }

  lemma {:induction false} RemoveLeafWF(t: Tree, t': Tree, root: RadixTreeNode, ps: Pos, n: RadixTreeNode)
    requires WF(t, root, ps) && IsRemoveLeaf(t, t', root, n, ps)
    ensures WF(t', root, ps)
  {
    hide NodeOk, ChildOk, KeyFn;
    NodeOf(t, root, ps, n);
    forall m | m in t' && m != root
      ensures NodeOk(t', m, ps)
    {
      NodeOf(t, root, ps, m);
      RemoveLeafNode(t, t', root, ps, n, m);
    }
    forall m, k | m in t' && k in t'[m].children
      ensures ChildOk(t', root, m, k, ps)
    {
      assert ChildOk(t, root, m, k, ps);
      RemoveLeafChild(t, t', root, ps, n, m, k);
    }
  }

  /** Changing only counts (not the root's, none below zero) or times keeps the tree well-formed. */
  lemma {:induction false} SameShapeWF(t: Tree, t': Tree, root: RadixTreeNode, ps: Pos)
    requires WF(t, root, ps) && t'.Keys == t.Keys && t'[root].ref == 1
    requires forall n | n in t :: t'[n] == t[n].(ref := t'[n].ref, ts := t'[n].ts) && t'[n].ref >= 0
    ensures WF(t', root, ps)
  {
    forall n | n in t' && n != root
      ensures NodeOk(t', n, ps)
    {
      assert NodeOk(t, n, ps);
    }
    forall n, k | n in t' && k in t'[n].children
      ensures ChildOk(t', root, n, k, ps)
    {
      assert ChildOk(t, root, n, k, ps);
    }
  }

  // ---- running sizes

  /** What a node contributes to the evictable size (`ev`) or to the protected size (`!ev`). */
  ghost function Weight(n: RadixTreeNode, r: Rec, root: RadixTreeNode, ev: bool): nat {
    if n != root && (r.ref == 0) == ev then |r.key| else 0
  }

  ghost function Weights(t: Tree, root: RadixTreeNode, ev: bool): map<RadixTreeNode, nat> {
    map n | n in t :: Weight(n, t[n], root, ev)
  }

  /** Total length of the nodes with count zero (`ev`), or with a positive count (`!ev`). */
  ghost function Size(t: Tree, root: RadixTreeNode, ev: bool): nat {
    Total(Weights(t, root, ev))
  }

  /** A split changes the weights of the two halves alone. */
  lemma {:induction false} SplitWeights(t: Tree, t': Tree, root: RadixTreeNode, ps: Pos, c: RadixTreeNode,
                                        nn: RadixTreeNode,
                   pos: nat, ev: bool)
    requires WF(t, root, ps) && IsSplit(t, t', root, c, nn, pos, ps)
    ensures Weights(t', root, ev)
         == Weights(t, root, ev)[nn := Weight(nn, t'[nn], root, ev)][c := Weight(c, t'[c], root, ev)]
  {
    hide WF, KeyFn;
    var w': map<RadixTreeNode, nat> := Weights(t', root, ev);
    var v := Weights(t, root, ev)[nn := Weight(nn, t'[nn], root, ev)][c := Weight(c, t'[c], root, ev)];
    forall n | n in t'
      ensures w'[n] == v[n]
    {
      assert n == nn || n == c || n == t[c].parent || t'[n] == t[n];
    }
  }

  lemma {:induction false} SplitSizes(t: Tree, t': Tree, root: RadixTreeNode, ps: Pos, c: RadixTreeNode,
                                      nn: RadixTreeNode, pos: nat,
                   ev: bool)
    requires WF(t, root, ps) && IsSplit(t, t', root, c, nn, pos, ps)
    ensures Size(t', root, ev) == Size(t, root, ev)
  {
    SplitWeights(t, t', root, ps, c, nn, pos, ev);
    var w: map<RadixTreeNode, nat> := Weights(t, root, ev);
    TotalUpdate(w, nn, Weight(nn, t'[nn], root, ev));
    TotalUpdate(w[nn := Weight(nn, t'[nn], root, ev)], c, Weight(c, t'[c], root, ev));
    SplitWeight(t, t', root, c, nn, pos, ps, ev);
  }

  /** The two halves together weigh what the node did. */
  lemma {:induction false} SplitWeight(t: Tree, t': Tree, root: RadixTreeNode, c: RadixTreeNode, nn: RadixTreeNode,
                                       pos: nat,
                   ps: Pos, ev: bool)
    requires WF(t, root, ps) && IsSplit(t, t', root, c, nn, pos, ps)
    ensures Weight(nn, t'[nn], root, ev) + Weight(c, t'[c], root, ev) == Weight(c, t[c], root, ev)
  {
    hide NodeOk, ChildOk, KeyFn;
  }

  lemma {:induction false} AddLeafSizes(t: Tree, t': Tree, root: RadixTreeNode, ps: Pos, p: RadixTreeNode,
                                        nn: RadixTreeNode,
                     key: seq<int>, value: seq<int>, tic: int, ev: bool)
    requires WF(t, root, ps) && IsAddLeaf(t, t', p, nn, key, value, tic, ps)
    ensures Size(t', root, ev) == Size(t, root, ev) + (if ev then |key| else 0)
  {
    var w: map<RadixTreeNode, nat> := Weights(t, root, ev);
    var w': map<RadixTreeNode, nat> := Weights(t', root, ev);
    assert w' == w[nn := Weight(nn, t'[nn], root, ev)];
    TotalUpdate(w, nn, Weight(nn, t'[nn], root, ev));
  }

  lemma {:induction false} RemoveLeafSizes(t: Tree, t': Tree, root: RadixTreeNode, ps: Pos, n: RadixTreeNode, ev: bool)
    requires WF(t, root, ps) && IsRemoveLeaf(t, t', root, n, ps)
    ensures Size(t', root, ev) == Size(t, root, ev) - (if ev then |t[n].key| else 0)
  {
    var w: map<RadixTreeNode, nat> := Weights(t, root, ev);
    var w': map<RadixTreeNode, nat> := Weights(t', root, ev);
    assert w' == w - {n};
    TotalPick(w, n);
  }

  /** Moving one node's count between zero and non-zero moves its length between the two sizes. */
  lemma {:induction false} SetRefSizes(t: Tree, t': Tree, root: RadixTreeNode, n: RadixTreeNode, ev: bool)
    requires n in t && n in t' && t' == t[n := t[n].(ref := t'[n].ref)]
    ensures Size(t', root, ev) == Size(t, root, ev) + Weight(n, t'[n], root, ev) - Weight(n, t[n], root, ev)
  {
    var w: map<RadixTreeNode, nat> := Weights(t, root, ev);
    var w': map<RadixTreeNode, nat> := Weights(t', root, ev);
    assert w' == w[n := Weight(n, t'[n], root, ev)];
    TotalUpdate(w, n, Weight(n, t'[n], root, ev));
  }

  lemma {:induction false} SameRefSizes(t: Tree, t': Tree, root: RadixTreeNode, ev: bool)
    requires t'.Keys == t.Keys
    requires forall n | n in t :: t'[n].key == t[n].key && t'[n].ref == t[n].ref
    ensures Size(t', root, ev) == Size(t, root, ev)
  {
    assert Weights(t', root, ev) == Weights(t, root, ev);
  }

  // ---- reference counts

  /** The outstanding locks whose path passes through the end of `path`. */
  ghost function Below(held: map<int, RadixTreeNode>, path: seq<int>): set<int> {
    set u | u in held && path <= held[u].path
  }

  /** Each node's count is the number of outstanding locks in its subtree. */
  ghost predicate RefExact(t: Tree, root: RadixTreeNode, held: map<int, RadixTreeNode>)
  {
    && held.Values <= t.Keys
    && forall n {:trigger Below(held, n.path)} | n in t && n != root :: t[n].ref == |Below(held, n.path)|
  }

  lemma {:induction false} HeldNodes(t: Tree, root: RadixTreeNode, held: map<int, RadixTreeNode>)
    requires RefExact(t, root, held)
    ensures held.Values <= t.Keys
  {
  }

  lemma {:induction false} FirstPage(a: seq<int>, key: seq<int>, path: seq<int>, ps: Pos)
    requires |key| >= ps && a + key <= path
    ensures KeyFn(path[|a|..], ps) == KeyFn(key, ps)
  {
    assert path[|a|..][..|key|] == (a + key)[|a|..] == key;
  }

  lemma {:induction false} SplitRefs(t: Tree, t': Tree, root: RadixTreeNode, ps: Pos, held: map<int, RadixTreeNode>,
                                     c: RadixTreeNode,
                  nn: RadixTreeNode, pos: nat)
    requires WF(t, root, ps) && IsSplit(t, t', root, c, nn, pos, ps) && RefExact(t, root, held)
    ensures RefExact(t', root, held)
  {
    assert NodeOk(t, c, ps);
    var p := t[c].parent;
    AlignedAtLeastPage(pos, ps);
    forall u | u in held
      ensures nn.path <= held[u].path <==> c.path <= held[u].path
    {
      var m := held[u];
      assert m in held.Values;
      if nn.path <= m.path {
        assert p.path <= nn.path;
        Down(t, root, ps, p, m);
        assert nn.path == p.path + t[c].key[..pos];
        FirstPage(p.path, t[c].key[..pos], m.path, ps);
        SplitKeys(t, t', root, ps, c, nn, pos);
      }
    }
    assert Below(held, nn.path) == Below(held, c.path);
    forall u | u in held
      ensures held[u] in t.Keys
    {
      assert held[u] in held.Values;
    }
  }

  lemma {:induction false} AddLeafRefs(t: Tree, t': Tree, root: RadixTreeNode, ps: Pos, held: map<int, RadixTreeNode>,
                                       p: RadixTreeNode,
                    nn: RadixTreeNode, key: seq<int>, value: seq<int>, tic: int)
    requires WF(t, root, ps) && IsAddLeaf(t, t', p, nn, key, value, tic, ps) && RefExact(t, root, held)
    ensures RefExact(t', root, held)
  {
    AlignedAtLeastPage(|key|, ps);
    forall u | u in held
      ensures !(nn.path <= held[u].path)
    {
      var m := held[u];
      assert m in held.Values;
      if nn.path <= m.path {
        assert p.path <= nn.path;
        Down(t, root, ps, p, m);
        FirstPage(p.path, key, m.path, ps);
        assert false;
      }
    }
    assert Below(held, nn.path) == {};
  }

  /** A node nobody holds in its subtree: neither do its descendants. */
  lemma {:induction false} RefMonotone(t: Tree, root: RadixTreeNode, held: map<int, RadixTreeNode>, n: RadixTreeNode,
                                       m: RadixTreeNode)
    requires RefExact(t, root, held) && n in t && m in t && n != root && m != root && n.path <= m.path
    ensures t[m].ref <= t[n].ref
  {
    assert Below(held, m.path) <= Below(held, n.path);
    SubsetSize(Below(held, m.path), Below(held, n.path));
  }

  // ---- times

  /** Below the root, no node is older than a node under it. */
  ghost predicate Ordered(t: Tree, root: RadixTreeNode)
  {
    forall n | n in t && n != root && t[n].parent != null && t[n].parent in t && t[n].parent != root ::
      t[n].ts <= t[t[n].parent].ts
  }

  /** All times are ordered and none is later than `now`. */
  ghost predicate ClockOk(t: Tree, root: RadixTreeNode, now: int)
  {
    Ordered(t, root) && forall n | n in t && n != root :: t[n].ts <= now
  }

  /** Time may pass, nodes may go and counts may change without disturbing the order of times. */
  lemma {:induction false} ClockSub(t: Tree, t': Tree, root: RadixTreeNode, now: int, now': int)
    requires ClockOk(t, root, now) && now <= now' && t'.Keys <= t.Keys
    requires forall n {:trigger t'[n]} | n in t' :: t'[n].ts == t[n].ts && t'[n].parent == t[n].parent
    ensures ClockOk(t', root, now')
  {
    forall n | n in t' && n != root && t'[n].parent != null && t'[n].parent in t' && t'[n].parent != root
      ensures t'[n].ts <= t'[t'[n].parent].ts
    {
      assert t[n].ts <= t[t[n].parent].ts;
    }
  }

  lemma {:induction false} AncestorNewer(t: Tree, root: RadixTreeNode, ps: Pos, n: RadixTreeNode, m: RadixTreeNode)
    requires WF(t, root, ps) && Ordered(t, root) && n in t && m in t && n != root && n.path <= m.path
    ensures m != root && t[m].ts <= t[n].ts
    decreases |m.path|
  {
    assert NodeOk(t, n, ps);
    if n != m {
      Up(t, root, ps, n, m);
      assert NodeOk(t, m, ps);
      AncestorNewer(t, root, ps, n, t[m].parent);
    }
  }

  lemma {:induction false} ChildBelow(t: Tree, root: RadixTreeNode, ps: Pos, n: RadixTreeNode, k: seq<int>)
    requires WF(t, root, ps) && n in t && k in t[n].children
    ensures t[n].children[k] in t && n.path <= t[n].children[k].path && |n.path| < |t[n].children[k].path|
  {
    assert ChildOk(t, root, n, k, ps);
    assert NodeOk(t, t[n].children[k], ps);
  }

  /** Every evictable node has an evictable leaf below it that is no newer. */
  lemma {:induction false} LeafBelow(t: Tree, root: RadixTreeNode, ps: Pos, held: map<int, RadixTreeNode>,
                                     n: RadixTreeNode)
    returns (l: RadixTreeNode)
    requires WF(t, root, ps) && RefExact(t, root, held) && n in t && n != root && t[n].ref == 0
    ensures l in t && l != root && t[l].ref == 0 && t[l].children == map[] && n.path <= l.path
    ensures Ordered(t, root) ==> t[l].ts <= t[n].ts
  {
    var s := set m | m in t && n.path <= m.path;
    assert n in s;
    l := Longest(s);
    assert NodeOk(t, n, ps);
    if t[l].children != map[] {
      var k :| k in t[l].children;
      ChildBelow(t, root, ps, l, k);
      assert false;
    }
    RefMonotone(t, root, held, n, l);
    assert NodeOk(t, l, ps);
    if Ordered(t, root) {
      AncestorNewer(t, root, ps, n, l);
    }
  }

  lemma {:induction false} Longest(s: set<RadixTreeNode>) returns (l: RadixTreeNode)
    requires s != {}
    ensures l in s && forall m | m in s :: |m.path| <= |l.path|
    decreases |s|
  {
    l :| l in s;
    if s - {l} != {} {
      var k := Longest(s - {l});
      if |k.path| > |l.path| {
        l := k;
      }
    }
  }

  // ---- the whole invariant of a cache, and its preservation

  ghost predicate Inv(t: Tree, root: RadixTreeNode, ps: Pos, held: map<int, RadixTreeNode>, ev: int, pr: int)
  {
    WF(t, root, ps) && RefExact(t, root, held) && ev == Size(t, root, true) && pr == Size(t, root, false)
  }

  lemma {:induction false} InvWF(t: Tree, root: RadixTreeNode, ps: Pos, held: map<int, RadixTreeNode>, ev: int, pr: int)
    requires Inv(t, root, ps, held, ev, pr)
    ensures WF(t, root, ps)
  {
  }

  lemma {:induction false} NodeOf(t: Tree, root: RadixTreeNode, ps: Pos, n: RadixTreeNode)
    requires WF(t, root, ps) && n in t && n != root
    ensures NodeOk(t, n, ps)
  {
  }

  lemma {:induction false} SplitKeeps(t: Tree, t': Tree, root: RadixTreeNode, ps: Pos, held: map<int, RadixTreeNode>,
                                      ev: int, pr: int,
                   c: RadixTreeNode, nn: RadixTreeNode, pos: nat)
    requires Inv(t, root, ps, held, ev, pr) && IsSplit(t, t', root, c, nn, pos, ps)
    ensures Inv(t', root, ps, held, ev, pr)
  {
    SplitWF(t, t', root, ps, c, nn, pos);
    SplitRefs(t, t', root, ps, held, c, nn, pos);
    SplitSizes(t, t', root, ps, c, nn, pos, true);
    SplitSizes(t, t', root, ps, c, nn, pos, false);
  }

  lemma {:induction false} AddLeafKeeps(t: Tree, t': Tree, root: RadixTreeNode, ps: Pos, held: map<int,
                                        RadixTreeNode>, ev: int, pr: int,
                     p: RadixTreeNode, nn: RadixTreeNode, key: seq<int>, value: seq<int>, tic: int)
    requires Inv(t, root, ps, held, ev, pr) && IsAddLeaf(t, t', p, nn, key, value, tic, ps)
    ensures Inv(t', root, ps, held, ev + |key|, pr)
  {
    AddLeafWF(t, t', root, ps, p, nn, key, value, tic);
    AddLeafRefs(t, t', root, ps, held, p, nn, key, value, tic);
    AddLeafSizes(t, t', root, ps, p, nn, key, value, tic, true);
    AddLeafSizes(t, t', root, ps, p, nn, key, value, tic, false);
  }

  lemma {:induction false} RemoveLeafKeeps(t: Tree, t': Tree, root: RadixTreeNode, ps: Pos, held: map<int,
                                           RadixTreeNode>, ev: int,
                        pr: int, n: RadixTreeNode)
    requires Inv(t, root, ps, held, ev, pr) && IsRemoveLeaf(t, t', root, n, ps)
    ensures Inv(t', root, ps, held, ev - |t[n].key|, pr)
  {
    RemoveLeafWF(t, t', root, ps, n);
    RemoveLeafSizes(t, t', root, ps, n, true);
    RemoveLeafSizes(t, t', root, ps, n, false);
    forall u | u in held
      ensures held[u] in t'
    {
      assert held[u] in held.Values;
      if held[u] == n {
        HeldCount(t, root, held, u, n);
      }
    }
  }

  /** Renewing the time of one node. */
  lemma {:induction false} TouchKeeps(t: Tree, t': Tree, root: RadixTreeNode, ps: Pos, held: map<int, RadixTreeNode>,
                                      ev: int, pr: int,
                   n: RadixTreeNode, tic: int)
    requires Inv(t, root, ps, held, ev, pr) && n in t && t' == t[n := t[n].(ts := tic)]
    ensures Inv(t', root, ps, held, ev, pr)
  {
    forall m | m in t
      ensures t'[m] == t[m].(ref := t'[m].ref, ts := t'[m].ts) && t'[m].ref >= 0
    {
      assert m != root ==> NodeOk(t, m, ps);
    }
    SameShapeWF(t, t', root, ps);
    SameRefSizes(t, t', root, true);
    SameRefSizes(t, t', root, false);
  }

  lemma {:induction false} SplitClock(t: Tree, t': Tree, root: RadixTreeNode, ps: Pos, c: RadixTreeNode,
                                      nn: RadixTreeNode, pos: nat,
                   now: int)
    requires WF(t, root, ps) && IsSplit(t, t', root, c, nn, pos, ps)
    ensures ClockOk(t, root, now) ==> ClockOk(t', root, now)
  {
    assert NodeOk(t, c, ps);
    if ClockOk(t, root, now) {
      forall n | n in t' && n != root && t'[n].parent != null && t'[n].parent in t' && t'[n].parent != root
        ensures t'[n].ts <= t'[t'[n].parent].ts
      {
        if n != nn && n != c {
          assert NodeOk(t, n, ps);
          assert t'[n].parent == t[n].parent;
          assert t[n].ts <= t[t[n].parent].ts;
        }
      }
    }
  }

  lemma {:induction false} AddLeafClock(t: Tree, t': Tree, root: RadixTreeNode, ps: Pos, p: RadixTreeNode,
                                        nn: RadixTreeNode,
                     key: seq<int>, value: seq<int>, tic: int)
    requires WF(t, root, ps) && IsAddLeaf(t, t', p, nn, key, value, tic, ps) && ClockOk(t, root, tic)
    requires p == root || t[p].ts == tic
    ensures ClockOk(t', root, tic)
  {
    forall n | n in t' && n != root && t'[n].parent != null && t'[n].parent in t' && t'[n].parent != root
      ensures t'[n].ts <= t'[t'[n].parent].ts
    {
      if n != nn {
        assert NodeOk(t, n, ps);
        assert t'[n].parent == t[n].parent;
        assert t[n].ts <= t[t[n].parent].ts;
      }
    }
  }

  /** `n` is the root, or has just been given the time `tic`. */
  ghost predicate FreshTo(t: Tree, root: RadixTreeNode, n: RadixTreeNode?, tic: int) {
    n == root || (n != null && n in t && t[n].ts == tic)
  }

  lemma {:induction false} TouchClock(t: Tree, t': Tree, root: RadixTreeNode, ps: Pos, n: RadixTreeNode, tic: int)
    requires WF(t, root, ps) && n in t && n != root && t' == t[n := t[n].(ts := tic)]
    ensures ClockOk(t, root, tic) && FreshTo(t, root, t[n].parent, tic) ==> ClockOk(t', root, tic)
  {
    if ClockOk(t, root, tic) && FreshTo(t, root, t[n].parent, tic) {
      forall m | m in t' && m != root && t'[m].parent != null && t'[m].parent in t' && t'[m].parent != root
        ensures t'[m].ts <= t'[t'[m].parent].ts
      {
        if m != n {
          assert t[m].ts <= t[t[m].parent].ts;
        }
      }
    }
  }

  lemma {:induction false} RemoveLeafClock(t: Tree, t': Tree, root: RadixTreeNode, ps: Pos, n: RadixTreeNode)
    requires WF(t, root, ps) && IsRemoveLeaf(t, t', root, n, ps) && Ordered(t, root)
    ensures Ordered(t', root)
  {
    forall m | m in t' && m != root && t'[m].parent != null && t'[m].parent in t' && t'[m].parent != root
      ensures t'[m].ts <= t'[t'[m].parent].ts
    {
      assert t[m].ts <= t[t[m].parent].ts;
    }
  }

  // ---- counting along a path

  /** The nodes met on the walk from `cur` up to the root, the root excepted. */
  ghost function Chain(t: Tree, cur: RadixTreeNode): set<RadixTreeNode>
    decreases |cur.path|
  {
    if cur !in t || t[cur].parent == null || |t[cur].parent.path| >= |cur.path| then {}
    else {cur} + Chain(t, t[cur].parent)
  }

  /** `t` with the counts of the nodes in `some` changed by `d`. */
  ghost function Marked(t: Tree, some: set<RadixTreeNode>, d: int): Tree {
    map n | n in t :: if n in some then t[n].(ref := t[n].ref + d) else t[n]
  }

  /** One turn of the walk: a node with a parent is passed and the walk goes on above it. */
  lemma {:induction false} WalkStep(t: Tree, root: RadixTreeNode, ps: Pos, cur: RadixTreeNode)
    requires WF(t, root, ps) && cur in t
    ensures t[cur].parent == null <==> cur == root
    ensures cur == root ==> Chain(t, cur) == {} && Along(t, cur, 0) == 0 && Along(t, cur, 1) == 0
    ensures cur != root ==>
              && t[cur].parent in t && |t[cur].parent.path| < |cur.path| && t[cur].ref >= 0
              && Chain(t, cur) == {cur} + Chain(t, t[cur].parent)
              && Along(t, cur, 0) == (if t[cur].ref == 0 then |t[cur].key| else 0) + Along(t, t[cur].parent, 0)
              && Along(t, cur, 1) == (if t[cur].ref == 1 then |t[cur].key| else 0) + Along(t, t[cur].parent, 1)
  {
    assert cur != root ==> NodeOk(t, cur, ps);
  }

  /** The walk from `top` passes exactly the nodes whose path leads to it. */
  lemma {:induction false} ChainIsPath(t: Tree, root: RadixTreeNode, ps: Pos, top: RadixTreeNode, n: RadixTreeNode)
    requires WF(t, root, ps) && top in t && n in t && n != root
    ensures n in Chain(t, top) <==> n.path <= top.path
    decreases |top.path|
  {
    WalkStep(t, root, ps, top);
    assert NodeOk(t, n, ps);
    if top != root {
      assert NodeOk(t, top, ps);
      ChainIsPath(t, root, ps, t[top].parent, n);
      if n.path <= top.path && n != top {
        Up(t, root, ps, n, top);
      }
    }
  }

  /** Passing one more node moves its length between the two sizes when its count leaves or reaches zero. */
  lemma {:induction false} PassSizes(t: Tree, root: RadixTreeNode, passed: set<RadixTreeNode>, n: RadixTreeNode, d: int)
    requires n in t && n != root && n !in passed
    ensures Size(Marked(t, passed + {n}, d), root, true)
         == Size(Marked(t, passed, d), root, true)
            + (if t[n].ref + d == 0 then |t[n].key| else 0) - (if t[n].ref == 0 then |t[n].key| else 0)
    ensures Size(Marked(t, passed + {n}, d), root, false)
         == Size(Marked(t, passed, d), root, false)
            + (if t[n].ref + d == 0 then 0 else |t[n].key|) - (if t[n].ref == 0 then 0 else |t[n].key|)
  {
    var m, m' := Marked(t, passed, d), Marked(t, passed + {n}, d);
    assert m' == m[n := m[n].(ref := m'[n].ref)];
    SetRefSizes(m, m', root, n, true);
    SetRefSizes(m, m', root, n, false);
  }

  /** Total length of the nodes with count `r` met on the walk from `cur` to the root. */
  ghost function Along(t: Tree, cur: RadixTreeNode, r: int): nat
    decreases |cur.path|
  {
    if cur !in t || t[cur].parent == null || |t[cur].parent.path| >= |cur.path| then 0
    else (if t[cur].ref == r then |t[cur].key| else 0) + Along(t, t[cur].parent, r)
  }

  /** Locking a path moves the nodes with count zero on it to the protected size; unlocking moves those with count
  one back. */
  lemma {:induction false} ChainSizes(t: Tree, root: RadixTreeNode, ps: Pos, top: RadixTreeNode, d: int)
    requires WF(t, root, ps) && top in t && (d == 1 || d == -1)
    requires d == -1 ==> forall n | n in Chain(t, top) :: n in t && t[n].ref >= 1
    ensures d == 1 ==>
              && Size(Marked(t, Chain(t, top), d), root, true) == Size(t, root, true) - Along(t, top, 0)
              && Size(Marked(t, Chain(t, top), d), root, false) == Size(t, root, false) + Along(t, top, 0)
    ensures d == -1 ==>
              && Size(Marked(t, Chain(t, top), d), root, true) == Size(t, root, true) + Along(t, top, 1)
              && Size(Marked(t, Chain(t, top), d), root, false) == Size(t, root, false) - Along(t, top, 1)
    decreases |top.path|
  {
    WalkStep(t, root, ps, top);
    if top == root {
      assert Marked(t, {}, d) == t;
    } else {
      var q := t[top].parent;
      ChainShorter(t, q, top);
      ChainSizes(t, root, ps, q, d);
      assert {top} + Chain(t, q) == Chain(t, q) + {top};
      assert d == -1 ==> top in Chain(t, top);
      PassSizes(t, root, Chain(t, q), top, d);
    }
  }

  lemma {:induction false} ChainShorter(t: Tree, cur: RadixTreeNode, top: RadixTreeNode)
    requires |cur.path| < |top.path|
    ensures top !in Chain(t, cur)
    decreases |cur.path|
  {
    if cur in t && t[cur].parent != null && |t[cur].parent.path| < |cur.path| {
      ChainShorter(t, t[cur].parent, top);
    }
  }

  /** The heap after the walk, when every node keeps all but its count. */
  lemma {:induction false} WalkedHeap(t: Tree, nodes: set<RadixTreeNode>, some: set<RadixTreeNode>, d: int)
    requires t.Keys == nodes
    requires forall n {:trigger n.refCount} | n in nodes :: n.refCount == t[n].ref + (if n in some then d else 0)
    requires forall n {:trigger n.View()} | n in nodes :: n.View() == t[n].(ref := n.refCount)
    ensures Snap(nodes) == Marked(t, some, d)
  {
  }

  lemma {:induction false} LockedInv(t: Tree, root: RadixTreeNode, ps: Pos, held: map<int, RadixTreeNode>,
                                     top: RadixTreeNode, u: int,
                  t': Tree, ev: int, pr: int)
    requires WF(t, root, ps) && RefExact(t, root, held) && top in t && u !in held
    requires t' == Marked(t, Chain(t, top), 1)
    requires ev + Along(t, top, 0) == Size(t, root, true) && pr - Along(t, top, 0) == Size(t, root, false)
    ensures Inv(t', root, ps, held[u := top], ev, pr)
  {
    ChainSizes(t, root, ps, top, 1);
    LockKeeps(t, root, ps, held, top, u);
  }

  lemma {:induction false} UnlockedInv(t: Tree, root: RadixTreeNode, ps: Pos, held: map<int, RadixTreeNode>, u: int,
                    t': Tree, ev: int, pr: int)
    requires WF(t, root, ps) && RefExact(t, root, held) && u in held && held[u] in t
    requires t' == Marked(t, Chain(t, held[u]), -1)
    requires ev - Along(t, held[u], 1) == Size(t, root, true) && pr + Along(t, held[u], 1) == Size(t, root, false)
    ensures Inv(t', root, ps, held - {u}, ev, pr)
  {
    RootNotPassed(t, root, ps, held[u]);
    ChainInTree(t, held[u]);
    forall n | n in Chain(t, held[u])
      ensures t[n].ref >= 1
    {
      HeldOnChain(t, root, ps, held, u, n);
    }
    ChainSizes(t, root, ps, held[u], -1);
    UnlockKeeps(t, root, ps, held, u);
  }

  lemma {:induction false} MarkedAll(t: Tree, root: RadixTreeNode, ps: Pos, top: RadixTreeNode, d: int,
                                     n: RadixTreeNode)
    requires WF(t, root, ps) && top in t && n in t && n != root
    ensures Marked(t, Chain(t, top), d)[n].ref == t[n].ref + (if n.path <= top.path then d else 0)
  {
    ChainIsPath(t, root, ps, top, n);
  }

  lemma {:induction false} ChainInTree(t: Tree, cur: RadixTreeNode)
    ensures Chain(t, cur) <= t.Keys
    decreases |cur.path|
  {
    if cur in t && t[cur].parent != null && |t[cur].parent.path| < |cur.path| {
      ChainInTree(t, t[cur].parent);
    }
  }

  lemma {:induction false} RootNotPassed(t: Tree, root: RadixTreeNode, ps: Pos, top: RadixTreeNode)
    requires WF(t, root, ps) && top in t
    ensures root !in Chain(t, top)
    decreases |top.path|
  {
    WalkStep(t, root, ps, top);
    if top != root {
      RootNotPassed(t, root, ps, t[top].parent);
    }
  }

  lemma {:induction false} LockKeeps(t: Tree, root: RadixTreeNode, ps: Pos, held: map<int, RadixTreeNode>,
                                     top: RadixTreeNode, u: int)
    requires WF(t, root, ps) && RefExact(t, root, held) && top in t && u !in held
    ensures WF(Marked(t, Chain(t, top), 1), root, ps)
    ensures RefExact(Marked(t, Chain(t, top), 1), root, held[u := top])
  {
    var t' := Marked(t, Chain(t, top), 1);
    var held' := held[u := top];
    RootNotPassed(t, root, ps, top);
    forall n | n in t
      ensures t'[n] == t[n].(ref := t'[n].ref, ts := t'[n].ts) && t'[n].ref >= 0
    {
      assert n != root ==> NodeOk(t, n, ps);
    }
    SameShapeWF(t, t', root, ps);
    forall n | n in t' && n != root
      ensures t'[n].ref == |Below(held', n.path)|
    {
      MarkedAll(t, root, ps, top, 1, n);
      LockCount(held, u, top, n.path);
      assert t[n].ref == |Below(held, n.path)|;
    }
  }

  lemma {:induction false} UnlockKeeps(t: Tree, root: RadixTreeNode, ps: Pos, held: map<int, RadixTreeNode>, u: int)
    requires WF(t, root, ps) && RefExact(t, root, held) && u in held && held[u] in t
    ensures WF(Marked(t, Chain(t, held[u]), -1), root, ps)
    ensures RefExact(Marked(t, Chain(t, held[u]), -1), root, held - {u})
  {
    var top := held[u];
    var t' := Marked(t, Chain(t, top), -1);
    var held' := held - {u};
    RootNotPassed(t, root, ps, top);
    forall n | n in t && n != root
      ensures t'[n].ref == |Below(held', n.path)|
    {
      LockCount(held', u, top, n.path);
      assert held == held'[u := top];
      assert t[n].ref == |Below(held, n.path)|;
      MarkedAll(t, root, ps, top, -1, n);
    }
    forall n | n in t
      ensures t'[n] == t[n].(ref := t'[n].ref, ts := t'[n].ts) && t'[n].ref >= 0
    {
      assert n != root ==> t'[n].ref == |Below(held', n.path)|;
    }
    SameShapeWF(t, t', root, ps);
  }

  /** Every node on the path of an outstanding lock has a positive count. */
  lemma {:induction false} HeldCount(t: Tree, root: RadixTreeNode, held: map<int, RadixTreeNode>, u: int,
                                     n: RadixTreeNode)
    requires RefExact(t, root, held) && u in held && n in t && n != root && n.path <= held[u].path
    ensures t[n].ref >= 1
  {
    assert u in Below(held, n.path);
    assert t[n].ref == |Below(held, n.path)|;
    if |Below(held, n.path)| == 0 {
      assert false;
    }
  }

  lemma {:induction false} HeldOnChain(t: Tree, root: RadixTreeNode, ps: Pos, held: map<int, RadixTreeNode>, u: int,
                                       n: RadixTreeNode)
    requires WF(t, root, ps) && RefExact(t, root, held) && u in held && held[u] in t
    requires n in t && n != root && n in Chain(t, held[u])
    ensures t[n].ref >= 1
  {
    ChainIsPath(t, root, ps, held[u], n);
    HeldCount(t, root, held, u, n);
  }

  lemma {:induction false} LockCount(held: map<int, RadixTreeNode>, u: int, top: RadixTreeNode, path: seq<int>)
    requires u !in held
    ensures |Below(held[u := top], path)| == |Below(held, path)| + (if path <= top.path then 1 else 0)
  {
    var b, b' := Below(held, path), Below(held[u := top], path);
    if path <= top.path {
      forall v
        ensures v in b' <==> v in b + {u}
      {
        if v != u {
          assert v in held[u := top] <==> v in held;
        }
      }
      assert b' == b + {u};
      assert u !in b;
    } else {
      assert b' == b;
    }
  }
}
