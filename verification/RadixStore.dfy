/** The prefix map a radix tree stands for, and how the elementary changes of the tree act on it. Because a node's
path and slots never change, the map depends only on which nodes are in the tree. */
module RadixStore {
  import opened Paging
  import opened Sums
  import opened PrefixStore
  import opened RadixTree
  import opened RadixOps

  ghost function StoredPrefixes(nodes: set<RadixTreeNode>, ps: Pos): (r: set<seq<int>>)
    ensures forall p {:trigger p in r} ::
              p in r <==> 0 < |p| && Aligned(|p|, ps) && exists n | n in nodes :: p <= n.path
  {
    var r := set n, k | n in nodes && 0 < k <= |n.path| && Aligned(k, ps) :: n.path[..k];
    forall p, n | n in nodes && p <= n.path && 0 < |p| && Aligned(|p|, ps)
      ensures p in r
    {
      assert p == n.path[..|p|];
    }
    r
  }

  /** The slots of `p` as recorded by some node at or below its end. */
  ghost function SlotsAt(nodes: set<RadixTreeNode>, p: seq<int>): seq<int>
    requires exists n | n in nodes :: p <= n.path
  {
    var n :| n in nodes && p <= n.path;
    if |p| <= |n.slots| then n.slots[..|p|] else []
  }

  /** The prefix map of a tree. */
  ghost function StoreOf(nodes: set<RadixTreeNode>, ps: Pos): Store {
    map p | p in StoredPrefixes(nodes, ps) :: SlotsAt(nodes, p)
  }

  // ---- the map is well defined

  lemma {:induction false} SlotsFollowPath(t: Tree, root: RadixTreeNode, ps: Pos, n: RadixTreeNode, m: RadixTreeNode)
    requires WF(t, root, ps) && n in t && m in t && n.path <= m.path
    ensures |m.slots| == |m.path| && |n.slots| == |n.path| && n.slots <= m.slots
    decreases |m.path|
  {
    assert m != root ==> NodeOk(t, m, ps);
    if n != m {
      Up(t, root, ps, n, m);
      SlotsFollowPath(t, root, ps, n, t[m].parent);
    }
  }

  /** The node whose key covers the end of the stored prefix `p`. */
  ghost predicate Owns(t: Tree, root: RadixTreeNode, n: RadixTreeNode, p: seq<int>)
  {
    n in t && n != root && t[n].parent != null && p <= n.path && |t[n].parent.path| < |p|
  }

  lemma {:induction false} OwnerExists(t: Tree, root: RadixTreeNode, ps: Pos, m: RadixTreeNode, p: seq<int>)
    returns (n: RadixTreeNode)
    requires WF(t, root, ps) && m in t && p <= m.path && 0 < |p|
    ensures Owns(t, root, n, p) && n.path <= m.path
    decreases |m.path|
  {
    assert NodeOk(t, m, ps);
    var q := t[m].parent;
    if |q.path| < |p| {
      n := m;
    } else {
      PrefixesComparable(p, q.path, m.path);
      n := OwnerExists(t, root, ps, q, p);
    }
  }

  /** Every node at or below the end of an aligned prefix lies at or below the prefix's owner. */
  lemma {:induction false} OwnerCovers(t: Tree, root: RadixTreeNode, ps: Pos, n: RadixTreeNode, m: RadixTreeNode,
                                       p: seq<int>)
    requires WF(t, root, ps) && Owns(t, root, n, p) && m in t && p <= m.path && Aligned(|p|, ps)
    ensures n.path <= m.path
  {
    assert NodeOk(t, n, ps);
    var q := t[n].parent;
    assert q != root ==> NodeOk(t, q, ps);
    PrefixesComparable(q.path, p, n.path);
    AlignedFacts(|q.path|, |p|, ps);
    AlignedAtLeastPage(|t[n].key|, ps);
    assert q.path <= m.path;
    Down(t, root, ps, q, m);
    var first := p[|q.path|..];
    FirstPage(q.path, first, n.path, ps);
    FirstPage(q.path, first, m.path, ps);
    assert n.path[|q.path|..] == t[n].key;
  }

  lemma {:induction false} OwnerUnique(t: Tree, root: RadixTreeNode, ps: Pos, n: RadixTreeNode, m: RadixTreeNode,
                                       p: seq<int>)
    requires WF(t, root, ps) && Owns(t, root, n, p) && Owns(t, root, m, p) && Aligned(|p|, ps)
    ensures n == m
  {
    OwnerCovers(t, root, ps, n, m, p);
    OwnerCovers(t, root, ps, m, n, p);
    SamePath(t, root, ps, n, m);
  }

  lemma {:induction false} SlotsAgree(t: Tree, root: RadixTreeNode, ps: Pos, n: RadixTreeNode, m: RadixTreeNode,
                                      p: seq<int>)
    requires WF(t, root, ps) && n in t && m in t && p <= n.path && p <= m.path && 0 < |p| && Aligned(|p|, ps)
    ensures |n.slots| == |n.path| && |m.slots| == |m.path| && n.slots[..|p|] == m.slots[..|p|]
  {
    var o := OwnerExists(t, root, ps, n, p);
    OwnerCovers(t, root, ps, o, m, p);
    SlotsFollowPath(t, root, ps, o, n);
    SlotsFollowPath(t, root, ps, o, m);
    assert o.slots[..|p|] == n.slots[..|p|] && o.slots[..|p|] == m.slots[..|p|];
  }

  /** Any node at or below the end of a prefix gives its slots. */
  lemma {:induction false} StoreAt(t: Tree, root: RadixTreeNode, ps: Pos, n: RadixTreeNode, p: seq<int>)
    requires WF(t, root, ps) && n in t && p <= n.path && 0 < |p| && Aligned(|p|, ps)
    ensures |n.slots| == |n.path| && p in StoreOf(t.Keys, ps) && StoreOf(t.Keys, ps)[p] == n.slots[..|p|]
  {
    var m :| m in t.Keys && p <= m.path && SlotsAt(t.Keys, p) == if |p| <= |m.slots| then m.slots[..|p|] else [];
    SlotsAgree(t, root, ps, n, m, p);
  }

  lemma {:induction false} NodeSized(t: Tree, root: RadixTreeNode, ps: Pos, n: RadixTreeNode)
    requires WF(t, root, ps) && n in t
    ensures |n.slots| == |n.path| && Aligned(|n.path|, ps)
    ensures n.path == [] <==> n == root
  {
    assert n != root ==> NodeOk(t, n, ps);
  }

  lemma {:induction false} TreeStoreOk(t: Tree, root: RadixTreeNode, ps: Pos)
    requires WF(t, root, ps)
    ensures StoreOk(StoreOf(t.Keys, ps), ps)
  {
    hide WF, StoreOf, StoredPrefixes;
    var s := StoreOf(t.Keys, ps);
    forall p | p in s
      ensures 0 < |p| == |s[p]| && Aligned(|p|, ps)
    {
      var n := StoredBy(t.Keys, ps, p);
      StoreAt(t, root, ps, n, p);
    }
    forall p, k | p in s && 0 < k < |p| && Aligned(k, ps)
      ensures |s[p]| == |p| && PrefixKept(s, p, k)
    {
      var n := StoredBy(t.Keys, ps, p);
      StoreAt(t, root, ps, n, p);
      StoreAt(t, root, ps, n, p[..k]);
      assert n.slots[..|p|][..k] == n.slots[..k];
    }
  }

  // ---- how the elementary changes act on the map

  lemma {:induction false} StoreEq(t': Tree, root: RadixTreeNode, ps: Pos, s: Store)
    requires WF(t', root, ps)
    requires s.Keys == StoredPrefixes(t'.Keys, ps)
    requires forall p | p in s :: exists n :: n in t' && p <= n.path && |p| <= |n.slots| && s[p] == n.slots[..|p|]
    ensures StoreOf(t'.Keys, ps) == s
  {
    forall p | p in s
      ensures StoreOf(t'.Keys, ps)[p] == s[p]
    {
      var n :| n in t' && p <= n.path && |p| <= |n.slots| && s[p] == n.slots[..|p|];
      StoreAt(t', root, ps, n, p);
    }
  }

  lemma {:induction false} SplitPrefixes(t: Tree, t': Tree, root: RadixTreeNode, ps: Pos, c: RadixTreeNode,
                                         nn: RadixTreeNode, pos: nat)
    requires IsSplit(t, t', root, c, nn, pos, ps)
    ensures StoredPrefixes(t'.Keys, ps) == StoredPrefixes(t.Keys, ps)
  {
    hide StoredPrefixes, Aligned, KeyFn;
    forall p
      ensures p in StoredPrefixes(t'.Keys, ps) <==> p in StoredPrefixes(t.Keys, ps)
    {
      if p in StoredPrefixes(t'.Keys, ps) {
        var n :| n in t'.Keys && p <= n.path;
        if n == nn {
          PrefixTrans(p, nn.path, c.path);
        }
        assert (if n == nn then c else n) in t.Keys;
      }
      if p in StoredPrefixes(t.Keys, ps) {
        var n :| n in t.Keys && p <= n.path;
        assert n in t'.Keys;
      }
    }
  }

  /** Splitting a node leaves the prefix map as it is. */
  lemma {:induction false} SplitStore(t: Tree, t': Tree, root: RadixTreeNode, ps: Pos, c: RadixTreeNode,
                                      nn: RadixTreeNode, pos: nat)
    requires WF(t, root, ps) && WF(t', root, ps) && IsSplit(t, t', root, c, nn, pos, ps)
    ensures StoreOf(t'.Keys, ps) == StoreOf(t.Keys, ps)
  {
    SplitPrefixes(t, t', root, ps, c, nn, pos);
    assert t.Keys <= t'.Keys;
    hide WF, IsSplit, StoredPrefixes, SlotsAt, Aligned;
    var s := StoreOf(t.Keys, ps);
    forall p | p in s
      ensures exists n :: n in t' && p <= n.path && |p| <= |n.slots| && s[p] == n.slots[..|p|]
    {
      var n :| n in t.Keys && p <= n.path;
      StoreAt(t, root, ps, n, p);
      assert n in t'.Keys;
    }
    StoreEq(t', root, ps, s);
  }

  /** What the heap holds after a split. */
  ghost predicate SplitViews(t: Tree, nodes: set<RadixTreeNode>, c: RadixTreeNode, nn: RadixTreeNode, pos: nat, ps: Pos)
    requires c in t && t[c].parent != null && t[c].parent in t && pos <= |t[c].key| && pos <= |t[c].value|
    reads nodes
  {
    && nodes == t.Keys + {nn}
    && nn.View() == Rec(t[c].parent, map[KeyFn(t[c].key[pos..], ps) := c], t[c].key[..pos], t[c].value[..pos],
                        t[c].ref, t[c].ts)
    && c.View() == t[c].(parent := nn, key := t[c].key[pos..], value := t[c].value[pos..])
    && t[c].parent.View() == t[t[c].parent].(children := t[t[c].parent].children[KeyFn(t[c].key[..pos], ps) := nn])
    && forall n | n in t && n != c && n != t[c].parent :: n.View() == t[n]
  }

  lemma {:induction false} SplitHeap(t: Tree, nodes0: set<RadixTreeNode>, nodes: set<RadixTreeNode>,
                  root: RadixTreeNode, ps: Pos, held: map<int, RadixTreeNode>,
                  ev: int, pr: int, c: RadixTreeNode, nn: RadixTreeNode, pos: nat, now: int)
    requires t.Keys == nodes0 && Inv(t, root, ps, held, ev, pr) && c in t && c != root && NodeOk(t, c, ps)
    requires 0 < pos < |t[c].key| && Aligned(pos, ps)
    requires nn !in t && nn.pageSize == ps && SplitViews(t, nodes, c, nn, pos, ps)
    requires nn.path == c.path[..|c.path| - |t[c].key| + pos] && nn.slots == c.slots[..|c.path| - |t[c].key| + pos]
    ensures IsSplit(t, Snap(nodes), root, c, nn, pos, ps)
    ensures Inv(Snap(nodes), root, ps, held, ev, pr)
    ensures StoreOf(nodes, ps) == StoreOf(nodes0, ps)
    ensures ClockOk(t, root, now) ==> ClockOk(Snap(nodes), root, now)
  {
    assert |t[c].parent.path| < |c.path|;
    var t' := Snap(nodes);
    SplitClock(t, t', root, ps, c, nn, pos, now);
    SplitKeeps(t, t', root, ps, held, ev, pr, c, nn, pos);
    SplitStore(t, t', root, ps, c, nn, pos);
    assert t'.Keys == nodes;
  }

  lemma {:induction false} MergedKeys(nodes: set<RadixTreeNode>, ps: Pos, path: seq<int>, slots: seq<int>, lo: nat)
    ensures (StoreOf(nodes, ps) + Run(path, slots, lo, |path|, ps)).Keys
         == StoredPrefixes(nodes, ps) + RunKeys(path, lo, |path|, ps)
  {
    hide StoredPrefixes, RunKeys, SlotsAt, Upto;
  }

  /** Every entry of a prefix map extended by the run of the node `n` is read off some node of `t`. */
  lemma {:induction false} MergedSlots(t0: Tree, t: Tree, root: RadixTreeNode, ps: Pos, n: RadixTreeNode, lo: nat,
                                       p: seq<int>)
    requires WF(t0, root, ps) && t0.Keys <= t.Keys && n in t && |n.path| == |n.slots|
    requires p in StoreOf(t0.Keys, ps) + Run(n.path, n.slots, lo, |n.path|, ps)
    requires StoreOf(t0.Keys, ps).Keys !! RunKeys(n.path, lo, |n.path|, ps)
    ensures exists m :: m in t && p <= m.path && |p| <= |m.slots|
              && (StoreOf(t0.Keys, ps) + Run(n.path, n.slots, lo, |n.path|, ps))[p] == m.slots[..|p|]
  {
    hide WF, Aligned, SlotsAt;
    if p in StoreOf(t0.Keys, ps) {
      var m :| m in t0.Keys && p <= m.path;
      StoreAt(t0, root, ps, m, p);
      assert m in t;
    } else {
      assert p in RunKeys(n.path, lo, |n.path|, ps) && n in t;
    }
  }

  /** A tree with the node `n` more stands for the prefix map with `n`'s run more. */
  lemma {:induction false} StoreGrows(t0: Tree, t: Tree, root: RadixTreeNode, ps: Pos, n: RadixTreeNode, lo: nat)
    requires WF(t0, root, ps) && WF(t, root, ps) && t0.Keys <= t.Keys && n in t && |n.path| == |n.slots|
    requires StoredPrefixes(t.Keys, ps) == StoredPrefixes(t0.Keys, ps) + RunKeys(n.path, lo, |n.path|, ps)
    requires StoreOf(t0.Keys, ps).Keys !! RunKeys(n.path, lo, |n.path|, ps)
    ensures StoreOf(t.Keys, ps) == StoreOf(t0.Keys, ps) + Run(n.path, n.slots, lo, |n.path|, ps)
  {
    hide *;
    var s := StoreOf(t0.Keys, ps) + Run(n.path, n.slots, lo, |n.path|, ps);
    forall p | p in s
      ensures exists m :: m in t && p <= m.path && |p| <= |m.slots| && s[p] == m.slots[..|p|]
    {
      MergedSlots(t0, t, root, ps, n, lo, p);
    }
    MergedKeys(t0.Keys, ps, n.path, n.slots, lo);
    StoreEq(t, root, ps, s);
  }

  lemma {:induction false} AddLeafPath(t: Tree, t': Tree, root: RadixTreeNode, ps: Pos, q: RadixTreeNode,
                                       nn: RadixTreeNode,
                    key: seq<int>, value: seq<int>, tic: int)
    requires WF(t, root, ps) && WF(t', root, ps) && IsAddLeaf(t, t', q, nn, key, value, tic, ps)
    ensures q in t && nn in t' && t'.Keys == t.Keys + {nn}
    ensures |nn.path| == |nn.slots| && Aligned(|nn.path|, ps) && Aligned(|q.path|, ps)
  {
    assert NodeOk(t', nn, ps);
    NodeSized(t, root, ps, q);
  }

  /** A new leaf adds the run of prefixes its key brings. */
  lemma {:induction false} AddLeafStore(t: Tree, t': Tree, root: RadixTreeNode, ps: Pos, q: RadixTreeNode,
                                        nn: RadixTreeNode,
                     key: seq<int>, value: seq<int>, tic: int)
    requires WF(t, root, ps) && WF(t', root, ps) && IsAddLeaf(t, t', q, nn, key, value, tic, ps)
    ensures |nn.path| == |nn.slots| && Aligned(|nn.path|, ps) && Aligned(|q.path|, ps)
    ensures StoreOf(t.Keys, ps).Keys !! RunKeys(nn.path, |q.path|, |nn.path|, ps)
    ensures StoreOf(t'.Keys, ps) == StoreOf(t.Keys, ps) + Run(nn.path, nn.slots, |q.path|, |nn.path|, ps)
  {
    hide *;
    AddLeafPath(t, t', root, ps, q, nn, key, value, tic);
    forall p | p in RunKeys(nn.path, |q.path|, |nn.path|, ps)
      ensures p !in StoreOf(t.Keys, ps)
    {
      if p in StoreOf(t.Keys, ps) {
        var m := StoredBy(t.Keys, ps, p);
        AddLeafFresh(t, t', root, ps, q, nn, key, value, tic, m, p);
      }
    }
    AddLeafKeys(t, t', root, ps, q, nn, key, value, tic);
    StoreGrows(t, t', root, ps, nn, |q.path|);
  }

  lemma {:induction false} StoredBy(nodes: set<RadixTreeNode>, ps: Pos, p: seq<int>) returns (n: RadixTreeNode)
    requires p in StoreOf(nodes, ps)
    ensures n in nodes && p <= n.path && 0 < |p| && Aligned(|p|, ps)
  {
    assert p in StoredPrefixes(nodes, ps);
    n :| n in nodes && p <= n.path;
  }

  lemma {:induction false} AddLeafFresh(t: Tree, t': Tree, root: RadixTreeNode, ps: Pos, q: RadixTreeNode,
                                        nn: RadixTreeNode,
                     key: seq<int>, value: seq<int>, tic: int, m: RadixTreeNode, p: seq<int>)
    requires WF(t, root, ps) && WF(t', root, ps) && IsAddLeaf(t, t', q, nn, key, value, tic, ps)
    requires m in t && p <= nn.path && |q.path| < |p| && Aligned(|p|, ps)
    ensures !(p <= m.path)
  {
    assert NodeOk(t', nn, ps);
    assert Owns(t', root, nn, p);
    if p <= m.path {
      OwnerCovers(t', root, ps, nn, m, p);
      Down(t', root, ps, nn, m);
      assert false;
    }
  }

  lemma {:induction false} AddLeafKeys(t: Tree, t': Tree, root: RadixTreeNode, ps: Pos, q: RadixTreeNode,
                                       nn: RadixTreeNode,
                    key: seq<int>, value: seq<int>, tic: int)
    requires WF(t, root, ps) && WF(t', root, ps) && IsAddLeaf(t, t', q, nn, key, value, tic, ps)
    ensures StoredPrefixes(t'.Keys, ps) == StoredPrefixes(t.Keys, ps) + RunKeys(nn.path, |q.path|, |nn.path|, ps)
  {
    var run := RunKeys(nn.path, |q.path|, |nn.path|, ps);
    forall p | p in StoredPrefixes(t'.Keys, ps)
      ensures p in StoredPrefixes(t.Keys, ps) + run
    {
      var n :| n in t'.Keys && p <= n.path;
      if n != nn {
        assert n in t.Keys;
      } else if |p| <= |q.path| {
        PrefixesComparable(p, q.path, nn.path);
        assert q in t.Keys;
      }
    }
    forall p | p in StoredPrefixes(t.Keys, ps) + run
      ensures p in StoredPrefixes(t'.Keys, ps)
    {
      if p in run {
        assert nn in t'.Keys;
      } else {
        var n :| n in t.Keys && p <= n.path;
        assert n in t'.Keys;
      }
    }
  }

  /** Dropping a leaf takes away exactly the prefixes it owned. */
  lemma {:induction false} RemoveLeafStore(t: Tree, t': Tree, root: RadixTreeNode, ps: Pos, n: RadixTreeNode)
    requires WF(t, root, ps) && WF(t', root, ps) && IsRemoveLeaf(t, t', root, n, ps)
    ensures |n.path| == |n.slots| && Aligned(|n.path|, ps)
    ensures Aligned(|t[n].parent.path|, ps) && |t[n].parent.path| <= |n.path|
    ensures t[n].value == n.slots[|t[n].parent.path|..]
    ensures var run := RunKeys(n.path, |t[n].parent.path|, |n.path|, ps);
            && StoreOf(t'.Keys, ps).Keys !! run
            && StoreOf(t.Keys, ps) == StoreOf(t'.Keys, ps) + Run(n.path, n.slots, |t[n].parent.path|, |n.path|, ps)
  {
    hide *;
    RemovedPath(t, t', root, ps, n);
    var q := t[n].parent;
    forall p | p in RunKeys(n.path, |q.path|, |n.path|, ps)
      ensures p !in StoreOf(t'.Keys, ps)
    {
      if p in StoreOf(t'.Keys, ps) {
        var m := StoredBy(t'.Keys, ps, p);
        RemovedOwns(t, t', root, ps, n, p);
        RemovedFresh(t, root, ps, n, m, p);
      }
    }
    RemoveLeafKeys(t, t', root, ps, n);
    StoreGrows(t', t, root, ps, n, |q.path|);
  }

  lemma {:induction false} RemovedPath(t: Tree, t': Tree, root: RadixTreeNode, ps: Pos, n: RadixTreeNode)
    requires WF(t, root, ps) && IsRemoveLeaf(t, t', root, n, ps)
    ensures n in t && t'.Keys == t.Keys - {n} && t[n].parent != null && t[n].parent in t && t[n].children == map[]
    ensures |n.path| == |n.slots| && Aligned(|n.path|, ps)
    ensures Aligned(|t[n].parent.path|, ps) && |t[n].parent.path| <= |n.path| == |n.slots|
    ensures t[n].value == n.slots[|t[n].parent.path|..]
  {
    assert NodeOk(t, n, ps);
    NodeSized(t, root, ps, t[n].parent);
  }

  lemma {:induction false} RemovedOwns(t: Tree, t': Tree, root: RadixTreeNode, ps: Pos, n: RadixTreeNode, p: seq<int>)
    requires WF(t, root, ps) && IsRemoveLeaf(t, t', root, n, ps)
    requires p in RunKeys(n.path, |t[n].parent.path|, |n.path|, ps)
    ensures Owns(t, root, n, p)
  {
  }

  lemma {:induction false} RemovedFresh(t: Tree, root: RadixTreeNode, ps: Pos, n: RadixTreeNode, m: RadixTreeNode,
                                        p: seq<int>)
    requires WF(t, root, ps) && Owns(t, root, n, p) && t[n].children == map[]
    requires m in t && m != n && Aligned(|p|, ps)
    ensures !(p <= m.path)
  {
    if p <= m.path {
      OwnerCovers(t, root, ps, n, m, p);
      Down(t, root, ps, n, m);
      assert false;
    }
  }

  lemma {:induction false} RemoveLeafKeys(t: Tree, t': Tree, root: RadixTreeNode, ps: Pos, n: RadixTreeNode)
    requires WF(t, root, ps) && IsRemoveLeaf(t, t', root, n, ps)
    ensures StoredPrefixes(t.Keys, ps)
         == StoredPrefixes(t'.Keys, ps) + RunKeys(n.path, |t[n].parent.path|, |n.path|, ps)
  {
    assert NodeOk(t, n, ps);
    var q := t[n].parent;
    var run := RunKeys(n.path, |q.path|, |n.path|, ps);
    forall p | p in StoredPrefixes(t.Keys, ps)
      ensures p in StoredPrefixes(t'.Keys, ps) + run
    {
      var m :| m in t.Keys && p <= m.path;
      if m != n {
        assert m in t'.Keys;
      } else if |p| <= |q.path| {
        PrefixesComparable(p, q.path, n.path);
        assert q in t'.Keys;
      }
    }
    forall p | p in StoredPrefixes(t'.Keys, ps) + run
      ensures p in StoredPrefixes(t.Keys, ps)
    {
      if p in run {
        assert n in t.Keys;
      } else {
        var m :| m in t'.Keys && p <= m.path;
        assert m in t.Keys;
      }
    }
  }

  // ---- the running sizes count the stored pages

  ghost function HeldPaths(held: map<int, RadixTreeNode>): map<int, seq<int>> {
    map u | u in held :: held[u].path
  }

  lemma {:induction false} ProtectedIff(s: Store, held: map<int, seq<int>>, p: seq<int>)
    requires p in s
    ensures p in Protected(s, held) <==> exists u :: u in held && p <= held[u]
  {
  }

  /** A prefix is protected exactly when its owner's count is positive. */
  lemma {:induction false} OwnerProtects(t: Tree, root: RadixTreeNode, ps: Pos, held: map<int, RadixTreeNode>,
                                         n: RadixTreeNode,
                      p: seq<int>)
    requires WF(t, root, ps) && RefExact(t, root, held) && Owns(t, root, n, p) && Aligned(|p|, ps)
    ensures p in Protected(StoreOf(t.Keys, ps), HeldPaths(held)) <==> t[n].ref != 0
  {
    StoreAt(t, root, ps, n, p);
    ProtectedIff(StoreOf(t.Keys, ps), HeldPaths(held), p);
    OwnerHeld(t, root, ps, held, n, p);
    assert t[n].ref == |Below(held, n.path)|;
    assert t[n].ref == 0 <==> Below(held, n.path) == {};
  }

  lemma {:induction false} OwnerHeld(t: Tree, root: RadixTreeNode, ps: Pos, held: map<int, RadixTreeNode>,
                                     n: RadixTreeNode, p: seq<int>)
    requires WF(t, root, ps) && held.Values <= t.Keys && Owns(t, root, n, p) && Aligned(|p|, ps)
    ensures (exists u :: u in HeldPaths(held) && p <= HeldPaths(held)[u]) <==> Below(held, n.path) != {}
  {
    var b := Below(held, n.path);
    if b != {} {
      var u := Member(b);
      assert u in HeldPaths(held) && p <= n.path <= HeldPaths(held)[u];
    }
    forall u | u in HeldPaths(held) && p <= HeldPaths(held)[u]
      ensures u in b
    {
      assert held[u] in held.Values;
      OwnerCovers(t, root, ps, n, held[u], p);
    }
  }

  /** The prefixes owned by the nodes of `some` whose count is zero (`ev`) or positive. */
  ghost function OwnedBy(t: Tree, root: RadixTreeNode, ps: Pos, some: set<RadixTreeNode>, ev: bool): set<seq<int>>
  {
    set p | p in StoredPrefixes(t.Keys, ps) && exists n | n in some :: Owns(t, root, n, p) && (t[n].ref == 0) == ev
  }

  lemma {:induction false} OwnedByNode(t: Tree, root: RadixTreeNode, ps: Pos, n: RadixTreeNode, ev: bool)
    requires WF(t, root, ps) && n in t
    ensures |OwnedBy(t, root, ps, {n}, ev)| * ps == Weight(n, t[n], root, ev)
  {
    var o := OwnedBy(t, root, ps, {n}, ev);
    if n == root || (t[n].ref == 0) != ev {
      assert o == {};
    } else {
      assert NodeOk(t, n, ps);
      var q := t[n].parent;
      NodeSized(t, root, ps, q);
      var run := RunKeys(n.path, |q.path|, |n.path|, ps);
      forall p | p in run
        ensures p in o
      {
        assert n in t.Keys && Owns(t, root, n, p);
      }
      assert o == run;
      RunCount(n.path, |q.path|, |n.path|, ps);
      DivCeilExact(|t[n].key|, ps);
    }
  }

  lemma {:induction false} OwnedBySplit(t: Tree, root: RadixTreeNode, ps: Pos, some: set<RadixTreeNode>,
                                        n: RadixTreeNode, ev: bool)
    requires WF(t, root, ps) && n in some
    ensures OwnedBy(t, root, ps, some, ev)
         == OwnedBy(t, root, ps, some - {n}, ev) + OwnedBy(t, root, ps, {n}, ev)
    ensures OwnedBy(t, root, ps, some - {n}, ev) !! OwnedBy(t, root, ps, {n}, ev)
  {
    forall p | p in OwnedBy(t, root, ps, some - {n}, ev) && p in OwnedBy(t, root, ps, {n}, ev)
      ensures false
    {
      var m :| m in some - {n} && Owns(t, root, m, p);
      OwnerUnique(t, root, ps, n, m, p);
    }
    forall p | p in OwnedBy(t, root, ps, some, ev)
      ensures p in OwnedBy(t, root, ps, some - {n}, ev) + OwnedBy(t, root, ps, {n}, ev)
    {
      var m :| m in some && Owns(t, root, m, p) && (t[m].ref == 0) == ev;
      if m != n {
        assert m in some - {n};
      }
    }
  }

  ghost function WeightsOf(t: Tree, root: RadixTreeNode, some: set<RadixTreeNode>, ev: bool): map<RadixTreeNode, nat>
  {
    map n | n in some && n in t :: Weight(n, t[n], root, ev)
  }

  lemma {:induction false} SizeCounts(t: Tree, root: RadixTreeNode, ps: Pos, some: set<RadixTreeNode>, ev: bool)
    requires WF(t, root, ps) && some <= t.Keys
    ensures Total(WeightsOf(t, root, some, ev)) == |OwnedBy(t, root, ps, some, ev)| * ps
    decreases |some|
  {
    if some == {} {
      assert OwnedBy(t, root, ps, some, ev) == {};
    } else {
      var n :| n in some;
      SizeCounts(t, root, ps, some - {n}, ev);
      OwnedBySplit(t, root, ps, some, n, ev);
      OwnedByNode(t, root, ps, n, ev);
      TotalPick(WeightsOf(t, root, some, ev), n);
      assert WeightsOf(t, root, some, ev) - {n} == WeightsOf(t, root, some - {n}, ev);
      CardSum(OwnedBy(t, root, ps, some - {n}, ev), OwnedBy(t, root, ps, {n}, ev), ps);
    }
  }

  lemma {:induction false} CardSum<T>(a: set<T>, b: set<T>, ps: Pos)
    requires a !! b
    ensures |a + b| * ps == |a| * ps + |b| * ps
  {
    assert |a + b| == |a| + |b|;
  }

  /** The evictable size is the page size times the number of unprotected prefixes, and the protected size the page
  size times the number of protected ones. */
  lemma {:induction false} SizesCountPages(t: Tree, root: RadixTreeNode, ps: Pos, held: map<int, RadixTreeNode>)
    requires WF(t, root, ps) && RefExact(t, root, held)
    ensures Size(t, root, true) == |Unprotected(StoreOf(t.Keys, ps), HeldPaths(held))| * ps
    ensures Size(t, root, false) == |Protected(StoreOf(t.Keys, ps), HeldPaths(held))| * ps
  {
    OwnedAll(t, root, ps, held, true);
    OwnedAll(t, root, ps, held, false);
    SizeCounts(t, root, ps, t.Keys, true);
    SizeCounts(t, root, ps, t.Keys, false);
    assert WeightsOf(t, root, t.Keys, true) == Weights(t, root, true);
    assert WeightsOf(t, root, t.Keys, false) == Weights(t, root, false);
  }

  lemma {:induction false} OwnedAll(t: Tree, root: RadixTreeNode, ps: Pos, held: map<int, RadixTreeNode>, ev: bool)
    requires WF(t, root, ps) && RefExact(t, root, held)
    ensures var s := StoreOf(t.Keys, ps);
            OwnedBy(t, root, ps, t.Keys, ev) == if ev then Unprotected(s, HeldPaths(held))
              else Protected(s, HeldPaths(held))
  {
    var s := StoreOf(t.Keys, ps);
    forall p | p in s
      ensures p in OwnedBy(t, root, ps, t.Keys, ev) <==> (p in Protected(s, HeldPaths(held))) != ev
    {
      var m :| m in t.Keys && p <= m.path;
      var n := OwnerExists(t, root, ps, m, p);
      OwnerProtects(t, root, ps, held, n, p);
      assert n in t.Keys;
      if p in OwnedBy(t, root, ps, t.Keys, ev) {
        var k :| k in t.Keys && Owns(t, root, k, p) && (t[k].ref == 0) == ev;
        OwnerUnique(t, root, ps, n, k, p);
      }
    }
  }

  // ---- walking down

  /** The child filed under `k` continues the path by its key. */
  lemma {:induction false} ChildStep(t: Tree, root: RadixTreeNode, ps: Pos, n: RadixTreeNode, k: seq<int>)
    requires WF(t, root, ps) && n in t && k in t[n].children
    ensures var c := t[n].children[k];
            && c in t && c != root && c != n && t[c].parent == n && c.path == n.path + t[c].key
            && |c.slots| == |c.path| && |t[c].value| == |t[c].key| && Aligned(|t[c].key|, ps)
            && ps <= |t[c].key| && KeyFn(t[c].key, ps) == k && |k| == ps && c.pageSize == ps
  {
    assert ChildOk(t, root, n, k, ps);
    assert NodeOk(t, t[n].children[k], ps);
    AlignedAtLeastPage(|t[t[n].children[k]].key|, ps);
  }

  /** No child for the next page: nothing longer is stored. */
  lemma {:induction false} NoChildNoMore(t: Tree, root: RadixTreeNode, ps: Pos, n: RadixTreeNode, ids: seq<int>)
    requires WF(t, root, ps) && n in t && n.path <= ids
    requires |n.path| == |ids| || KeyFn(ids[|n.path|..], ps) !in t[n].children
    ensures LongestMatch(StoreOf(t.Keys, ps), ids, ps) == |n.path|
  {
    NodeSized(t, root, ps, n);
    var s := StoreOf(t.Keys, ps);
    forall k | |n.path| < k <= |ids| && Aligned(k, ps)
      ensures ids[..k] !in s
    {
      if ids[..k] in s {
        NextPageFiled(t, root, ps, n, ids, k);
      }
    }
    if |n.path| > 0 {
      assert n.path == ids[..|n.path|];
      StoreAt(t, root, ps, n, n.path);
    }
    LongestUnique(s, ids, ps, |n.path|);
  }

  lemma {:induction false} NextPageFiled(t: Tree, root: RadixTreeNode, ps: Pos, n: RadixTreeNode, ids: seq<int>, k: nat)
    requires WF(t, root, ps) && n in t && n.path <= ids && |n.path| < k <= |ids| && Aligned(k, ps)
    requires ids[..k] in StoreOf(t.Keys, ps)
    ensures KeyFn(ids[|n.path|..], ps) in t[n].children
  {
    NodeSized(t, root, ps, n);
    var m :| m in t.Keys && ids[..k] <= m.path;
    AlignedFacts(|n.path|, k, ps);
    assert n.path == ids[..k][..|n.path|] && n.path <= m.path;
    Down(t, root, ps, n, m);
    var page := ids[|n.path|..k];
    assert n.path + page == ids[..k];
    FirstPage(n.path, page, m.path, ps);
    FirstPage(n.path, page, ids, ps);
  }

  lemma {:induction false} PagesDiffer(a: seq<int>, b: seq<int>, pos: nat, m: nat, ps: Pos)
    requires pos <= m < pos + ps <= |a| && pos + ps <= |b| && a[m] != b[m]
    ensures a[pos..][..ps] != b[pos..][..ps]
  {
    assert a[pos..][..ps][m - pos] != b[pos..][..ps][m - pos];
  }

  /** At a split, the new node's only child starts differently from the rest of the input. */
  lemma {:induction false} SplitStops(t': Tree, root: RadixTreeNode, ps: Pos, c: RadixTreeNode, nn: RadixTreeNode,
                                      key: seq<int>,
                   rest: seq<int>, pos: nat)
    requires Aligned(pos, ps) && Aligned(|key|, ps) && 0 < pos < |key| && pos <= |rest|
    requires pos == AlignDown(FirstMismatch(key, rest), ps)
    requires nn in t' && t'[nn].children == map[KeyFn(key[pos..], ps) := c]
    ensures KeyFn(rest[pos..], ps) !in t'[nn].children
  {
    hide Aligned, FirstMismatch, AlignDown;
    AlignedFacts(pos, |key|, ps);
    var m := FirstMismatch(key, rest);
    assert pos <= m < pos + ps;
    if |rest| - pos >= ps {
      PagesDiffer(key, rest, pos, m, ps);
    }
  }

  /** How far a walk gets into the child filed under the next page of `ids`: at least one page, and all of the child
  unless it stops inside. */
  lemma {:induction false} MatchFacts(t: Tree, root: RadixTreeNode, ps: Pos, n: RadixTreeNode, ids: seq<int>)
    requires WF(t, root, ps) && n in t && n.path <= ids && KeyFn(ids[|n.path|..], ps) in t[n].children
    ensures var c := t[n].children[KeyFn(ids[|n.path|..], ps)];
            && c in t && c != root && t[c].parent == n && c.path == n.path + t[c].key && |c.slots| == |c.path|
            && (var m := AlignDown(FirstMismatch(t[c].key, ids[|n.path|..]), ps);
                && 0 < m <= |t[c].key| && Aligned(m, ps) && |n.path| + m <= |ids|
                && (m == |t[c].key| ==> c.path <= ids)
                && c.path[..|n.path| + m] <= ids)
  {
    var k, rest := KeyFn(ids[|n.path|..], ps), ids[|n.path|..];
    ChildStep(t, root, ps, n, k);
    var c := t[n].children[k];
    var f := FirstMismatch(t[c].key, rest);
    MismatchAfter(t[c].key, rest, ps);
    NothingAlignedBetween(0, ps);
    StepAligned(0, ps);
    var m := AlignDown(f, ps);
    assert t[c].key[..m] == t[c].key[..f][..m] && rest[..m] == rest[..f][..m];
    assert ids == n.path + rest;
    assert c.path[..|n.path| + m] == n.path + t[c].key[..m] == n.path + rest[..m];
  }

  /** The state after a walk that split `c` at its end point. */
  lemma {:induction false} SplitEnd(t: Tree, t': Tree, root: RadixTreeNode, ps: Pos, n: RadixTreeNode, c: RadixTreeNode,
                 nn: RadixTreeNode, ids: seq<int>, pos: nat)
    requires WF(t, root, ps) && n in t && n.path <= ids && KeyFn(ids[|n.path|..], ps) in t[n].children
    requires c == t[n].children[KeyFn(ids[|n.path|..], ps)] && c in t
    requires pos == AlignDown(FirstMismatch(t[c].key, ids[|n.path|..]), ps)
    requires IsSplit(t, t', root, c, nn, pos, ps)
    ensures nn in t' && nn.path <= ids && |nn.path| == |n.path| + pos
    ensures |nn.path| == |ids| || KeyFn(ids[|nn.path|..], ps) !in t'[nn].children
    ensures nn != root && n in t' && t'[nn].parent == n && t'[n].ts == t[n].ts
  {
    hide FirstMismatch, AlignDown;
    MatchFacts(t, root, ps, n, ids);
    ChildStep(t, root, ps, n, KeyFn(ids[|n.path|..], ps));
    var rest := ids[|n.path|..];
    SplitStops(t', root, ps, c, nn, t[c].key, rest, pos);
    assert rest[pos..] == ids[|n.path| + pos..];
  }

  // ---- inserting

  /** What the heap holds after a new leaf was filed under `p`. */
  ghost predicate LeafViews(t: Tree, nodes: set<RadixTreeNode>, p: RadixTreeNode, nn: RadixTreeNode, key: seq<int>,
                            value: seq<int>, tic: int, ps: Pos)
    requires p in t
    reads nodes
  {
    && nodes == t.Keys + {nn}
    && nn.View() == Rec(p, map[], key, value, 0, tic)
    && p.View() == t[p].(children := t[p].children[KeyFn(key, ps) := nn])
    && forall n | n in t && n != p :: n.View() == t[n]
  }

  lemma {:induction false} LeafHeap(t: Tree, nodes0: set<RadixTreeNode>, nodes: set<RadixTreeNode>,
                 root: RadixTreeNode, ps: Pos, held: map<int, RadixTreeNode>,
                 ev: int, pr: int, p: RadixTreeNode, nn: RadixTreeNode, key: seq<int>, value: seq<int>, tic: int)
    requires t.Keys == nodes0 && Inv(t, root, ps, held, ev, pr) && p in t && nn !in t && nn.pageSize == ps
    requires LeafViews(t, nodes, p, nn, key, value, tic, ps)
    requires key != [] && Aligned(|key|, ps) && |value| == |key|
    requires nn.path == p.path + key && nn.slots == p.slots + value && KeyFn(key, ps) !in t[p].children
    ensures Inv(Snap(nodes), root, ps, held, ev + |key|, pr) && IsAddLeaf(t, Snap(nodes), p, nn, key, value, tic, ps)
    ensures |nn.path| == |nn.slots|
    ensures StoreOf(nodes, ps) == StoreOf(nodes0, ps) + Run(nn.path, nn.slots, |p.path|, |nn.path|, ps)
    ensures ClockOk(t, root, tic) && FreshTo(t, root, p, tic) ==> ClockOk(Snap(nodes), root, tic)
  {
    var t' := Snap(nodes);
    AddLeafKeeps(t, t', root, ps, held, ev, pr, p, nn, key, value, tic);
    AddLeafStore(t, t', root, ps, p, nn, key, value, tic);
    assert t'.Keys == nodes;
    if ClockOk(t, root, tic) && FreshTo(t, root, p, tic) {
      AddLeafClock(t, t', root, ps, p, nn, key, value, tic);
    }
  }

  /** The slots of a node are those of its path in the prefix map. */
  lemma {:induction false} NodeSlots(t: Tree, root: RadixTreeNode, ps: Pos, n: RadixTreeNode)
    requires WF(t, root, ps) && n in t
    ensures StoreOk(StoreOf(t.Keys, ps), ps)
    ensures n.path == [] || n.path in StoreOf(t.Keys, ps)
    ensures n.slots == SlotsOf(StoreOf(t.Keys, ps), n.path) && |n.slots| == |n.path| && Aligned(|n.path|, ps)
  {
    TreeStoreOk(t, root, ps);
    NodeSized(t, root, ps, n);
    if n.path != [] {
      StoreAt(t, root, ps, n, n.path);
    }
  }

  lemma {:induction false} RestAligned(ids: seq<int>, m: nat, ps: Pos)
    requires m <= |ids| && Aligned(m, ps) && Aligned(|ids|, ps)
    ensures Aligned(|ids[m..]|, ps) && ids[..m] + ids[m..] == ids
  {
    AlignedFacts(|ids|, m, ps);
  }

  lemma {:induction false} EndSlots(t: Tree, nodes: set<RadixTreeNode>, root: RadixTreeNode, ps: Pos,
                                    n: RadixTreeNode, ids: seq<int>)
    requires t.Keys == nodes && WF(t, root, ps) && n in t && n.path <= ids
    requires |n.path| == |ids| || KeyFn(ids[|n.path|..], ps) !in t[n].children
    ensures LongestMatch(StoreOf(nodes, ps), ids, ps) == |n.path| == |n.slots| && Aligned(|n.path|, ps)
    ensures n.path == ids[..|n.path|] && n.slots == SlotsOf(StoreOf(nodes, ps), ids[..|n.path|])
  {
    NoChildNoMore(t, root, ps, n, ids);
    NodeSlots(t, root, ps, n);
  }

  /** What an insertion that walked to `n` has left to do. */
  lemma {:induction false} InsertPoint(t: Tree, nodes: set<RadixTreeNode>, root: RadixTreeNode, ps: Pos,
                                       n: RadixTreeNode, ids: seq<int>,
                    indices: seq<int>, m: nat)
    requires t.Keys == nodes && WF(t, root, ps) && n in t && n.path <= ids && |ids| == |indices| && Aligned(|ids|, ps)
    requires |n.path| == m && (m == |ids| || KeyFn(ids[m..], ps) !in t[n].children)
    ensures LongestMatch(StoreOf(nodes, ps), ids, ps) == m && |n.slots| == m
    ensures m == |ids| ==> n.path == ids && Inserted(StoreOf(nodes, ps), ids, indices, ps) == StoreOf(nodes, ps)
    ensures m < |ids| ==>
              && n.path + ids[m..] == ids && Aligned(|ids[m..]|, ps)
              && Inserted(StoreOf(nodes, ps), ids, indices, ps)
                 == StoreOf(nodes, ps) + Run(ids, n.slots + indices[m..], m, |ids|, ps)
  {
    EndSlots(t, nodes, root, ps, n, ids);
    RestAligned(ids, m, ps);
    InsertRun(StoreOf(nodes, ps), ids, indices, m, n.slots, ps);
  }

  /** One step up: a node's slots are its parent's followed by its own. */
  lemma {:induction false} SlotsStep(t: Tree, root: RadixTreeNode, ps: Pos, n: RadixTreeNode)
    requires WF(t, root, ps) && n in t
    ensures t[n].parent == null <==> n == root
    ensures n == root ==> n.slots == []
    ensures n != root ==> t[n].parent in t && |t[n].parent.path| < |n.path| && n.slots == t[n].parent.slots + t[n].value
  {
    assert n != root ==> NodeOk(t, n, ps);
  }

  // ---- collecting the evictable leaves

  ghost predicate Distinct(s: seq<RadixTreeNode>) {
    forall i, j | 0 <= i < j < |s| :: s[i] != s[j]
  }

  lemma {:induction false} DistinctConcat(a: seq<RadixTreeNode>, b: seq<RadixTreeNode>)
    requires Distinct(a) && Distinct(b) && forall n | n in b :: n !in a
    ensures Distinct(a + b)
  {
    forall i, j | 0 <= i < j < |a + b|
      ensures (a + b)[i] != (a + b)[j]
    {
      if i < |a| <= j {
        assert b[j - |a|] in b && a[i] in a;
      }
    }
  }

  ghost predicate EvictableLeaf(t: Tree, n: RadixTreeNode) {
    n in t && t[n].children == map[] && t[n].ref == 0
  }

  /** The state of a depth-first visit: everything reachable is visited, on the stack, or below the stack. */
  ghost predicate Frontier(t: Tree, root: RadixTreeNode, visited: set<RadixTreeNode>, stack: seq<RadixTreeNode>)
  {
    && visited <= t.Keys && Distinct(stack)
    && (forall n | n in stack :: n in t && n !in visited)
    && (root in visited || root in stack)
    && (forall n, k | n in visited && n in t && k in t[n].children ::
          t[n].children[k] in visited || t[n].children[k] in stack)
    && forall n | (n in visited || n in stack) && n in t && n != root :: t[n].parent in visited
  }

  lemma {:induction false} FrontierStep(t: Tree, root: RadixTreeNode, ps: Pos, visited: set<RadixTreeNode>,
                                        stack: seq<RadixTreeNode>,
                     n: RadixTreeNode, cs: seq<RadixTreeNode>)
    requires WF(t, root, ps) && stack != [] && n == stack[|stack| - 1] && Frontier(t, root, visited, stack)
    requires Distinct(cs) && forall c :: c in cs <==> c in t[n].children.Values
    ensures Frontier(t, root, visited + {n}, stack[..|stack| - 1] + cs)
  {
    var rest := stack[..|stack| - 1];
    forall c | c in cs
      ensures c in t && c != root && t[c].parent == n && c !in visited && c !in stack
    {
      var k :| k in t[n].children && t[n].children[k] == c;
      assert ChildOk(t, root, n, k, ps);
    }
    assert n !in rest && forall m | m in stack :: m == n || m in rest;
    forall m, k | m in visited + {n} && m in t && k in t[m].children
      ensures t[m].children[k] in visited + {n} || t[m].children[k] in rest + cs
    {
      var c := t[m].children[k];
      if m == n {
        assert c in t[n].children.Values;
      } else {
        assert c in visited || c in stack;
        assert c in stack ==> c == n || c in rest;
      }
    }
    DistinctConcat(rest, cs);
  }

  lemma {:induction false} FrontierDone(t: Tree, root: RadixTreeNode, ps: Pos, visited: set<RadixTreeNode>,
                                        n: RadixTreeNode)
    requires WF(t, root, ps) && Frontier(t, root, visited, []) && n in t
    ensures n in visited
    decreases |n.path|
  {
    if n != root {
      assert NodeOk(t, n, ps);
      FrontierDone(t, root, ps, visited, t[n].parent);
      var k := KeyFn(t[n].key, ps);
      assert t[t[n].parent].children[k] in visited;
    }
  }

  /** The whole state of the collecting visit: besides the frontier, the evictable leaves met so far. */
  ghost predicate Visit(t: Tree, root: RadixTreeNode, visited: set<RadixTreeNode>, stack: seq<RadixTreeNode>,
                        leaves: seq<RadixTreeNode>)
  {
    && Frontier(t, root, visited, stack) && Distinct(leaves)
    && (forall n | n in leaves :: n in visited && EvictableLeaf(t, n))
    && forall n {:trigger EvictableLeaf(t, n)} | n in visited && EvictableLeaf(t, n) :: n in leaves
  }

  lemma {:induction false} VisitStart(t: Tree, root: RadixTreeNode, ps: Pos)
    requires WF(t, root, ps)
    ensures Visit(t, root, {}, [root], [])
  {
  }

  lemma {:induction false} VisitTop(t: Tree, root: RadixTreeNode, visited: set<RadixTreeNode>,
                                    stack: seq<RadixTreeNode>,
                 leaves: seq<RadixTreeNode>)
    requires Visit(t, root, visited, stack, leaves) && stack != []
    ensures stack[|stack| - 1] in t && stack[|stack| - 1] !in visited
  {
    assert stack[|stack| - 1] in stack;
  }

  lemma {:induction false} VisitStep(t: Tree, root: RadixTreeNode, ps: Pos, visited: set<RadixTreeNode>,
                                     stack: seq<RadixTreeNode>,
                  leaves: seq<RadixTreeNode>, n: RadixTreeNode, cs: seq<RadixTreeNode>, stack': seq<RadixTreeNode>,
                  leaves': seq<RadixTreeNode>)
    requires WF(t, root, ps) && Visit(t, root, visited, stack, leaves) && stack != [] && n == stack[|stack| - 1]
    requires Distinct(cs) && forall c :: c in cs <==> c in t[n].children.Values
    requires stack' == stack[..|stack| - 1] + (if t[n].children == map[] then [] else cs)
    requires leaves' == leaves + (if EvictableLeaf(t, n) then [n] else [])
    ensures Visit(t, root, visited + {n}, stack', leaves')
  {
    VisitTop(t, root, visited, stack, leaves);
    assert cs != [] ==> cs[0] in cs;
    FrontierStep(t, root, ps, visited, stack, n, cs);
    assert n in leaves ==> n in visited;
    DistinctConcat(leaves, if EvictableLeaf(t, n) then [n] else []);
  }

  lemma {:induction false} VisitEnd(t: Tree, root: RadixTreeNode, ps: Pos, visited: set<RadixTreeNode>,
                                    leaves: seq<RadixTreeNode>)
    requires WF(t, root, ps) && Visit(t, root, visited, [], leaves)
    ensures Distinct(leaves) && forall n :: n in leaves <==> EvictableLeaf(t, n)
  {
    forall n | n in t
      ensures n in visited
    {
      FrontierDone(t, root, ps, visited, n);
    }
  }

  lemma {:induction false} ChildrenDistinct(t: Tree, root: RadixTreeNode, ps: Pos, n: RadixTreeNode, j: seq<int>,
                                            k: seq<int>)
    requires WF(t, root, ps) && n in t && j in t[n].children && k in t[n].children && j != k
    ensures t[n].children[j] != t[n].children[k]
  {
    assert ChildOk(t, root, n, j, ps) && ChildOk(t, root, n, k, ps);
  }

  // ---- evicting one leaf

  ghost predicate RemoveViews(t: Tree, nodes: set<RadixTreeNode>, n: RadixTreeNode, ps: Pos)
    requires n in t && t[n].parent != null && t[n].parent in t
    reads nodes, t[n].parent
  {
    && nodes == t.Keys - {n}
    && t[n].parent.View() == t[t[n].parent].(children := t[t[n].parent].children - {KeyFn(t[n].key, ps)})
    && forall m | m in t && m != n && m != t[n].parent :: m.View() == t[m]
  }

  lemma {:induction false} NodeFacts(t: Tree, root: RadixTreeNode, ps: Pos, held: map<int, RadixTreeNode>, ev: int,
                                     pr: int,
                  n: RadixTreeNode)
    requires Inv(t, root, ps, held, ev, pr) && n in t && n != root
    ensures t[n].parent != null && t[n].parent in t && t[n].parent != n && |t[n].key| == |t[n].value| > 0
    ensures root in t
  {
    assert NodeOk(t, n, ps);
  }

  lemma {:induction false} RemoveHeap(t: Tree, nodes0: set<RadixTreeNode>, nodes: set<RadixTreeNode>,
                                      root: RadixTreeNode, ps: Pos,
                   held: map<int, RadixTreeNode>, ev: int, pr: int, n: RadixTreeNode)
    requires t.Keys == nodes0 && Inv(t, root, ps, held, ev, pr) && n in t && n != root && EvictableLeaf(t, n)
    requires t[n].parent != null && t[n].parent in t && t[n].parent != n && RemoveViews(t, nodes, n, ps)
    ensures Inv(Snap(nodes), root, ps, held, ev - |t[n].key|, pr)
    ensures EvictOk(StoreOf(nodes0, ps), StoreOf(nodes, ps), HeldPaths(held), t[n].value, ps)
    ensures |t[n].value| == |t[n].key| > 0
    ensures IsRemoveLeaf(t, Snap(nodes), root, n, ps)
  {
    var t' := Snap(nodes);
    assert IsRemoveLeaf(t, t', root, n, ps);
    RemoveLeafKeeps(t, t', root, ps, held, ev, pr, n);
    assert NodeOk(t, n, ps);
    RemoveEvicts(t, t', root, ps, held, n);
    assert t'.Keys == nodes;
  }

  lemma {:induction false} RemoveEvicts(t: Tree, t': Tree, root: RadixTreeNode, ps: Pos, held: map<int,
                                        RadixTreeNode>, n: RadixTreeNode)
    requires WF(t, root, ps) && WF(t', root, ps) && RefExact(t, root, held) && IsRemoveLeaf(t, t', root, n, ps)
    ensures EvictOk(StoreOf(t.Keys, ps), StoreOf(t'.Keys, ps), HeldPaths(held), t[n].value, ps)
  {
    hide *;
    RemovedPath(t, t', root, ps, n);
    RemoveLeafStore(t, t', root, ps, n);
    var q := t[n].parent;
    forall p | p in RunKeys(n.path, |q.path|, |n.path|, ps)
      ensures p !in Protected(StoreOf(t.Keys, ps), HeldPaths(held))
    {
      RemovedUnprotected(t, t', root, ps, held, n, p);
    }
    EvictRun(StoreOf(t'.Keys, ps), n.path, n.slots, |q.path|, HeldPaths(held), ps);
  }

  lemma {:induction false} RemovedUnprotected(t: Tree, t': Tree, root: RadixTreeNode, ps: Pos, held: map<int,
                                              RadixTreeNode>,
                           n: RadixTreeNode, p: seq<int>)
    requires WF(t, root, ps) && RefExact(t, root, held) && IsRemoveLeaf(t, t', root, n, ps)
    requires p in RunKeys(n.path, |t[n].parent.path|, |n.path|, ps)
    ensures p !in Protected(StoreOf(t.Keys, ps), HeldPaths(held))
  {
    hide WF, RefExact, Protected, StoreOf, HeldPaths;
    OwnerProtects(t, root, ps, held, n, p);
  }

  /** Every evictable node has an evictable leaf that is no newer. */
  lemma {:induction false} NoNewerLeaf(t: Tree, root: RadixTreeNode, ps: Pos, held: map<int, RadixTreeNode>,
                                       heap: set<RadixTreeNode>,
                    n: RadixTreeNode, oldest: RadixTreeNode)
    requires WF(t, root, ps) && RefExact(t, root, held) && Ordered(t, root)
    requires n in t && n != root && t[n].ref == 0
    requires forall m | m in t && EvictableLeaf(t, m) :: m in heap
    requires oldest in t && forall m | m in heap && m in t :: t[oldest].ts <= t[m].ts
    ensures t[oldest].ts <= t[n].ts
  {
    var l := LeafBelow(t, root, ps, held, n);
    assert EvictableLeaf(t, l);
  }

  /** The state of an eviction: `heap` holds exactly the evictable leaves, counts and times are untouched, and if times
  were in order at the start they still are and nothing evicted is newer than an evictable node that remains. */
  ghost predicate Evicting(t0: Tree, t: Tree, root: RadixTreeNode, heap: set<RadixTreeNode>)
  {
    && t.Keys <= t0.Keys
    && (forall n | n in t :: t[n].ts == t0[n].ts && t[n].ref == t0[n].ref && t[n].parent == t0[n].parent)
    && (forall n | n in heap :: EvictableLeaf(t, n))
    && (forall n {:trigger EvictableLeaf(t, n)} | n in t && EvictableLeaf(t, n) :: n in heap)
    && (Ordered(t0, root) ==> Ordered(t, root) && LruSoFar(t0, t, root))
  }

  /** No evicted node is newer than a remaining node that could be evicted. */
  ghost predicate LruSoFar(t0: Tree, t: Tree, root: RadixTreeNode)
  {
    forall e, n | e in t0 && e !in t && n in t && n in t0 && n != root && t0[n].ref == 0 :: t0[e].ts <= t0[n].ts
  }

  lemma {:induction false} EvictStep(t0: Tree, t: Tree, t': Tree, root: RadixTreeNode, ps: Pos, held: map<int,
                                     RadixTreeNode>,
                  heap: set<RadixTreeNode>, n: RadixTreeNode, q: RadixTreeNode, push: bool, heap': set<RadixTreeNode>)
    requires WF(t, root, ps) && RefExact(t, root, held) && Evicting(t0, t, root, heap)
    requires n in heap && forall m | m in heap && m in t :: t[n].ts <= t[m].ts
    requires IsRemoveLeaf(t, t', root, n, ps)
    requires q == t[n].parent && (push <==> EvictableLeaf(t', q))
    requires heap' == if push then heap - {n} + {q} else heap - {n}
    ensures Evicting(t0, t', root, heap')
  {
    forall m | m in t'
      ensures t'[m].ts == t0[m].ts && t'[m].ref == t0[m].ref && t'[m].parent == t0[m].parent
      ensures m in heap' <==> EvictableLeaf(t', m)
    {
      assert t[m].ts == t0[m].ts && m != n;
      if m != q {
        assert t'[m] == t[m];
        assert EvictableLeaf(t', m) <==> EvictableLeaf(t, m);
      } else {
        assert m in heap ==> EvictableLeaf(t, m);
        ParentNotLeaf(t, root, ps, n);
      }
    }
    assert forall m | m in heap' :: m in t';
    if Ordered(t0, root) {
      RemoveLeafClock(t, t', root, ps, n);
      EvictStepLru(t0, t, t', root, ps, held, heap, n);
    }
  }

  lemma {:induction false} LeafFacts(t: Tree, root: RadixTreeNode, ps: Pos, n: RadixTreeNode)
    requires WF(t, root, ps) && EvictableLeaf(t, n)
    ensures n != root && t[n].parent != null && t[n].parent in t && |t[n].value| == |t[n].key|
  {
    assert n != root ==> NodeOk(t, n, ps);
  }

  lemma {:induction false} ParentNotLeaf(t: Tree, root: RadixTreeNode, ps: Pos, n: RadixTreeNode)
    requires WF(t, root, ps) && n in t && n != root
    ensures t[n].parent != null && t[n].parent in t && t[t[n].parent].children != map[]
  {
    assert NodeOk(t, n, ps);
  }

  lemma {:induction false} EvictStepLru(t0: Tree, t: Tree, t': Tree, root: RadixTreeNode, ps: Pos, held: map<int,
                                        RadixTreeNode>,
                     heap: set<RadixTreeNode>, n: RadixTreeNode)
    requires WF(t, root, ps) && RefExact(t, root, held) && Evicting(t0, t, root, heap) && Ordered(t0, root)
    requires n in heap && forall m | m in heap && m in t :: t[n].ts <= t[m].ts
    requires IsRemoveLeaf(t, t', root, n, ps)
    ensures LruSoFar(t0, t', root)
  {
    forall e, m | e in t0 && e !in t' && m in t' && m in t0 && m != root && t0[m].ref == 0
      ensures t0[e].ts <= t0[m].ts
    {
      assert m in t && t[m].ts == t0[m].ts && t[m].ref == t0[m].ref;
      if e == n {
        NoNewerLeaf(t, root, ps, held, heap, m, n);
      } else {
        assert e !in t;
      }
    }
  }

  /** While something is evictable, an evictable leaf exists; and every evictable node has one below it that is no
  newer. */
  lemma {:induction false} EvictableExists(t: Tree, root: RadixTreeNode, ps: Pos, held: map<int,
                                           RadixTreeNode>) returns (l: RadixTreeNode)
    requires WF(t, root, ps) && RefExact(t, root, held) && Size(t, root, true) > 0
    ensures EvictableLeaf(t, l) && l != root
  {
    var n := TotalPositive(Weights(t, root, true));
    l := LeafBelow(t, root, ps, held, n);
  }
}
