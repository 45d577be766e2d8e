/** The radix tree as a data structure: node objects, snapshots of a set of nodes, and the trie facts that
every cache operation rests on.

A node carries two ghost constants: the whole token path from the root to its end and the slots stored along it.
Splitting a node shortens its key but moves neither end, so both never change during a node's life. */
module RadixTree {
  import opened Paging

  /** The key under which a child is filed in its parent: the first page of its tokens. */
  function KeyFn(x: seq<int>, ps: Pos): (k: seq<int>)
    ensures k <= x
    ensures |x| >= ps ==> |k| == ps
    ensures |x| < ps ==> |k| < ps
  {
    if |x| <= ps then x else x[..ps]
  }

  class RadixTreeNode {
    ghost const path: seq<int>
    ghost const slots: seq<int>
    const pageSize: Pos
    var key: seq<int>
    var value: seq<int>
    var parent: RadixTreeNode?
    var children: map<seq<int>, RadixTreeNode>
    var refCount: int
    var timestamp: int

    constructor (pageSize: Pos, tic: int, ghost path: seq<int>, ghost slots: seq<int>)
      ensures this.path == path && this.slots == slots && this.pageSize == pageSize
      ensures parent == null && children == map[] && refCount == 0 && timestamp == tic
    {
      this.path, this.slots, this.pageSize := path, slots, pageSize;
      key, value, parent, children := [], [], null, map[];
      refCount, timestamp := 0, tic;
    }

    ghost function View(): Rec
      reads this
    {
      Rec(parent, children, key, value, refCount, timestamp)
    }

    method SetKeyValue(key: seq<int>, value: seq<int>)
      requires |key| == |value|
      modifies this`key, this`value
      ensures this.key == key && this.value == value
    {
      this.key, this.value := key, value;
    }

    method SetParent(p: RadixTreeNode)
      modifies this`parent, p`children
      ensures parent == p
      ensures p.children == old(p.children)[KeyFn(key, pageSize) := this]
    {
      parent := p;
      p.children := p.children[KeyFn(key, pageSize) := this];
    }

    predicate IsLeaf()
      reads this
    {
      |children| == 0
    }

    /** Puts a new node for the first `pos` tokens between this node and its parent. */
    method SplitAt(pos: nat) returns (newNode: RadixTreeNode)
      requires parent != null && parent != this && 0 < pos < |key| == |value|
      requires |path| == |slots| >= |key|
      modifies this`key, this`value, this`parent, parent`children
      ensures fresh(newNode)
      ensures newNode.path == path[..|path| - old(|key|) + pos] && newNode.slots == slots[..|path| - old(|key|) + pos]
      ensures newNode.View() == Rec(old(parent), map[KeyFn(key, pageSize) := this],
                                    old(key[..pos]), old(value[..pos]), refCount, timestamp)
      ensures newNode.pageSize == pageSize
      ensures View() == old(View()).(parent := newNode, key := old(key[pos..]), value := old(value[pos..]))
      ensures old(parent).children == old(parent.children)[KeyFn(old(key[..pos]), pageSize) := newNode]
    {
      var p := parent;
      newNode := new RadixTreeNode(pageSize, timestamp, path[..|path| - |key| + pos], slots[..|path| - |key| + pos]);
      newNode.SetKeyValue(key[..pos], value[..pos]);
      newNode.SetParent(p);
      newNode.refCount := refCount;
      SetKeyValue(key[pos..], value[pos..]);
      SetParent(newNode);
    }
  }

  /** The mutable fields of one node. */
  datatype Rec = Rec(parent: RadixTreeNode?, children: map<seq<int>, RadixTreeNode>,
                     key: seq<int>, value: seq<int>, ref: int, ts: int)

  /** A snapshot of all nodes of a tree. */
  type Tree = map<RadixTreeNode, Rec>

  ghost function Snap(nodes: set<RadixTreeNode>): Tree
    reads nodes
  {
    map n | n in nodes :: n.View()
  }

  /** When every node but `n` still reads as in `t`, the snapshot is `t` with `n` rewritten. */
  lemma {:induction false} SnapWrite(t: Tree, nodes: set<RadixTreeNode>, n: RadixTreeNode)
    requires n in nodes && t.Keys == nodes
    requires forall m | m in nodes && m != n :: m.View() == t[m]
    ensures Snap(nodes) == t[n := n.View()]
  {
  }

  // ---- well-formed trees

  ghost predicate NodeOk(t: Tree, n: RadixTreeNode, ps: Pos)
    requires n in t
  {
    var r := t[n];
    && r.parent != null && r.parent in t
    && r.key != [] && Aligned(|r.key|, ps) && |r.value| == |r.key| && r.ref >= 0
    && n.path == r.parent.path + r.key && n.slots == r.parent.slots + r.value
    && |n.path| == |n.slots| && Aligned(|n.path|, ps)
    && KeyFn(r.key, ps) in t[r.parent].children && t[r.parent].children[KeyFn(r.key, ps)] == n
  }

  ghost predicate ChildOk(t: Tree, root: RadixTreeNode, n: RadixTreeNode, k: seq<int>, ps: Pos)
    requires n in t && k in t[n].children
  {
    var c := t[n].children[k];
    c in t && c != root && t[c].parent == n && KeyFn(t[c].key, ps) == k
  }

  ghost predicate RootOk(t: Tree, root: RadixTreeNode)
  {
    root in t && t[root].parent == null && root.path == [] && root.slots == [] && t[root].ref == 1
  }

  ghost predicate WF(t: Tree, root: RadixTreeNode, ps: Pos)
  {
    && RootOk(t, root)
    && (forall n {:trigger NodeOk(t, n, ps)} | n in t && n != root :: NodeOk(t, n, ps))
    && (forall n, k {:trigger ChildOk(t, root, n, k, ps)} | n in t && k in t[n].children :: ChildOk(t, root, n, k, ps))
    && (forall n {:trigger n.pageSize} | n in t :: n.pageSize == ps)
  }

  /** Two children of one parent cannot lie on one path. */
  lemma {:induction false} Siblings(t: Tree, root: RadixTreeNode, ps: Pos, n: RadixTreeNode, m: RadixTreeNode)
    requires WF(t, root, ps) && n in t && m in t && n != root && m != root
    requires t[n].parent == t[m].parent && n.path <= m.path
    ensures n == m
  {
    assert NodeOk(t, n, ps) && NodeOk(t, m, ps);
    var p := t[n].parent;
    assert m.path[|p.path|..] == t[m].key && n.path[|p.path|..] == t[n].key;
    AlignedAtLeastPage(|t[m].key|, ps);
    AlignedAtLeastPage(|t[n].key|, ps);
    assert KeyFn(t[m].key, ps) == KeyFn(t[n].key, ps);
  }

  /** Walking up: a node whose path extends `n`'s is below `n`. */
  lemma {:induction false} Up(t: Tree, root: RadixTreeNode, ps: Pos, n: RadixTreeNode, m: RadixTreeNode)
    requires WF(t, root, ps) && n in t && m in t && n != m && n.path <= m.path
    ensures m != root && t[m].parent != null && n.path <= t[m].parent.path && |t[m].parent.path| < |m.path|
    decreases |n.path| + |m.path|
  {
    assert n != root ==> NodeOk(t, n, ps);
    if m == root {
      assert false;
    }
    assert NodeOk(t, m, ps);
    var p := t[m].parent;
    if n == root {
      return;
    }
    var q := t[n].parent;
    assert p.path <= m.path && q.path <= n.path;
    if |n.path| <= |p.path| {
      PrefixesComparable(n.path, p.path, m.path);
      return;
    }
    PrefixesComparable(p.path, n.path, m.path);
    if p != n {
      Up(t, root, ps, p, n);
    }
    assert p.path <= q.path;
    assert q.path <= m.path;
    if q != m {
      Up(t, root, ps, q, m);
    }
    assert p.path == q.path;
    if p != q {
      Up(t, root, ps, p, q);
      assert false;
    }
    Siblings(t, root, ps, n, m);
  }

  lemma {:induction false} SamePath(t: Tree, root: RadixTreeNode, ps: Pos, n: RadixTreeNode, m: RadixTreeNode)
    requires WF(t, root, ps) && n in t && m in t && n.path == m.path
    ensures n == m
  {
    if n != m {
      Up(t, root, ps, n, m);
      assert false;
    }
  }

  /** Walking down: if some node lies strictly below `n` along tokens `rest`, the child filed under the first page
  of `rest` exists and leads to it. */
  lemma {:induction false} Down(t: Tree, root: RadixTreeNode, ps: Pos, n: RadixTreeNode, m: RadixTreeNode)
    requires WF(t, root, ps) && n in t && m in t && n != m && n.path <= m.path
    ensures |n.path| < |m.path|
    ensures var k := KeyFn(m.path[|n.path|..], ps);
            k in t[n].children && t[n].children[k].path <= m.path
    decreases |m.path|
  {
    Up(t, root, ps, n, m);
    assert NodeOk(t, m, ps);
    var p := t[m].parent;
    AlignedAtLeastPage(|t[m].key|, ps);
    if p == n {
      assert m.path[|n.path|..] == t[m].key;
    } else {
      Down(t, root, ps, n, p);
      var k := KeyFn(p.path[|n.path|..], ps);
      assert ChildOk(t, root, n, k, ps);
      var c := t[n].children[k];
      assert NodeOk(t, c, ps);
      AlignedAtLeastPage(|t[c].key|, ps);
      assert |p.path[|n.path|..]| >= ps;
      assert KeyFn(m.path[|n.path|..], ps) == k;
    }
  }
}
