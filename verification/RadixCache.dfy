/** The radix prefix cache: node objects changed in place, specified against the prefix map of RadixStore. */
module RadixCache {
  import opened Paging
  import opened Sums
  import opened PrefixStore
  import opened RadixTree
  import opened RadixOps
  import opened RadixStore
  import opened RadixUse

  /** A position in the tree, as handed to requests. */
  datatype Handle = Handle(cachedLen: nat, node: RadixTreeNode)

  class RadixPrefixCache {
    const pageSize: Pos
    const root: RadixTreeNode
    var evictableSize: int
    var protectedSize: int
    ghost var nodes: set<RadixTreeNode>
    ghost var held: map<int, RadixTreeNode>

    ghost predicate Valid()
      reads this, nodes
    {
      root in nodes && Inv(Snap(nodes), root, pageSize, held, evictableSize, protectedSize)
    }

    /** The prefix map the tree stands for. */
    ghost function Store(): Store
      reads this
    {
      StoreOf(nodes, pageSize)
    }

    /** When each stored prefix was last used. */
    ghost function LastUses(): (r: Uses)
      reads this, nodes
      ensures r.Keys == Store().Keys
    {
      assert Snap(nodes).Keys == nodes;
      UsesOf(Snap(nodes), root, pageSize)
    }

    /** The path each outstanding lock protects. */
    ghost function Held(): map<int, seq<int>>
      reads this
    {
      HeldPaths(held)
    }

    ghost predicate HandleOk(h: Handle)
      reads this
    {
      h.node in nodes && h.cachedLen == |h.node.path|
    }

    constructor (pageSize: Pos, tic: int)
      ensures Valid() && fresh(nodes) && this.pageSize == pageSize
      ensures Store() == map[] && held == map[] && evictableSize == 0 && protectedSize == 0
      ensures ClockOk(Snap(nodes), root, tic) && LastUses() == map[]
    {
      this.pageSize := pageSize;
      root := new RadixTreeNode(pageSize, tic, [], []);
      evictableSize, protectedSize := 0, 0;
      held := map[];
      new;
      root.refCount := 1;
      nodes := {root};
      var t := Snap(nodes);
      assert Weights(t, root, true) == map[root := 0] && Weights(t, root, false) == map[root := 0];
      TotalPick(Weights(t, root, true), root);
      TotalPick(Weights(t, root, false), root);
      assert Weights(t, root, true) - {root} == map[] && Weights(t, root, false) - {root} == map[];
    }

    /** One step of the locking walk. */
    method Pin(node: RadixTreeNode)
      modifies this`evictableSize, this`protectedSize, node`refCount
      ensures node.refCount == old(node.refCount) + 1
      ensures evictableSize == old(evictableSize) - (if old(node.refCount) == 0 then |node.key| else 0)
      ensures protectedSize == old(protectedSize) + (if old(node.refCount) == 0 then |node.key| else 0)
    {
      if node.refCount == 0 {
        evictableSize := evictableSize - |node.key|;
        protectedSize := protectedSize + |node.key|;
      }
      node.refCount := node.refCount + 1;
    }

    /** One step of the unlocking walk; the count must not go below zero. */
    method Unpin(node: RadixTreeNode)
      requires node.refCount >= 1
      modifies this`evictableSize, this`protectedSize, node`refCount
      ensures node.refCount == old(node.refCount) - 1
      ensures evictableSize == old(evictableSize) + (if node.refCount == 0 then |node.key| else 0)
      ensures protectedSize == old(protectedSize) - (if node.refCount == 0 then |node.key| else 0)
    {
      node.refCount := node.refCount - 1;
      if node.refCount == 0 {
        evictableSize := evictableSize + |node.key|;
        protectedSize := protectedSize - |node.key|;
      }
    }

    method PinPath(h: Handle)
      requires Valid() && h.node in nodes
      modifies this`evictableSize, this`protectedSize, nodes`refCount
      ensures Snap(nodes) == Marked(old(Snap(nodes)), Chain(old(Snap(nodes)), h.node), 1)
      ensures evictableSize + Along(old(Snap(nodes)), h.node, 0) == old(evictableSize)
      ensures protectedSize - Along(old(Snap(nodes)), h.node, 0) == old(protectedSize)
    {
      hide Along, Chain, WF, RefExact, Size;
      var node := h.node;
      ghost var t := Snap(nodes);
      ghost var passed: set<RadixTreeNode> := {};
      while node.parent != null
        invariant node in nodes
        invariant passed + Chain(t, node) == Chain(t, h.node)
        invariant forall n | n in passed :: |node.path| < |n.path|
        invariant forall n {:trigger n.refCount} | n in nodes ::
                    n.refCount == t[n].ref + (if n in passed then 1 else 0)
        invariant evictableSize + Along(t, h.node, 0) == old(evictableSize) + Along(t, node, 0)
        invariant protectedSize - Along(t, h.node, 0) == old(protectedSize) - Along(t, node, 0)
        decreases |node.path|
      {
        WalkStep(t, root, pageSize, node);
        Pin(node);
        passed := passed + {node};
        node := node.parent;
      }
      WalkStep(t, root, pageSize, node);
      WalkedHeap(t, nodes, passed, 1);
    }

    /** Locks a handle for holder `u`: one more count on every node of its path. */
    method Lock(h: Handle, ghost u: int)
      requires Valid() && h.node in nodes && u !in held
      modifies this`evictableSize, this`protectedSize, this`held, nodes`refCount
      ensures Valid() && held == old(held)[u := h.node] && nodes == old(nodes) && LastUses() == old(LastUses())
    {
      hide WF, RefExact, Chain, Along, Marked, Size, UsesOf;
      ghost var t := Snap(nodes);
      PinPath(h);
      LockedInv(t, root, pageSize, held, h.node, u, Snap(nodes), evictableSize, protectedSize);
      MarkedUses(t, root, pageSize, Chain(t, h.node), 1);
      held := held[u := h.node];
    }

    method UnpinPath(h: Handle, ghost u: int)
      requires Valid() && u in held && held[u] == h.node
      modifies this`evictableSize, this`protectedSize, nodes`refCount
      ensures Snap(nodes) == Marked(old(Snap(nodes)), Chain(old(Snap(nodes)), h.node), -1)
      ensures evictableSize - Along(old(Snap(nodes)), h.node, 1) == old(evictableSize)
      ensures protectedSize + Along(old(Snap(nodes)), h.node, 1) == old(protectedSize)
    {
      hide Along, Chain, WF, RefExact, Size;
      var node := h.node;
      ghost var t := Snap(nodes);
      assert held[u] in held.Values;
      HeldNodes(t, root, held);
      ghost var passed: set<RadixTreeNode> := {};
      while node.parent != null
        invariant node in nodes
        invariant passed + Chain(t, node) == Chain(t, h.node)
        invariant forall n | n in passed :: |node.path| < |n.path|
        invariant forall n {:trigger n.refCount} | n in nodes ::
                    n.refCount == t[n].ref + (if n in passed then -1 else 0)
        invariant evictableSize - Along(t, h.node, 1) == old(evictableSize) - Along(t, node, 1)
        invariant protectedSize + Along(t, h.node, 1) == old(protectedSize) + Along(t, node, 1)
        decreases |node.path|
      {
        WalkStep(t, root, pageSize, node);
        HeldOnChain(t, root, pageSize, held, u, node);
        Unpin(node);
        passed := passed + {node};
        node := node.parent;
      }
      WalkStep(t, root, pageSize, node);
      WalkedHeap(t, nodes, passed, -1);
    }

    /** Unlocks a handle of holder `u`: one count less on every node of its path, never below zero. */
    method Unlock(h: Handle, ghost u: int)
      requires Valid() && u in held && held[u] == h.node
      modifies this`evictableSize, this`protectedSize, this`held, nodes`refCount
      ensures Valid() && held == old(held) - {u} && nodes == old(nodes) && LastUses() == old(LastUses())
    {
      hide WF, Chain, Along, Marked, Size, UsesOf;
      ghost var t := Snap(nodes);
      assert held[u] in held.Values;
      UnpinPath(h, u);
      UnlockedInv(t, root, pageSize, held, u, Snap(nodes), evictableSize, protectedSize);
      MarkedUses(t, root, pageSize, Chain(t, held[u]), -1);
      held := held - {u};
    }

    // ---- walking down

    method Touch(n: RadixTreeNode, tic: int)
      requires Valid() && n in nodes && n != root
      modifies n`timestamp
      ensures Valid() && n.timestamp == tic
      ensures n.parent != null && LastUses() == Touched(old(LastUses()), Store().Keys, |n.parent.path|, n.path, tic)
      ensures old(ClockOk(Snap(nodes), root, tic) && FreshTo(Snap(nodes), root, n.parent, tic)) ==>
                ClockOk(Snap(nodes), root, tic)
    {
      ghost var t := Snap(nodes);
      n.timestamp := tic;
      SnapWrite(t, nodes, n);
      TouchKeeps(t, Snap(nodes), root, pageSize, held, evictableSize, protectedSize, n, tic);
      NodeFacts(t, root, pageSize, held, evictableSize, protectedSize, n);
      TouchUses(t, Snap(nodes), root, pageSize, n, tic);
      TouchClock(t, Snap(nodes), root, pageSize, n, tic);
    }

    method Split(c: RadixTreeNode, pos: nat, ghost now: int) returns (nn: RadixTreeNode)
      requires Valid() && c in nodes && c != root && 0 < pos < |c.key| && Aligned(pos, pageSize)
      modifies this`nodes, nodes
      ensures Valid() && fresh(nn) && nodes == old(nodes) + {nn} && held == old(held)
      ensures evictableSize == old(evictableSize) && protectedSize == old(protectedSize)
      ensures IsSplit(old(Snap(nodes)), Snap(nodes), root, c, nn, pos, pageSize)
      ensures Store() == old(Store()) && LastUses() == old(LastUses())
      ensures old(ClockOk(Snap(nodes), root, now)) ==> ClockOk(Snap(nodes), root, now)
    {
      hide Inv, WF, StoreOf, ClockOk, IsSplit;
      ghost var t := Snap(nodes);
      InvWF(t, root, pageSize, held, evictableSize, protectedSize);
      NodeOf(t, root, pageSize, c);
      nn := c.SplitAt(pos);
      nodes := nodes + {nn};
      SplitHeap(t, old(nodes), nodes, root, pageSize, held, evictableSize, protectedSize, c, nn, pos, now);
      InvWF(Snap(nodes), root, pageSize, held, evictableSize, protectedSize);
      SplitUses(t, Snap(nodes), root, pageSize, c, nn, pos);
    }

    /** Where the walk for `ids` ends, and that nothing longer is stored. */
    ghost predicate WalkEnd(node: RadixTreeNode, prefixLen: nat, ids: seq<int>)
      reads this, nodes
    {
      && node in nodes && node.path <= ids && prefixLen == |node.path|
      && (prefixLen == |ids| || KeyFn(ids[prefixLen..], pageSize) !in node.children)
    }

    /** Splits the child that the input leaves inside; the walk ends at the upper half. */
    method SplitInside(node: RadixTreeNode, child: RadixTreeNode, ids: seq<int>, pos: nat, ghost now: int)
      returns (next: RadixTreeNode)
      requires Valid() && node in nodes && node.path <= ids && |node.path| < |ids|
      requires KeyFn(ids[|node.path|..], pageSize) in node.children
      requires child == node.children[KeyFn(ids[|node.path|..], pageSize)] && child in nodes && child != root
      requires pos == AlignDown(FirstMismatch(child.key, ids[|node.path|..]), pageSize) && 0 < pos < |child.key|
      modifies this`nodes, nodes
      ensures Valid() && held == old(held) && nodes == old(nodes) + {next} && fresh(next)
      ensures evictableSize == old(evictableSize) && protectedSize == old(protectedSize) && Store() == old(Store())
      ensures WalkEnd(next, |node.path| + pos, ids) && next != root && LastUses() == old(LastUses())
      ensures next.parent == node && node.timestamp == old(node.timestamp)
      ensures old(ClockOk(Snap(nodes), root, now)) ==> ClockOk(Snap(nodes), root, now)
    {
      hide Inv, WF, StoreOf, ClockOk, FirstMismatch, AlignDown, IsSplit, KeyFn;
      ghost var t := Snap(nodes);
      InvWF(t, root, pageSize, held, evictableSize, protectedSize);
      MatchFacts(t, root, pageSize, node, ids);
      next := Split(child, pos, now);
      SplitEnd(t, Snap(nodes), root, pageSize, node, child, next, ids, pos);
    }

    /** Steps into the child filed under the next page, splitting it when the input leaves it inside. */
    method StepInto(node: RadixTreeNode, ids: seq<int>, at: nat, tic: int)
      returns (next: RadixTreeNode, prefixLen: nat, ended: bool)
      requires Valid() && node in nodes && node.path <= ids && |node.path| == at < |ids|
      requires KeyFn(ids[at..], pageSize) in node.children
      modifies this`nodes, nodes
      ensures Valid() && held == old(held)
      ensures evictableSize == old(evictableSize) && protectedSize == old(protectedSize)
      ensures old(nodes) <= nodes && fresh(nodes - old(nodes)) && Store() == old(Store())
      ensures next in nodes && next.path <= ids && at < |next.path| == prefixLen
      ensures ended ==> WalkEnd(next, prefixLen, ids)
      ensures next.timestamp == tic
      ensures LastUses() == Touched(old(LastUses()), Store().Keys, at, next.path, tic)
      ensures old(ClockOk(Snap(nodes), root, tic) && FreshTo(Snap(nodes), root, node, tic)) ==>
                ClockOk(Snap(nodes), root, tic)
    {
      hide Inv, WF, StoreOf, ClockOk, FirstMismatch, AlignDown, KeyFn, UsesOf, Touched;
      ghost var t := Snap(nodes);
      InvWF(t, root, pageSize, held, evictableSize, protectedSize);
      var child := node.children[KeyFn(ids[at..], pageSize)];
      MatchFacts(t, root, pageSize, node, ids);
      var matchLen := AlignDown(FirstMismatch(child.key, ids[at..]), pageSize);
      prefixLen := at + matchLen;
      ended := matchLen != |child.key|;
      if ended {
        next := SplitInside(node, child, ids, matchLen, tic);
      } else {
        next := child;
      }
      Touch(next, tic);
    }

    /** Walks down along `ids` as far as whole pages are stored. */
    method TreeWalk(ids: seq<int>, tic: int) returns (node: RadixTreeNode, prefixLen: nat)
      requires Valid()
      modifies this`nodes, nodes
      ensures Valid() && held == old(held)
      ensures evictableSize == old(evictableSize) && protectedSize == old(protectedSize)
      ensures old(nodes) <= nodes && fresh(nodes - old(nodes)) && Store() == old(Store())
      ensures WalkEnd(node, prefixLen, ids)
      ensures LastUses() == Touched(old(LastUses()), Store().Keys, 0, node.path, tic)
      ensures old(ClockOk(Snap(nodes), root, tic)) ==>
                ClockOk(Snap(nodes), root, tic) && FreshTo(Snap(nodes), root, node, tic)
    {
      hide Inv, StoreOf, ClockOk, KeyFn, UsesOf, Touched;
      node, prefixLen := root, 0;
      RootEmpty(Snap(nodes), root, pageSize, held, evictableSize, protectedSize);
      ghost var use := LastUses();
      TouchedNot(use, root.path, tic);
      while prefixLen < |ids|
        invariant Valid() && held == old(held)
        invariant evictableSize == old(evictableSize) && protectedSize == old(protectedSize)
        invariant old(nodes) <= nodes && fresh(nodes - old(nodes)) && Store() == old(Store())
        invariant node in nodes && node.path <= ids && prefixLen == |node.path|
        invariant LastUses() == Touched(use, Store().Keys, 0, node.path, tic)
        invariant old(ClockOk(Snap(nodes), root, tic)) ==>
                    ClockOk(Snap(nodes), root, tic) && FreshTo(Snap(nodes), root, node, tic)
      {
        if KeyFn(ids[prefixLen..], pageSize) !in node.children {
          return;
        }
        ghost var at := node.path;
        var ended;
        node, prefixLen, ended := StepInto(node, ids, prefixLen, tic);
        TouchedOn(use, Store().Keys, Store().Keys, at, node.path, tic);
        if ended {
          return;
        }
      }
    }

    /** The longest stored page-aligned prefix of `ids`, as a handle. Splitting may reshape the tree, but the prefix
    map, the sizes and the locks stay as they are. */
    method MatchPrefix(ids: seq<int>, tic: int) returns (h: Handle)
      requires Valid()
      modifies this`nodes, nodes
      ensures Valid() && held == old(held) && Store() == old(Store())
      ensures evictableSize == old(evictableSize) && protectedSize == old(protectedSize)
      ensures old(nodes) <= nodes && fresh(nodes - old(nodes))
      ensures HandleOk(h) && h.cachedLen == LongestMatch(Store(), ids, pageSize) && h.node.path == ids[..h.cachedLen]
      ensures LastUses() == Touched(old(LastUses()), Store().Keys, 0, h.node.path, tic)
      ensures old(ClockOk(Snap(nodes), root, tic)) ==> ClockOk(Snap(nodes), root, tic)
    {
      hide Inv, StoreOf, ClockOk, KeyFn, UsesOf, Touched, LongestMatch;
      var node, prefixLen := TreeWalk(ids, tic);
      InvWF(Snap(nodes), root, pageSize, held, evictableSize, protectedSize);
      NoChildNoMore(Snap(nodes), root, pageSize, node, ids);
      assert Snap(nodes).Keys == nodes;
      h := Handle(prefixLen, node);
    }

    method FileLeaf(node: RadixTreeNode, key: seq<int>, value: seq<int>, tic: int) returns (nn: RadixTreeNode)
      requires |value| == |key|
      modifies node`children
      ensures fresh(nn) && nn.pageSize == pageSize
      ensures nn.path == node.path + key && nn.slots == node.slots + value
      ensures nn.View() == Rec(node, map[], key, value, 0, tic)
      ensures node.children == old(node.children)[KeyFn(key, pageSize) := nn]
    {
      nn := new RadixTreeNode(pageSize, tic, node.path + key, node.slots + value);
      nn.SetKeyValue(key, value);
      nn.SetParent(node);
    }

    method AddLeaf(node: RadixTreeNode, key: seq<int>, value: seq<int>, tic: int) returns (nn: RadixTreeNode)
      requires Valid() && node in nodes && key != [] && Aligned(|key|, pageSize) && |value| == |key|
      requires KeyFn(key, pageSize) !in node.children
      modifies this`nodes, this`evictableSize, node`children
      ensures Valid() && held == old(held) && fresh(nn) && nodes == old(nodes) + {nn}
      ensures nn.path == node.path + key && nn.slots == node.slots + value && |nn.path| == |nn.slots|
      ensures Store() == old(Store()) + Run(nn.path, nn.slots, |node.path|, |nn.path|, pageSize)
      ensures evictableSize == old(evictableSize) + |key|
      ensures LastUses() == Touched(old(LastUses()), Store().Keys, |node.path|, nn.path, tic)
      ensures old(ClockOk(Snap(nodes), root, tic) && FreshTo(Snap(nodes), root, node, tic)) ==>
                ClockOk(Snap(nodes), root, tic)
    {
      hide Inv, WF, StoreOf, ClockOk, FreshTo, KeyFn, Run, UsesOf, Touched, IsAddLeaf;
      ghost var t := Snap(nodes);
      nn := FileLeaf(node, key, value, tic);
      evictableSize := evictableSize + |nn.key|;
      nodes := nodes + {nn};
      LeafHeap(t, old(nodes), nodes, root, pageSize, held, old(evictableSize), protectedSize, node, nn, key, value,
        tic);
      InvWF(t, root, pageSize, held, old(evictableSize), protectedSize);
      InvWF(Snap(nodes), root, pageSize, held, evictableSize, protectedSize);
      AddLeafUses(t, Snap(nodes), root, pageSize, node, nn, key, value, tic);
    }

    /** Files what the walk did not find stored. */
    method Attach(node: RadixTreeNode, ids: seq<int>, indices: seq<int>, at: nat, tic: int) returns (end: RadixTreeNode)
      requires Valid() && |ids| == |indices| && Aligned(|ids|, pageSize) && WalkEnd(node, at, ids)
      modifies this`nodes, this`evictableSize, node`children
      ensures Valid() && held == old(held)
      ensures old(nodes) <= nodes && fresh(nodes - old(nodes))
      ensures at == LongestMatch(old(Store()), ids, pageSize)
      ensures end in nodes && end.path == ids
      ensures Store() == Inserted(old(Store()), ids, indices, pageSize)
      ensures LastUses() == Touched(old(LastUses()), Store().Keys, at, ids, tic)
      ensures old(ClockOk(Snap(nodes), root, tic) && FreshTo(Snap(nodes), root, node, tic)) ==>
                ClockOk(Snap(nodes), root, tic)
    {
      hide Inv, WF, StoreOf, ClockOk, FreshTo, Run, UsesOf, Touched, Inserted, LongestMatch, KeyFn;
      InvWF(Snap(nodes), root, pageSize, held, evictableSize, protectedSize);
      InsertPoint(Snap(nodes), nodes, root, pageSize, node, ids, indices, at);
      if at == |ids| {
        TouchedNot(LastUses(), ids, tic);
        end := node;
      } else {
        end := AddLeaf(node, ids[at..], indices[at..], tic);
      }
    }

    method InsertAligned(ids: seq<int>, indices: seq<int>, tic: int) returns (prefixLen: nat, node: RadixTreeNode)
      requires Valid() && |ids| == |indices| && Aligned(|ids|, pageSize)
      modifies this`nodes, this`evictableSize, nodes
      ensures Valid() && held == old(held) && protectedSize == old(protectedSize)
      ensures old(nodes) <= nodes && fresh(nodes - old(nodes))
      ensures prefixLen == LongestMatch(old(Store()), ids, pageSize)
      ensures node in nodes && node.path == ids
      ensures Store() == Inserted(old(Store()), ids, indices, pageSize)
      ensures LastUses() == Touched(old(LastUses()), Store().Keys, 0, ids, tic)
      ensures old(ClockOk(Snap(nodes), root, tic)) ==> ClockOk(Snap(nodes), root, tic)
    {
      hide Inv, StoreOf, ClockOk, FreshTo, Inserted, KeyFn, UsesOf, Touched, LongestMatch;
      ghost var use, keys := LastUses(), Store().Keys;
      node, prefixLen := TreeWalk(ids, tic);
      ghost var at := node.path;
      node := Attach(node, ids, indices, prefixLen, tic);
      InsertedShort(old(Store()), ids, indices, pageSize, at);
      TouchedOn(use, keys, Store().Keys, at, ids, tic);
    }

    /** Stores the whole pages of `ids`: the part already stored keeps its slots, the rest takes those of `indices`. */
    method InsertPrefix(ids: seq<int>, indices: seq<int>, tic: int) returns (cachedLen: nat, h: Handle)
      requires Valid() && AlignDown(|ids|, pageSize) <= |indices|
      modifies this`nodes, this`evictableSize, nodes
      ensures Valid() && held == old(held) && protectedSize == old(protectedSize)
      ensures old(nodes) <= nodes && fresh(nodes - old(nodes))
      ensures var a := ids[..AlignDown(|ids|, pageSize)];
              && cachedLen == LongestMatch(old(Store()), a, pageSize)
              && HandleOk(h) && h.cachedLen == |a| && h.node.path == a
              && Store() == Inserted(old(Store()), a, indices[..|a|], pageSize)
              && LastUses() == Touched(old(LastUses()), Store().Keys, 0, a, tic)
      ensures old(ClockOk(Snap(nodes), root, tic)) ==> ClockOk(Snap(nodes), root, tic)
    {
      var insertLen := AlignDown(|ids|, pageSize);
      var node;
      cachedLen, node := InsertAligned(ids[..insertLen], indices[..insertLen], tic);
      h := Handle(insertLen, node);
    }

    // ---- reading a handle

    /** The slots along a handle's path, gathered from the node upwards. While the handle's node is in the tree they are
    the node's constant `slots`, whatever splits, insertions and evictions happened meanwhile. */
    method GetMatchedIndices(h: Handle) returns (r: seq<int>)
      requires Valid() && h.node in nodes
      ensures r == h.node.slots && |r| == |h.node.path|
    {
      var node := h.node;
      var values: seq<seq<int>> := [];
      ghost var t := Snap(nodes);
      SlotsStep(t, root, pageSize, node);
      while node.parent != null
        invariant node in nodes && h.node.slots == node.slots + CatReversed(values)
        decreases |node.path|
      {
        SlotsStep(t, root, pageSize, node);
        CatMore(values, node.value);
        values := values + [node.value];
        node := node.parent;
      }
      SlotsStep(t, root, pageSize, node);
      NodeSized(t, root, pageSize, h.node);
      r := CatReversed(values);
    }

    // ---- eviction

    method ChildList(node: RadixTreeNode) returns (cs: seq<RadixTreeNode>)
      requires Valid() && node in nodes
      ensures Distinct(cs) && forall c :: c in cs <==> c in node.children.Values
    {
      cs := [];
      var ks := node.children.Keys;
      ghost var done: set<seq<int>> := {};
      while ks != {}
        invariant done + ks == node.children.Keys && done !! ks && Distinct(cs)
        invariant forall c | c in cs :: exists k :: k in done && node.children[k] == c
        invariant forall k | k in done :: node.children[k] in cs
        decreases |ks|
      {
        var k :| k in ks;
        forall j | j in done
          ensures node.children[j] != node.children[k]
        {
          ChildrenDistinct(Snap(nodes), root, pageSize, node, j, k);
        }
        done := done + {k};
        DistinctConcat(cs, [node.children[k]]);
        cs := cs + [node.children[k]];
        ks := ks - {k};
      }
    }

    /** All leaves with count zero, by a depth-first visit with an explicit stack. */
    method CollectLeaves() returns (leaves: seq<RadixTreeNode>)
      requires Valid()
      ensures Distinct(leaves) && forall n :: n in leaves <==> EvictableLeaf(Snap(nodes), n)
    {
      var stack: seq<RadixTreeNode> := [root];
      leaves := [];
      ghost var t := Snap(nodes);
      ghost var visited: set<RadixTreeNode> := {};
      VisitStart(t, root, pageSize);
      while stack != []
        invariant Visit(t, root, visited, stack, leaves)
        decreases t.Keys - visited
      {
        ghost var stack0, leaves0 := stack, leaves;
        VisitTop(t, root, visited, stack, leaves);
        var node := stack[|stack| - 1];
        var cs := ChildList(node);
        stack := stack[..|stack| - 1];
        if node.IsLeaf() {
          if node.refCount == 0 {
            leaves := leaves + [node];
          }
        } else {
          stack := stack + cs;
        }
        VisitStep(t, root, pageSize, visited, stack0, leaves0, node, cs, stack, leaves);
        visited := visited + {node};
      }
      VisitEnd(t, root, pageSize, visited, leaves);
    }

    /** The entry popped from the heap: any one with the least time. */
    method PopOldest(heap: set<RadixTreeNode>) returns (node: RadixTreeNode)
      requires heap != {}
      ensures node in heap && forall m | m in heap :: node.timestamp <= m.timestamp
    {
      OldestExists(heap);
      node :| node in heap && forall m | m in heap :: node.timestamp <= m.timestamp;
    }

    /** Removes one evictable leaf. */
    method RemoveLeaf(node: RadixTreeNode, parent: RadixTreeNode)
      requires Valid() && node in nodes && node != root && node.children == map[] && node.refCount == 0
      requires node.parent == parent && parent in nodes
      modifies this`nodes, this`evictableSize, parent`children
      ensures Valid() && held == old(held) && nodes == old(nodes) - {node}
      ensures evictableSize == old(evictableSize) - |node.key| && |node.key| == |node.value| > 0
      ensures EvictOk(old(Store()), Store(), Held(), node.value, pageSize)
      ensures IsRemoveLeaf(old(Snap(nodes)), Snap(nodes), root, node, pageSize)
      ensures parent in nodes && parent != node
    {
      hide Inv, StoreOf, EvictOk, HeldPaths, IsRemoveLeaf, KeyFn;
      ghost var t := Snap(nodes);
      NodeFacts(t, root, pageSize, held, evictableSize, protectedSize, node);
      evictableSize := evictableSize - |node.key|;
      parent.children := parent.children - {KeyFn(node.key, pageSize)};
      nodes := nodes - {node};
      RemoveHeap(t, old(nodes), nodes, root, pageSize, held, old(evictableSize), protectedSize, node);
      assert root in nodes;
      assert Inv(Snap(nodes), root, pageSize, held, evictableSize, protectedSize);
    }

    /** Evicts at least `size` slots, oldest leaves first. The assertions of the loop hold: the heap never runs empty,
    and what is popped is an unlocked leaf. */
    method Evict(size: nat) returns (evicted: seq<int>)
      requires Valid() && size <= evictableSize
      modifies this`nodes, this`evictableSize, nodes`children
      ensures Valid() && held == old(held) && nodes <= old(nodes)
      ensures |evicted| >= size && |evicted| == old(evictableSize) - evictableSize
      ensures size == 0 ==> evicted == []
      ensures size > 0 ==> exists n :: n in old(nodes) && n !in nodes && LastNeeded(evicted, n.value, size)
      ensures EvictOk(old(Store()), Store(), Held(), evicted, pageSize)
      ensures LastUses() == Rest(old(LastUses()), Store().Keys)
      ensures old(Ordered(Snap(nodes), root)) ==> LeastRecent(old(LastUses()), old(Store()), Store(), Held())
    {
      hide Inv, StoreOf, EvictOk, HeldPaths, UsesOf, Evicting, LeastRecent, Ordered, Rest;
      evicted := [];
      EvictNothing(Store(), Held(), pageSize);
      if size == 0 {
        NoEviction(LastUses(), Store(), Held());
        return;
      }
      ghost var t0 := Snap(nodes);
      var leaves := CollectLeaves();
      var heap := set n | n in leaves;
      EvictStart(t0, root, leaves);
      var evictedSize := 0;
      ghost var node := root;
      while evictedSize < size
        invariant Valid() && held == old(held) && nodes <= old(nodes)
        invariant evictedSize > 0 ==> node in old(nodes) && node !in nodes && LastNeeded(evicted, node.value, size)
        invariant Evicting(t0, Snap(nodes), root, heap)
        invariant evictedSize == |evicted| == old(evictableSize) - evictableSize
        invariant EvictOk(old(Store()), Store(), Held(), evicted, pageSize)
        decreases evictableSize
      {
        ghost var s := Store();
        var value;
        value, heap, node := EvictOldest(heap, t0);
        EvictMore(old(Store()), s, Store(), Held(), evicted, value, pageSize);
        evictedSize := evictedSize + |value|;
        evicted := evicted + value;
      }
      assert t0.Keys == old(nodes) && Snap(nodes).Keys == nodes;
      EvictEnds(t0, Snap(nodes), root, pageSize, held, heap, old(evictableSize), evictableSize, protectedSize,
                old(protectedSize));
    }

    method IsEvictableLeaf(n: RadixTreeNode) returns (b: bool)
      requires n in nodes
      ensures b <==> EvictableLeaf(Snap(nodes), n)
    {
      b := n.IsLeaf() && n.refCount == 0;
    }

    /** One turn of the eviction loop. */
    method EvictOldest(heap: set<RadixTreeNode>, ghost t0: Tree)
      returns (value: seq<int>, heap': set<RadixTreeNode>, ghost oldest: RadixTreeNode)
      requires Valid() && evictableSize > 0 && Evicting(t0, Snap(nodes), root, heap)
      modifies this`nodes, this`evictableSize, nodes`children
      ensures Valid() && held == old(held) && nodes <= old(nodes)
      ensures Evicting(t0, Snap(nodes), root, heap')
      ensures |value| > 0 && evictableSize == old(evictableSize) - |value|
      ensures oldest in old(nodes) && oldest !in nodes && oldest.value == value
      ensures EvictOk(old(Store()), Store(), Held(), value, pageSize)
    {
      ghost var t := Snap(nodes);
      ghost var l := EvictableExists(t, root, pageSize, held);
      var node := PopOldest(heap);
      oldest := node;
      LeafFacts(t, root, pageSize, node);
      value := node.value;
      var parent: RadixTreeNode := node.parent;
      RemoveLeaf(node, parent);
      var push := IsEvictableLeaf(parent);
      heap' := if push then heap - {node} + {parent} else heap - {node};
      EvictStep(t0, t, Snap(nodes), root, pageSize, held, heap, node, parent, push, heap');
    }
  }

  /** An eviction that ends with the slots `value` of one node, and had not freed `size` slots before it. */
  predicate LastNeeded(evicted: seq<int>, value: seq<int>, size: int) {
    |value| <= |evicted| && evicted[|evicted| - |value|..] == value && |evicted| - |value| < size
  }

  lemma {:induction false} OldestExists(heap: set<RadixTreeNode>)
    requires heap != {}
    ensures exists n :: n in heap && forall m | m in heap :: n.timestamp <= m.timestamp
    decreases |heap|
  {
    var n :| n in heap;
    if heap - {n} == {} {
      assert heap == {n};
      assert forall m | m in heap :: n.timestamp <= m.timestamp;
    } else {
      OldestExists(heap - {n});
      var k :| k in heap - {n} && forall m | m in heap - {n} :: k.timestamp <= m.timestamp;
      var o := if k.timestamp <= n.timestamp then k else n;
      assert o in heap && forall m | m in heap :: o.timestamp <= m.timestamp by {
        forall m | m in heap
          ensures o.timestamp <= m.timestamp
        {
          assert m == n || m in heap - {n};
        }
      }
    }
  }

  /** The concatenation of a list of slot sequences, last one first. */
  function CatReversed(values: seq<seq<int>>): seq<int> {
    if values == [] then [] else values[|values| - 1] + CatReversed(values[..|values| - 1])
  }

  lemma {:induction false} CatMore(values: seq<seq<int>>, v: seq<int>)
    ensures CatReversed(values + [v]) == v + CatReversed(values)
  {
    assert (values + [v])[..|values|] == values;
  }
}
