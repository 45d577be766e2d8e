/** When each stored prefix was last used. The tree records one time a node; read off by prefix, a walk or an insertion
renews exactly the prefixes of the path it used, and an eviction takes those used longest ago. */
module RadixUse {
  import opened Paging
  import opened PrefixStore
  import opened RadixTree
  import opened RadixOps
  import opened RadixStore

  /** The last use of every stored prefix. */
  type Uses = map<seq<int>, int>

  /** The time of the node that owns `p`. */
  ghost function UseAt(t: Tree, root: RadixTreeNode, p: seq<int>): int {
    if exists n :: n in t && Owns(t, root, n, p) then
      var n :| n in t && Owns(t, root, n, p);
      t[n].ts
    else 0
  }

  ghost function UsesOf(t: Tree, root: RadixTreeNode, ps: Pos): (r: Uses)
    ensures r.Keys == StoreOf(t.Keys, ps).Keys
  {
    map p | p in StoredPrefixes(t.Keys, ps) :: UseAt(t, root, p)
  }

  /** The uses after the prefixes of `path` longer than `lo` were used at time `tic`, for the stored prefixes `keys`. */
  ghost function Touched(use: Uses, keys: set<seq<int>>, lo: nat, path: seq<int>, tic: int): Uses {
    map p | p in keys :: if lo < |p| && p <= path then tic else if p in use then use[p] else 0
  }

  /** Using a path and then its continuation is using the whole. */
  lemma {:induction false} TouchedOn(use: Uses, keys: set<seq<int>>, keys': set<seq<int>>, a: seq<int>, b: seq<int>,
                                     tic: int)
    requires a <= b && use.Keys <= keys && forall p | p in keys' && p <= a :: p in keys
    ensures Touched(Touched(use, keys, 0, a, tic), keys', |a|, b, tic) == Touched(use, keys', 0, b, tic)
  {
    forall p | p in keys' && p <= b && |p| <= |a|
      ensures p <= a
    {
      assert p == b[..|p|] == a[..|p|];
    }
  }

  lemma {:induction false} TouchedNot(use: Uses, path: seq<int>, tic: int)
    ensures Touched(use, use.Keys, |path|, path, tic) == use
  {
  }

  /** Prefixes gone, the others as they were. */
  ghost function Rest(use: Uses, keys: set<seq<int>>): Uses {
    map p | p in use && p in keys :: use[p]
  }

  /** Nothing evicted was used later than something unprotected that stays. */
  ghost predicate LeastRecent(use: Uses, s: Store, s': Store, held: map<int, seq<int>>) {
    forall p, q {:trigger use[p], use[q]} |
      p in use && q in use && p in s && p !in s' && q in s' && q !in Protected(s, held) :: use[p] <= use[q]
  }

  lemma {:induction false} InsertedShort(s: Store, ids: seq<int>, indices: seq<int>, ps: Pos, a: seq<int>)
    requires |a| == LongestMatch(s, ids, ps)
    ensures forall p | p in Inserted(s, ids, indices, ps).Keys && p <= a :: p in s.Keys
  {
    hide LongestMatch, SlotsOf, From;
  }

  lemma {:induction false} NoEviction(use: Uses, s: Store, held: map<int, seq<int>>)
    requires use.Keys == s.Keys
    ensures Rest(use, s.Keys) == use && LeastRecent(use, s, s, held)
  {
  }

  // ---- reading the uses off the tree

  lemma {:induction false} UseIs(t: Tree, root: RadixTreeNode, ps: Pos, n: RadixTreeNode, p: seq<int>)
    requires WF(t, root, ps) && Owns(t, root, n, p) && 0 < |p| && Aligned(|p|, ps)
    ensures p in UsesOf(t, root, ps) && UsesOf(t, root, ps)[p] == t[n].ts
  {
    hide WF, Aligned;
    assert n in t.Keys && p <= n.path;
    var m :| m in t && Owns(t, root, m, p) && UseAt(t, root, p) == t[m].ts;
    OwnerUnique(t, root, ps, n, m, p);
  }

  lemma {:induction false} OwnerOf(t: Tree, root: RadixTreeNode, ps: Pos, p: seq<int>) returns (n: RadixTreeNode)
    requires WF(t, root, ps) && p in UsesOf(t, root, ps)
    ensures Owns(t, root, n, p) && 0 < |p| && Aligned(|p|, ps) && UsesOf(t, root, ps)[p] == t[n].ts
  {
    hide WF, Aligned, Owns, UseAt;
    var m :| m in t.Keys && p <= m.path;
    n := OwnerExists(t, root, ps, m, p);
    UseIs(t, root, ps, n, p);
  }

  lemma {:induction false} UsesByNow(t: Tree, root: RadixTreeNode, ps: Pos, now: int)
    requires WF(t, root, ps) && ClockOk(t, root, now)
    ensures forall p | p in UsesOf(t, root, ps) :: UsesOf(t, root, ps)[p] <= now
  {
    hide WF, Aligned, UsesOf, StoreOf, Ordered;
    forall p | p in UsesOf(t, root, ps)
      ensures UsesOf(t, root, ps)[p] <= now
    {
      var n := OwnerOf(t, root, ps, p);
    }
  }

  /** Uses are known as soon as the owners are. */
  lemma {:induction false} UsesEq(t: Tree, t': Tree, root: RadixTreeNode, ps: Pos)
    requires WF(t, root, ps) && WF(t', root, ps) && t'.Keys == t.Keys
    requires forall n | n in t :: t'[n].ts == t[n].ts && t'[n].parent == t[n].parent
    ensures UsesOf(t', root, ps) == UsesOf(t, root, ps)
  {
    hide WF, Aligned, UsesOf, StoreOf, StoredPrefixes;
    forall p | p in UsesOf(t, root, ps)
      ensures UsesOf(t', root, ps)[p] == UsesOf(t, root, ps)[p]
    {
      var n := OwnerOf(t, root, ps, p);
      UseIs(t', root, ps, n, p);
    }
  }

  lemma {:induction false} MarkedUses(t: Tree, root: RadixTreeNode, ps: Pos, some: set<RadixTreeNode>, d: int)
    requires WF(t, root, ps) && WF(Marked(t, some, d), root, ps)
    ensures UsesOf(Marked(t, some, d), root, ps) == UsesOf(t, root, ps)
  {
    hide WF, UsesOf;
    UsesEq(t, Marked(t, some, d), root, ps);
  }

  lemma {:induction false} RootThere(t: Tree, root: RadixTreeNode, ps: Pos)
    requires WF(t, root, ps)
    ensures root in t
  {
  }

  /** A split leaves every use as it is. */
  lemma {:induction false} SplitUses(t: Tree, t': Tree, root: RadixTreeNode, ps: Pos, c: RadixTreeNode,
                                     nn: RadixTreeNode, pos: nat)
    requires WF(t, root, ps) && WF(t', root, ps) && IsSplit(t, t', root, c, nn, pos, ps)
    requires StoreOf(t'.Keys, ps) == StoreOf(t.Keys, ps)
    ensures UsesOf(t', root, ps) == UsesOf(t, root, ps)
  {
    hide WF, Aligned, UsesOf, StoreOf, StoredPrefixes, IsSplit, Owns;
    RootThere(t, root, ps);
    forall p | p in UsesOf(t, root, ps)
      ensures UsesOf(t', root, ps)[p] == UsesOf(t, root, ps)[p]
    {
      var n := OwnerOf(t, root, ps, p);
      SplitOwner(t, t', root, ps, c, nn, pos, n, p);
    }
  }

  lemma {:induction false} SplitOwner(t: Tree, t': Tree, root: RadixTreeNode, ps: Pos, c: RadixTreeNode,
                                      nn: RadixTreeNode, pos: nat, n: RadixTreeNode, p: seq<int>)
    requires WF(t', root, ps) && IsSplit(t, t', root, c, nn, pos, ps) && root in t
    requires Owns(t, root, n, p) && 0 < |p| && Aligned(|p|, ps)
    ensures p in UsesOf(t', root, ps) && UsesOf(t', root, ps)[p] == t[n].ts
  {
    hide WF, Aligned, KeyFn, UsesOf;
    if n == c && |p| <= |nn.path| {
      assert p == nn.path[..|p|];
      UseIs(t', root, ps, nn, p);
    } else {
      UseIs(t', root, ps, n, p);
    }
  }

  /** Renewing the time of a node uses the prefixes it owns. */
  lemma {:induction false} TouchUses(t: Tree, t': Tree, root: RadixTreeNode, ps: Pos, n: RadixTreeNode, tic: int)
    requires WF(t, root, ps) && WF(t', root, ps) && n in t && n != root && t' == t[n := t[n].(ts := tic)]
    requires t[n].parent != null
    ensures UsesOf(t', root, ps) == Touched(UsesOf(t, root, ps), StoreOf(t.Keys, ps).Keys, |t[n].parent.path|, n.path,
            tic)
  {
    hide WF, Aligned, UsesOf, StoreOf, StoredPrefixes;
    assert t'.Keys == t.Keys;
    forall p | p in UsesOf(t, root, ps)
      ensures UsesOf(t', root, ps)[p]
           == if |t[n].parent.path| < |p| && p <= n.path then tic else UsesOf(t, root, ps)[p]
    {
      var m := OwnerOf(t, root, ps, p);
      UseIs(t', root, ps, m, p);
      if Owns(t, root, n, p) {
        OwnerUnique(t, root, ps, n, m, p);
      }
    }
  }

  /** A new leaf brings its prefixes with its own time. */
  lemma {:induction false} AddLeafUses(t: Tree, t': Tree, root: RadixTreeNode, ps: Pos, q: RadixTreeNode,
                                       nn: RadixTreeNode, key: seq<int>, value: seq<int>, tic: int)
    requires WF(t, root, ps) && WF(t', root, ps) && IsAddLeaf(t, t', q, nn, key, value, tic, ps)
    ensures UsesOf(t', root, ps) == Touched(UsesOf(t, root, ps), StoreOf(t'.Keys, ps).Keys, |q.path|, nn.path, tic)
  {
    hide WF, Aligned, KeyFn, UsesOf, StoreOf, StoredPrefixes, IsAddLeaf;
    forall p | p in UsesOf(t', root, ps)
      ensures UsesOf(t', root, ps)[p]
           == if |q.path| < |p| && p <= nn.path then tic else if p in UsesOf(t, root, ps) then UsesOf(t, root, ps)[p]
             else 0
    {
      AddLeafUse(t, t', root, ps, q, nn, key, value, tic, p);
    }
  }

  lemma {:induction false} AddLeafUse(t: Tree, t': Tree, root: RadixTreeNode, ps: Pos, q: RadixTreeNode,
                                      nn: RadixTreeNode, key: seq<int>, value: seq<int>, tic: int, p: seq<int>)
    requires WF(t, root, ps) && WF(t', root, ps) && IsAddLeaf(t, t', q, nn, key, value, tic, ps)
    requires p in UsesOf(t', root, ps)
    ensures |q.path| < |p| && p <= nn.path ==> UsesOf(t', root, ps)[p] == tic
    ensures !(|q.path| < |p| && p <= nn.path) ==>
              p in UsesOf(t, root, ps) && UsesOf(t', root, ps)[p] == UsesOf(t, root, ps)[p]
  {
    hide WF, Aligned, KeyFn, UsesOf, StoreOf, StoredPrefixes;
    RootThere(t, root, ps);
    var n := OwnerOf(t', root, ps, p);
    if |q.path| < |p| && p <= nn.path {
      OwnerUnique(t', root, ps, n, nn, p);
    } else {
      assert n != nn;
      UseIs(t, root, ps, n, p);
    }
  }

  // ---- evicting

  lemma {:induction false} StayingUse(t0: Tree, t: Tree, root: RadixTreeNode, ps: Pos, p: seq<int>)
    returns (n: RadixTreeNode)
    requires WF(t0, root, ps) && WF(t, root, ps) && t.Keys <= t0.Keys && p in StoreOf(t.Keys, ps)
    requires forall m | m in t :: t[m].ts == t0[m].ts && t[m].parent == t0[m].parent
    ensures n in t && Owns(t0, root, n, p) && 0 < |p| && Aligned(|p|, ps)
    ensures p in UsesOf(t0, root, ps) && p in UsesOf(t, root, ps)
    ensures UsesOf(t, root, ps)[p] == UsesOf(t0, root, ps)[p] == t0[n].ts
  {
    hide WF, Aligned;
    n := OwnerOf(t, root, ps, p);
    UseIs(t0, root, ps, n, p);
  }

  /** The owner of an evicted prefix is gone. */
  lemma {:induction false} GoneOwner(t0: Tree, t: Tree, root: RadixTreeNode, ps: Pos, p: seq<int>)
    returns (n: RadixTreeNode)
    requires WF(t0, root, ps) && p in UsesOf(t0, root, ps) && p !in StoreOf(t.Keys, ps)
    ensures n in t0 && n !in t && UsesOf(t0, root, ps)[p] == t0[n].ts
  {
    hide WF, Aligned, UseAt;
    n := OwnerOf(t0, root, ps, p);
    assert n in t ==> n in t.Keys;
  }

  /** What an eviction leaves keeps its uses, and nothing that goes was used later than an unprotected prefix that
  stays. */
  lemma {:induction false} EvictedUses(t0: Tree, t: Tree, root: RadixTreeNode, ps: Pos, held: map<int, RadixTreeNode>)
    requires WF(t0, root, ps) && WF(t, root, ps) && RefExact(t0, root, held) && t.Keys <= t0.Keys
    requires forall n | n in t :: t[n].ts == t0[n].ts && t[n].parent == t0[n].parent
    ensures UsesOf(t, root, ps) == Rest(UsesOf(t0, root, ps), StoreOf(t.Keys, ps).Keys)
    ensures LruSoFar(t0, t, root) ==>
              LeastRecent(UsesOf(t0, root, ps), StoreOf(t0.Keys, ps), StoreOf(t.Keys, ps), HeldPaths(held))
  {
    hide WF, Aligned, RefExact, UsesOf, StoreOf, StoredPrefixes, Protected, HeldPaths;
    var use, s0, s := UsesOf(t0, root, ps), StoreOf(t0.Keys, ps), StoreOf(t.Keys, ps);
    forall p | p in s
      ensures p in use && UsesOf(t, root, ps)[p] == use[p]
    {
      var n := StayingUse(t0, t, root, ps, p);
    }
    if LruSoFar(t0, t, root) {
      forall p, q | p in use && q in use && p in s0 && p !in s && q in s && q !in Protected(s0, HeldPaths(held))
        ensures use[p] <= use[q]
      {
        var e := GoneOwner(t0, t, root, ps, p);
        var n := StayingUse(t0, t, root, ps, q);
        OwnerProtects(t0, root, ps, held, n, q);
      }
    }
  }

  lemma {:induction false} EvictStart(t: Tree, root: RadixTreeNode, leaves: seq<RadixTreeNode>)
    requires forall n :: n in leaves <==> EvictableLeaf(t, n)
    ensures Evicting(t, t, root, set n | n in leaves)
  {
  }

  /** What an eviction that went through its loop says of the uses. */
  lemma {:induction false} EvictEnds(t0: Tree, t: Tree, root: RadixTreeNode, ps: Pos, held: map<int, RadixTreeNode>,
                                     heap: set<RadixTreeNode>, ev0: int, ev: int, pr: int, pr0: int)
    requires Inv(t0, root, ps, held, ev0, pr0) && Inv(t, root, ps, held, ev, pr) && Evicting(t0, t, root, heap)
    ensures UsesOf(t, root, ps) == Rest(UsesOf(t0, root, ps), StoreOf(t.Keys, ps).Keys)
    ensures Ordered(t0, root) ==>
              LeastRecent(UsesOf(t0, root, ps), StoreOf(t0.Keys, ps), StoreOf(t.Keys, ps), HeldPaths(held))
  {
    hide WF, RefExact, UsesOf, StoreOf, LeastRecent, LruSoFar, Ordered, Size, HeldPaths;
    EvictedUses(t0, t, root, ps, held);
  }

  lemma {:induction false} RootEmpty(t: Tree, root: RadixTreeNode, ps: Pos, held: map<int, RadixTreeNode>, ev: int,
                                     pr: int)
    requires Inv(t, root, ps, held, ev, pr)
    ensures root.path == []
  {
  }
}
