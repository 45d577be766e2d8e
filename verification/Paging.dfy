/** Page arithmetic and token-sequence helpers shared by every layer.

A page size is a positive integer `ps`; positions and lengths that are multiples of `ps` are aligned. */
module Paging {

  type Pos = n: int | 0 < n witness 1

  /** `k` is a whole number of pages. Written by repeated subtraction, so that reasoning about it stays linear. */
  predicate Aligned(k: nat, ps: Pos)
    decreases k
  {
    k == 0 || (k >= ps && Aligned(k - ps, ps))
  }

  /** Rounds `a` up to a number of blocks of `b`. */
  function DivCeil(a: nat, b: Pos): nat
    decreases a
  {
    if a == 0 then 0 else 1 + DivCeil(if a >= b then a - b else 0, b)
  }

  /** The largest multiple of `b` that is at most `a`. */
  function AlignDown(a: nat, b: Pos): (r: nat)
    ensures r <= a < r + b
    ensures Aligned(r, b)
    decreases a
  {
    if a < b then 0 else b + AlignDown(a - b, b)
  }

  /** The smallest multiple of `b` that is at least `a`. */
  function AlignUp(a: nat, b: Pos): (r: nat)
    ensures a <= r < a + b
    ensures Aligned(r, b)
    decreases a
  {
    if a == 0 then 0 else b + AlignUp(if a >= b then a - b else 0, b)
  }

  // ---- the same by division and remainder

  lemma {:induction false} AlignedIsMod(k: nat, b: Pos)
    ensures Aligned(k, b) <==> k % b == 0
    decreases k
  {
    if k >= b {
      AlignedIsMod(k - b, b);
      ModUnique(k - b, b, (k - b) / b, (k - b) % b);
      assert (k - b) / b * b + b == ((k - b) / b + 1) * b;
      ModUnique(k, b, (k - b) / b + 1, (k - b) % b);
    } else {
      ModUnique(k, b, 0, k);
    }
  }

  /** Rounding down by division. */
  lemma {:induction false} AlignDownIsDivision(a: nat, b: Pos)
    ensures AlignDown(a, b) == a / b * b
    decreases a
  {
    if a >= b {
      AlignDownIsDivision(a - b, b);
      var q := (a - b) / b;
      DivisionFacts(a - b, b);
      NextMultiple(q, b);
      ModUnique(a, b, q + 1, a - (q + 1) * b);
    } else {
      ModUnique(a, b, 0, a);
    }
  }

  /** Rounding up by division: as many blocks as needed, and so many times their size. */
  lemma {:induction false} DivCeilIsDivision(a: nat, b: Pos)
    ensures DivCeil(a, b) == (a + b - 1) / b
    ensures AlignUp(a, b) == DivCeil(a, b) * b
    decreases a
  {
    if a == 0 {
      ModUnique(b - 1, b, 0, b - 1);
    } else if a < b {
      assert DivCeil(0, b) == 0 && AlignUp(0, b) == 0;
      ModUnique(a + b - 1, b, 1, a - 1);
    } else {
      DivCeilIsDivision(a - b, b);
      var q := (a - 1) / b;
      DivisionFacts(a - 1, b);
      NextMultiple(q, b);
      ModUnique(a + b - 1, b, q + 1, a + b - 1 - (q + 1) * b);
    }
  }

  lemma {:induction false} NextMultiple(q: int, b: int)
    ensures (q + 1) * b == q * b + b
  {
  }

  lemma {:induction false} Distribute(p: int, q: int, b: int)
    ensures (p + q) * b == p * b + q * b
  {
  }

  lemma {:induction false} DivisionFacts(a: int, b: Pos)
    ensures a / b * b <= a < a / b * b + b
    ensures a >= 0 ==> a / b >= 0
  {
    assert a == a / b * b + a % b;
  }

  lemma {:induction false} MultiplesApart(p: int, q: int, b: Pos)
    ensures p < q ==> p * b + b <= q * b
    ensures p <= q ==> p * b <= q * b
    decreases q - p
  {
    if p < q {
      MultiplesApart(p + 1, q, b);
      NextMultiple(p, b);
    }
  }

  lemma {:induction false} ModUnique(a: int, b: Pos, q: int, r: int)
    requires a == q * b + r && 0 <= r < b
    ensures a / b == q && a % b == r
  {
    MultiplesApart(a / b, q, b);
    MultiplesApart(q, a / b, b);
    DivisionFacts(a, b);
  }

  // ---- aligned numbers

  lemma {:induction false} AlignedSum(a: nat, c: nat, b: Pos)
    requires Aligned(a, b) && Aligned(c, b)
    ensures Aligned(a + c, b)
    decreases a
  {
    if a > 0 {
      AlignedSum(a - b, c, b);
    }
  }

  lemma {:induction false} AlignedDiff(a: nat, c: nat, b: Pos)
    requires Aligned(a, b) && Aligned(c, b) && c <= a
    ensures Aligned(a - c, b) && (c < a ==> c + b <= a)
    decreases c
  {
    if c > 0 {
      AlignedDiff(a - b, c - b, b);
    }
  }

  /** Aligned numbers are closed under sums and differences and lie at least one page apart. */
  lemma {:induction false} AlignedFacts(a: nat, c: nat, b: Pos)
    requires Aligned(a, b) && Aligned(c, b)
    ensures Aligned(a + c, b)
    ensures c <= a ==> Aligned(a - c, b)
    ensures a <= c ==> Aligned(c - a, b)
    ensures a < c ==> a + b <= c
    ensures c < a ==> c + b <= a
  {
    AlignedSum(a, c, b);
    if c <= a {
      AlignedDiff(a, c, b);
    } else {
      AlignedDiff(c, a, b);
    }
  }

  lemma {:induction false} AlignedApart(a: nat, c: nat, b: Pos)
    requires Aligned(a, b) && Aligned(c, b)
    ensures c < a ==> c + b <= a
  {
    if c <= a {
      AlignedDiff(a, c, b);
    }
  }

  lemma {:induction false} AlignUpMono(a: nat, c: nat, b: Pos)
    requires a <= c
    ensures AlignUp(a, b) <= AlignUp(c, b)
  {
    AlignedApart(AlignUp(a, b), AlignUp(c, b), b);
  }

  /** Rounding brackets a number by the same or adjacent multiples. */
  lemma {:induction false} AlignBracket(a: nat, b: Pos)
    ensures AlignDown(a, b) <= a <= AlignUp(a, b) <= AlignDown(a, b) + b
    ensures Aligned(a, b) ==> AlignDown(a, b) == a == AlignUp(a, b)
  {
    hide *;
    var x, y := AlignDown(a, b), AlignUp(a, b);
    StepAligned(x, b);
    AlignedApart(y, x + b, b);
    if Aligned(a, b) {
      AlignedApart(a, x, b);
      AlignedApart(y, a, b);
    }
  }

  lemma {:induction false} StepAligned(a: nat, b: Pos)
    requires Aligned(a, b)
    ensures Aligned(a + b, b) && (a >= b ==> Aligned(a - b, b)) && (a > 0 ==> a >= b)
  {
    AlignedSum(a, b, b);
  }

  lemma {:induction false} AlignedAtLeastPage(a: nat, b: Pos)
    requires Aligned(a, b) && a > 0
    ensures a >= b
  {
  }

  lemma {:induction false} NothingAlignedBetween(lo: nat, b: Pos)
    requires Aligned(lo, b)
    ensures forall k :: lo < k < lo + b ==> !Aligned(k, b)
  {
    forall k | lo < k < lo + b && Aligned(k, b)
      ensures false
    {
      AlignedDiff(k, lo, b);
    }
  }

  // ---- total slices: bounds beyond the end are cut, crossed bounds give nothing

  function Upto(s: seq<int>, n: nat): seq<int> {
    if n <= |s| then s[..n] else s
  }

  function From(s: seq<int>, n: nat): seq<int> {
    if n <= |s| then s[n..] else []
  }

  function Slice(s: seq<int>, lo: nat, hi: nat): seq<int> {
    From(Upto(s, hi), lo)
  }

  // ---- prefixes of token sequences

  lemma {:induction false} PrefixesComparable(a: seq<int>, b: seq<int>, c: seq<int>)
    requires a <= c && b <= c && |a| <= |b|
    ensures a <= b
  {
    assert a == c[..|a|] && b == c[..|b|];
  }

  lemma {:induction false} PrefixTrans(a: seq<int>, b: seq<int>, c: seq<int>)
    requires a <= b && b <= c
    ensures a <= c
  {
  }

  lemma {:induction false} EqualLengthPrefix(a: seq<int>, b: seq<int>)
    requires a <= b && |a| == |b|
    ensures a == b
  {
  }

  /** Position of the first difference, or the shorter length (std::mismatch over the common length). */
  function FirstMismatch(a: seq<int>, b: seq<int>): (k: nat)
    ensures k <= |a| && k <= |b|
    ensures a[..k] == b[..k]
    ensures k < |a| && k < |b| ==> a[k] != b[k]
  {
    if a == [] || b == [] || a[0] != b[0] then 0
    else
      var k := FirstMismatch(a[1..], b[1..]);
      assert a[..k + 1] == [a[0]] + a[1..][..k];
      assert b[..k + 1] == [b[0]] + b[1..][..k];
      k + 1
  }

  lemma {:induction false} MismatchAfter(a: seq<int>, b: seq<int>, n: nat)
    requires n <= |a| && n <= |b| && a[..n] == b[..n]
    ensures FirstMismatch(a, b) >= n
  {
    assert forall i | 0 <= i < n :: a[i] == a[..n][i] && b[i] == b[..n][i];
  }

  // ---- every ps-th slot: the page starts of a slot sequence

  /** `s[::ps]`: the slots at offsets 0, ps, 2ps, ... */
  function Strided(s: seq<int>, ps: Pos): (r: seq<int>)
    ensures ps == 1 ==> r == s
    ensures |r| <= |s|
  {
    if |s| == 0 then []
    else if |s| <= ps then [s[0]]
    else [s[0]] + Strided(s[ps..], ps)
  }

  lemma {:induction false} StridedConcat(a: seq<int>, b: seq<int>, ps: Pos)
    requires Aligned(|a|, ps)
    ensures Strided(a + b, ps) == Strided(a, ps) + Strided(b, ps)
    decreases |a|
  {
    if |a| == 0 {
      assert a + b == b;
    } else {
      AlignedAtLeastPage(|a|, ps);
      StepAligned(|a|, ps);
      StridedConcat(a[ps..], b, ps);
      assert (a + b)[ps..] == a[ps..] + b;
      if |a| == ps {
        assert a + b == a + b[..];
        assert a[ps..] == [];
        if |b| == 0 { assert a + b == a; }
      }
    }
  }

  lemma {:induction false} StridedSplit(s: seq<int>, lo: nat, mid: nat, hi: nat, ps: Pos)
    requires lo <= mid <= hi <= |s| && Aligned(lo, ps) && Aligned(mid, ps)
    ensures Strided(s[lo..hi], ps) == Strided(s[lo..mid], ps) + Strided(s[mid..hi], ps)
  {
    hide Strided, Aligned;
    AlignedDiff(mid, lo, ps);
    assert s[lo..hi] == s[lo..mid] + s[mid..hi];
    StridedConcat(s[lo..mid], s[mid..hi], ps);
  }

  lemma {:induction false} StridedLength(s: seq<int>, ps: Pos)
    ensures |Strided(s, ps)| == DivCeil(|s|, ps)
    decreases |s|
  {
    if |s| > ps {
      StridedLength(s[ps..], ps);
    } else if |s| > 0 {
      assert DivCeil(0, ps) == 0;
    }
  }

  lemma {:induction false} DivCeilStep(n: nat, ps: Pos)
    ensures DivCeil(n + ps, ps) == DivCeil(n, ps) + 1
  {
  }

  /** An aligned length is that many whole blocks. */
  lemma {:induction false} DivCeilExact(n: nat, ps: Pos)
    requires Aligned(n, ps)
    ensures DivCeil(n, ps) * ps == n
    decreases n
  {
    if n > 0 {
      DivCeilExact(n - ps, ps);
      assert (DivCeil(n - ps, ps) + 1) * ps == DivCeil(n - ps, ps) * ps + ps;
    }
  }
}
