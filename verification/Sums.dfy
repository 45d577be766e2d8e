/** Sums over finite maps, and counting in sequences: either one value's occurrences or all entries. */
module Sums {

  lemma {:induction false} Member<T>(s: set<T>) returns (x: T)
    requires s != {}
    ensures x in s
  {
    x :| x in s;
  }

  ghost function PickKey<K, V>(m: map<K, V>): (k: K)
    requires m != map[]
    ensures k in m
  {
    var k :| k in m;
    k
  }

  /** The sum of all values of `m`. */
  ghost function Total<K>(m: map<K, nat>): nat
    decreases |m.Keys|
  {
    if m == map[] then 0
    else
      var k := PickKey(m);
      m[k] + Total(m - {k})
  }

  lemma {:induction false} TotalPick<K>(m: map<K, nat>, k: K)
    requires k in m
    ensures Total(m) == m[k] + Total(m - {k})
    decreases |m.Keys|
  {
    var j := PickKey(m);
    if j != k {
      TotalPick(m - {j}, k);
      TotalPick(m - {k}, j);
      assert m - {j} - {k} == m - {k} - {j};
    }
  }

  lemma {:induction false} TotalPositive<K>(m: map<K, nat>) returns (k: K)
    requires Total(m) > 0
    ensures k in m && m[k] > 0
    decreases |m.Keys|
  {
    k := PickKey(m);
    if m[k] == 0 {
      k := TotalPositive(m - {k});
    }
  }

  /** Writing one entry changes the sum by exactly the difference of that entry. */
  lemma {:induction false} TotalUpdate<K>(m: map<K, nat>, k: K, v: nat)
    ensures Total(m[k := v]) == Total(m) + v - (if k in m then m[k] else 0)
  {
    TotalPick(m[k := v], k);
    if k in m {
      TotalPick(m, k);
      assert m[k := v] - {k} == m - {k};
    } else {
      assert m[k := v] - {k} == m;
    }
  }

  /** Changing one entry of a map changes the sum by that entry alone. */
  lemma {:induction false} TotalFrame<K>(m: map<K, nat>, m': map<K, nat>, k: K)
    requires k in m && m'.Keys == m.Keys && forall j | j in m && j != k :: m'[j] == m[j]
    ensures m[k] <= Total(m) && Total(m') == Total(m) - m[k] + m'[k]
  {
    assert m' == m[k := m'[k]];
    TotalUpdate(m, k, m'[k]);
    TotalPick(m, k);
  }

  lemma {:induction false} TotalSame<K>(m: map<K, nat>, m': map<K, nat>)
    requires m'.Keys == m.Keys && forall j | j in m :: m'[j] == m[j]
    ensures Total(m') == Total(m)
  {
    assert m' == m;
  }

  lemma {:induction false} TotalDrop<K>(m: map<K, nat>, m': map<K, nat>, k: K)
    requires k in m && m'.Keys == m.Keys - {k} && forall j | j in m' :: m'[j] == m[j]
    ensures Total(m) == Total(m') + m[k]
  {
    assert m' == m - {k};
    TotalPick(m, k);
  }

  lemma {:induction false} TotalAdd<K>(m: map<K, nat>, m': map<K, nat>, k: K)
    requires k !in m && m'.Keys == m.Keys + {k} && forall j | j in m :: m'[j] == m[j]
    ensures Total(m') == Total(m) + m'[k]
  {
    assert m == m' - {k};
    TotalPick(m', k);
  }

  /** Two entries together are at most the whole. */
  lemma {:induction false} TotalTwo<K>(m: map<K, nat>, j: K, k: K)
    requires j in m && k in m && j != k
    ensures m[j] + m[k] <= Total(m)
  {
    TotalPick(m, j);
    TotalPick(m - {j}, k);
  }

  // ---- counting

  /** What to count: the occurrences of one number, or everything. */
  datatype Pick = One(x: int) | All

  function Hit(k: Pick, y: int): nat {
    if k == All || k.x == y then 1 else 0
  }

  /** How many entries of `s` are counted. */
  ghost function Count(s: seq<int>, k: Pick): (n: nat)
    ensures n <= |s|
  {
    if s == [] then 0 else Hit(k, s[0]) + Count(s[1..], k)
  }

  lemma {:induction false} CountConcat(a: seq<int>, b: seq<int>, k: Pick)
    ensures Count(a + b, k) == Count(a, k) + Count(b, k)
    decreases |a|
  {
    if a == [] {
      assert a + b == b;
    } else {
      CountConcat(a[1..], b, k);
      assert (a + b)[1..] == a[1..] + b;
    }
  }

  lemma {:induction false} CountOne(y: int, k: Pick)
    ensures Count([y], k) == Hit(k, y)
  {
    assert Count([], k) == 0;
  }

  lemma {:induction false} CountIn(s: seq<int>, x: int)
    ensures Count(s, One(x)) > 0 <==> x in s
    decreases |s|
  {
    if s != [] {
      CountIn(s[1..], x);
      assert s == [s[0]] + s[1..];
    }
  }

  lemma {:induction false} CountAll(s: seq<int>)
    ensures Count(s, All) == |s|
    decreases |s|
  {
    if s != [] {
      CountAll(s[1..]);
    }
  }

  /** A sum of ones counts the keys. */
  lemma {:induction false} TotalOnes<K>(m: map<K, nat>)
    requires forall k | k in m :: m[k] == 1
    ensures Total(m) == |m.Keys|
    decreases |m.Keys|
  {
    if m != map[] {
      var k := PickKey(m);
      TotalPick(m, k);
      assert (m - {k}).Keys == m.Keys - {k};
      TotalOnes(m - {k});
    }
  }

  lemma {:induction false} SubsetSize<T>(a: set<T>, b: set<T>)
    requires a <= b
    ensures |a| <= |b|
    ensures |a| == |b| ==> a == b
  {
    assert b == a + (b - a);
    assert |b| == |a| + |b - a|;
  }
}
