/** The two-dimensional device tables in place: slices, and the flattened index lists of a ragged batch - the loops that
fill them, and what gathering and scattering through them amounts to. */
module Tables {
  import opened Paging
  import opened Requests

  // ---- a table as a value

  function RowSeq(a: array2<int>, i: nat): (r: seq<int>)
    requires i < a.Length0
    reads a
    ensures |r| == a.Length1
  {
    seq(a.Length1, j requires 0 <= j < a.Length1 reads a => a[i, j])
  }

  function TableOf(a: array2<int>): (t: Table)
    reads a
    ensures Shape(t, a.Length0, a.Length1)
    ensures forall i, j {:trigger t[i][j]} | 0 <= i < a.Length0 && 0 <= j < a.Length1 :: t[i][j] == a[i, j]
  {
    seq(a.Length0, i requires 0 <= i < a.Length0 reads a => RowSeq(a, i))
  }

  /** Two tables of one shape with the same entries are the same. */
  lemma {:induction false} SameTable(t: Table, t': Table, rows: nat, width: nat)
    requires Shape(t, rows, width) && Shape(t', rows, width)
    requires forall i, j {:trigger t[i][j]} | 0 <= i < rows && 0 <= j < width :: t[i][j] == t'[i][j]
    ensures t == t'
  {
    forall i | 0 <= i < rows
      ensures t[i] == t'[i]
    {
    }
  }

  function WriteCell(t: Table, row: int, at: int, v: int): Table {
    if 0 <= row < |t| && 0 <= at < |t[row]| then t[row := t[row][at := v]] else t
  }

  lemma {:induction false} CellShape(t: Table, row: int, at: int, v: int, rows: nat, width: nat)
    requires Shape(t, rows, width)
    ensures Shape(WriteCell(t, row, at, v), rows, width)
  {
  }

  method SetCell(a: array2<int>, row: nat, at: nat, v: int)
    requires row < a.Length0 && at < a.Length1
    modifies a
    ensures TableOf(a) == WriteCell(old(TableOf(a)), row, at, v)
  {
    ghost var t := TableOf(a);
    a[row, at] := v;
    CellShape(t, row, at, v, a.Length0, a.Length1);
    SameTable(TableOf(a), WriteCell(t, row, at, v), a.Length0, a.Length1);
  }

  // ---- slices

  /** Writing one more value at the end of a slice. */
  lemma {:induction false} WriteSnoc(t: Table, row: int, at: nat, vals: seq<int>, v: int)
    requires 0 <= row < |t| && at + |vals| < |t[row]|
    ensures WriteRow(t, row, at, vals + [v]) == WriteCell(WriteRow(t, row, at, vals), row, at + |vals|, v)
  {
    var a, b := WriteRow(t, row, at, vals + [v]), WriteCell(WriteRow(t, row, at, vals), row, at + |vals|, v);
    assert a[row] == b[row];
  }

  lemma {:induction false} WriteNone(t: Table, row: int, at: nat)
    ensures WriteRow(t, row, at, []) == t
  {
    if 0 <= row < |t| && at <= |t[row]| {
      assert t[row][..at] + [] + t[row][at..] == t[row];
    }
  }

  /** Copies `vals` into a row from column `at` on. */
  method WriteSlice(a: array2<int>, row: nat, at: nat, vals: seq<int>)
    requires row < a.Length0 && at + |vals| <= a.Length1
    modifies a
    ensures TableOf(a) == WriteRow(old(TableOf(a)), row, at, vals)
  {
    ghost var t := TableOf(a);
    WriteNone(t, row, at);
    for k := 0 to |vals|
      invariant TableOf(a) == WriteRow(t, row, at, vals[..k])
    {
      WriteSnoc(t, row, at, vals[..k], vals[k]);
      SetCell(a, row, at + k, vals[k]);
      assert vals[..k] + [vals[k]] == vals[..k + 1];
    }
    assert vals[..|vals|] == vals;
  }

  method ReadSlice(a: array2<int>, row: nat, from: nat, to: nat) returns (s: seq<int>)
    requires row < a.Length0 && from <= to <= a.Length1
    ensures s == Slice(RowAt(TableOf(a), row), from, to) && |s| == to - from
  {
    s := [];
    for k := from to to
      invariant s == TableOf(a)[row][from..k]
    {
      s := s + [a[row, k]];
    }
    assert TableOf(a)[row][..to][from..] == TableOf(a)[row][from..to];
  }

  // ---- ragged batches as flat index lists

  /** The positions `from..to` of one row. */
  datatype Stretch = Stretch(row: int, from: nat, to: nat)

  predicate Upward(l: seq<Stretch>) {
    forall i {:trigger l[i]} | 0 <= i < |l| :: l[i].from <= l[i].to
  }

  function Same(v: int, n: nat): (r: seq<int>)
    ensures |r| == n
  {
    seq(n, i => v)
  }

  function FlatRows(l: seq<Stretch>): seq<int> {
    if l == [] then []
    else Same(l[0].row, if l[0].from <= l[0].to then l[0].to - l[0].from else 0) + FlatRows(l[1..])
  }

  function FlatPositions(l: seq<Stretch>): seq<int> {
    if l == [] then []
    else Range(l[0].from, if l[0].from <= l[0].to then l[0].to - l[0].from else 0, 1) + FlatPositions(l[1..])
  }

  lemma {:induction false} FlatConcat(a: seq<Stretch>, b: seq<Stretch>)
    ensures FlatRows(a + b) == FlatRows(a) + FlatRows(b)
    ensures FlatPositions(a + b) == FlatPositions(a) + FlatPositions(b)
    decreases |a|
  {
    hide FlatRows, FlatPositions, Same, Range;
    FlatNone();
    if a == [] {
      assert a + b == b;
    } else {
      FlatConcat(a[1..], b);
      assert (a + b)[1..] == a[1..] + b && (a + b)[0] == a[0];
      FlatCons(a);
      FlatCons(a + b);
    }
  }

  lemma {:induction false} FlatCons(l: seq<Stretch>)
    requires l != []
    ensures FlatRows(l) == Same(l[0].row, if l[0].from <= l[0].to then l[0].to - l[0].from else 0) + FlatRows(l[1..])
    ensures FlatPositions(l)
         == Range(l[0].from, if l[0].from <= l[0].to then l[0].to - l[0].from else 0, 1) + FlatPositions(l[1..])
  {
  }

  lemma {:induction false} FlatOne(x: Stretch)
    requires x.from <= x.to
    ensures FlatRows([x]) == Same(x.row, x.to - x.from) && FlatPositions([x]) == Range(x.from, x.to - x.from, 1)
  {
    assert [x][1..] == [];
  }

  lemma {:induction false} FlatSnoc(l: seq<Stretch>, k: nat)
    requires k < |l| && l[k].from <= l[k].to
    ensures FlatRows(l[..k + 1]) == FlatRows(l[..k]) + Same(l[k].row, l[k].to - l[k].from)
    ensures FlatPositions(l[..k + 1]) == FlatPositions(l[..k]) + Range(l[k].from, l[k].to - l[k].from, 1)
  {
    assert l[..k + 1] == l[..k] + [l[k]];
    FlatConcat(l[..k], [l[k]]);
    FlatOne(l[k]);
  }

  lemma {:induction false} FlatLengths(l: seq<Stretch>)
    ensures |FlatRows(l)| == |FlatPositions(l)|
    decreases |l|
  {
    if l != [] {
      FlatLengths(l[1..]);
    }
  }

  lemma {:induction false} RangeAt(from: int, n: nat, i: nat)
    requires i < n
    ensures Range(from, n, 1)[i] == from + i
    decreases n
  {
    if i > 0 {
      RangeAt(from + 1, n - 1, i - 1);
    }
  }

  /** How long the flat lists are. */
  method NeededSize(l: seq<Stretch>) returns (n: nat)
    requires Upward(l)
    ensures n == |FlatPositions(l)| == |FlatRows(l)|
  {
    n := 0;
    FlatLengths(l);
    for k := 0 to |l|
      invariant n == |FlatPositions(l[..k])|
    {
      FlatSnoc(l, k);
      n := n + (l[k].to - l[k].from);
    }
    assert l[..|l|] == l;
  }

  lemma {:induction false} RangeSnoc(from: int, n: nat)
    ensures Range(from, n + 1, 1) == Range(from, n, 1) + [from + n]
    decreases n
  {
    if n > 0 {
      RangeSnoc(from + 1, n - 1);
    }
  }

  /** Fills part of a buffer with consecutive numbers. */
  method FillRange(a: array<int>, offset: nat, from: int, n: nat)
    requires offset + n <= a.Length
    modifies a
    ensures a[..offset] == old(a[..offset]) && a[offset..offset + n] == Range(from, n, 1)
  {
    for j := 0 to n
      invariant a[..offset] == old(a[..offset]) && a[offset..offset + j] == Range(from, j, 1)
    {
      RangeSnoc(from, j);
      a[offset + j] := from + j;
      assert a[offset..offset + j + 1] == a[offset..offset + j] + [from + j];
    }
  }

  /** Fills part of a buffer with one number. */
  method FillSame(a: array<int>, offset: nat, v: int, n: nat)
    requires offset + n <= a.Length
    modifies a
    ensures a[..offset] == old(a[..offset]) && a[offset..offset + n] == Same(v, n)
  {
    for j := 0 to n
      invariant a[..offset] == old(a[..offset]) && a[offset..offset + j] == Same(v, j)
    {
      a[offset + j] := v;
      assert a[offset..offset + j + 1] == a[offset..offset + j] + [v];
    }
  }

  lemma {:induction false} Joined(a: seq<int>, at: nat, n: nat, b: seq<int>, c: seq<int>)
    requires at + n <= |a| && a[..at] == b && a[at..at + n] == c
    ensures a[..at + n] == b + c
  {
    assert a[..at + n] == a[..at] + a[at..at + n];
  }

  /** The buffer of positions, filled stretch by stretch at a running offset. */
  method MakePositions(l: seq<Stretch>) returns (indices: array<int>)
    requires Upward(l)
    ensures fresh(indices) && indices[..] == FlatPositions(l)
  {
    hide FlatPositions, FlatRows, Range;
    var needed := NeededSize(l);
    indices := new int[needed];
    var offset := 0;
    FlatNone();
    assert l[..0] == [];
    for k := 0 to |l|
      invariant offset == |FlatPositions(l[..k])| <= needed
      invariant indices[..offset] == FlatPositions(l[..k])
    {
      FlatSnoc(l, k);
      FlatFits(l, k + 1);
      var length := l[k].to - l[k].from;
      FillRange(indices, offset, l[k].from, length);
      Joined(indices[..], offset, length, FlatPositions(l[..k]), Range(l[k].from, length, 1));
      offset := offset + length;
    }
    assert l[..|l|] == l && indices[..needed] == indices[..];
  }

  lemma {:induction false} FlatNone()
    ensures FlatPositions([]) == [] && FlatRows([]) == []
  {
  }

  lemma {:induction false} FlatFits(l: seq<Stretch>, k: nat)
    requires k <= |l|
    ensures |FlatPositions(l[..k])| <= |FlatPositions(l)| && |FlatRows(l[..k])| <= |FlatRows(l)|
  {
    assert l == l[..k] + l[k..];
    FlatConcat(l[..k], l[k..]);
  }

  /** The buffer of row numbers, filled the same way. */
  method MakeRows(l: seq<Stretch>) returns (mapping: array<int>)
    requires Upward(l)
    ensures fresh(mapping) && mapping[..] == FlatRows(l)
  {
    hide FlatPositions, FlatRows, Same;
    var needed := NeededSize(l);
    mapping := new int[needed];
    var offset := 0;
    FlatNone();
    assert l[..0] == [];
    for k := 0 to |l|
      invariant offset == |FlatRows(l[..k])| <= needed
      invariant mapping[..offset] == FlatRows(l[..k])
    {
      FlatSnoc(l, k);
      FlatFits(l, k + 1);
      var length := l[k].to - l[k].from;
      FillSame(mapping, offset, l[k].row, length);
      Joined(mapping[..], offset, length, FlatRows(l[..k]), Same(l[k].row, length));
      offset := offset + length;
    }
    assert l[..|l|] == l && mapping[..needed] == mapping[..];
  }

  // ---- gathering

  function CellAt(t: Table, row: int, at: int): int {
    if 0 <= row < |t| && 0 <= at < |t[row]| then t[row][at] else 0
  }

  function Gathered(t: Table, rows: seq<int>, positions: seq<int>): (r: seq<int>)
    requires |rows| == |positions|
    ensures |r| == |rows|
  {
    seq(|rows|, i requires 0 <= i < |rows| => CellAt(t, rows[i], positions[i]))
  }

  /** The slices of all stretches, one behind the other. */
  function Slices(t: Table, l: seq<Stretch>): seq<int> {
    if l == [] then [] else Slice(RowAt(t, l[0].row), l[0].from, l[0].to) + Slices(t, l[1..])
  }

  predicate Inside(t: Table, l: seq<Stretch>) {
    forall i {:trigger l[i]} | 0 <= i < |l| :: 0 <= l[i].row < |t| && l[i].from <= l[i].to <= |t[l[i].row]|
  }

  lemma {:induction false} GatherOne(t: Table, x: Stretch)
    requires Inside(t, [x])
    ensures |FlatRows([x])| == |FlatPositions([x])|
    ensures Gathered(t, FlatRows([x]), FlatPositions([x])) == Slice(RowAt(t, x.row), x.from, x.to)
  {
    assert [x][0] == x;
    FlatOne(x);
    var g, s := Gathered(t, FlatRows([x]), FlatPositions([x])), t[x.row][..x.to][x.from..];
    forall i | 0 <= i < x.to - x.from
      ensures g[i] == s[i]
    {
      RangeAt(x.from, x.to - x.from, i);
    }
    assert g == s;
  }

  lemma {:induction false} GatherConcat(t: Table, r1: seq<int>, p1: seq<int>, r2: seq<int>, p2: seq<int>)
    requires |r1| == |p1| && |r2| == |p2|
    ensures Gathered(t, r1 + r2, p1 + p2) == Gathered(t, r1, p1) + Gathered(t, r2, p2)
  {
  }

  /** Gathering through the flat lists reads the slices of all requests, one behind the other. */
  lemma {:induction false} GatherFlat(t: Table, l: seq<Stretch>)
    requires Inside(t, l)
    ensures |FlatRows(l)| == |FlatPositions(l)| && Gathered(t, FlatRows(l), FlatPositions(l)) == Slices(t, l)
    decreases |l|
  {
    FlatLengths(l);
    if l != [] {
      var x, rest := l[0], l[1..];
      assert forall i | 0 <= i < |rest| :: rest[i] == l[i + 1];
      GatherFlat(t, rest);
      GatherOne(t, x);
      assert l == [x] + rest;
      FlatConcat([x], rest);
      GatherConcat(t, FlatRows([x]), FlatPositions([x]), FlatRows(rest), FlatPositions(rest));
    }
  }

  method Gather(a: array2<int>, rows: seq<int>, positions: seq<int>) returns (r: seq<int>)
    requires |rows| == |positions|
    requires forall i | 0 <= i < |rows| :: 0 <= rows[i] < a.Length0 && 0 <= positions[i] < a.Length1
    ensures r == Gathered(TableOf(a), rows, positions)
  {
    r := [];
    for k := 0 to |rows|
      invariant |r| == k && forall i | 0 <= i < k :: r[i] == CellAt(TableOf(a), rows[i], positions[i])
    {
      r := r + [a[rows[k], positions[k]]];
    }
  }

  // ---- scattering

  function Scattered(t: Table, rows: seq<int>, positions: seq<int>, vals: seq<int>): Table
    requires |rows| == |positions| == |vals|
    decreases |rows|
  {
    if rows == [] then t
    else Scattered(WriteCell(t, rows[0], positions[0], vals[0]), rows[1..], positions[1..], vals[1..])
  }

  lemma {:induction false} ScatterConcat(t: Table, r1: seq<int>, p1: seq<int>, v1: seq<int>, r2: seq<int>, p2: seq<int>,
                                         v2: seq<int>)
    requires |r1| == |p1| == |v1| && |r2| == |p2| == |v2|
    ensures Scattered(t, r1 + r2, p1 + p2, v1 + v2) == Scattered(Scattered(t, r1, p1, v1), r2, p2, v2)
    decreases |r1|
  {
    if r1 == [] {
      assert r1 + r2 == r2 && p1 + p2 == p2 && v1 + v2 == v2;
    } else {
      ScatterConcat(WriteCell(t, r1[0], p1[0], v1[0]), r1[1..], p1[1..], v1[1..], r2, p2, v2);
      assert (r1 + r2)[1..] == r1[1..] + r2 && (p1 + p2)[1..] == p1[1..] + p2 && (v1 + v2)[1..] == v1[1..] + v2;
    }
  }

  lemma {:induction false} ScatterSnoc(t: Table, rows: seq<int>, positions: seq<int>, vals: seq<int>, k: nat)
    requires |rows| == |positions| == |vals| && k < |rows|
    ensures Scattered(t, rows[..k + 1], positions[..k + 1], vals[..k + 1])
         == WriteCell(Scattered(t, rows[..k], positions[..k], vals[..k]), rows[k], positions[k], vals[k])
  {
    assert rows[..k + 1] == rows[..k] + [rows[k]] && positions[..k + 1] == positions[..k] + [positions[k]];
    assert vals[..k + 1] == vals[..k] + [vals[k]];
    ScatterConcat(t, rows[..k], positions[..k], vals[..k], [rows[k]], [positions[k]], [vals[k]]);
    var m := Scattered(t, rows[..k], positions[..k], vals[..k]);
    assert [rows[k]][1..] == [] && [positions[k]][1..] == [] && [vals[k]][1..] == [];
    assert Scattered(m, [rows[k]], [positions[k]], [vals[k]])
        == Scattered(WriteCell(m, rows[k], positions[k], vals[k]), [], [], []);
  }

  method Scatter(a: array2<int>, rows: seq<int>, positions: seq<int>, vals: seq<int>)
    requires |rows| == |positions| == |vals|
    requires forall i | 0 <= i < |rows| :: 0 <= rows[i] < a.Length0 && 0 <= positions[i] < a.Length1
    modifies a
    ensures TableOf(a) == Scattered(old(TableOf(a)), rows, positions, vals)
  {
    ghost var t := TableOf(a);
    for k := 0 to |rows|
      invariant TableOf(a) == Scattered(t, rows[..k], positions[..k], vals[..k])
    {
      ScatterSnoc(t, rows, positions, vals, k);
      SetCell(a, rows[k], positions[k], vals[k]);
    }
    assert rows[..|rows|] == rows && positions[..|rows|] == positions && vals[..|rows|] == vals;
  }

  /** Consecutive stretches of `vals` written into the rows, one after the other. */
  function Written(t: Table, l: seq<Stretch>, vals: seq<int>): Table
    decreases |l|
  {
    if l == [] then t
    else
      var n := if l[0].from <= l[0].to then l[0].to - l[0].from else 0;
      Written(WriteRow(t, l[0].row, l[0].from, Upto(vals, n)), l[1..], From(vals, n))
  }

  lemma {:induction false} ScatterOne(t: Table, x: Stretch, vals: seq<int>)
    requires Inside(t, [x]) && |vals| == x.to - x.from
    ensures |FlatRows([x])| == |FlatPositions([x])| == |vals|
    ensures Scattered(t, FlatRows([x]), FlatPositions([x]), vals) == WriteRow(t, x.row, x.from, vals)
  {
    assert [x][0] == x;
    FlatOne(x);
    ScatterRange(t, x.row, x.from, vals);
  }

  lemma {:induction false} ScatterRange(t: Table, row: int, from: nat, vals: seq<int>)
    requires 0 <= row < |t| && from + |vals| <= |t[row]|
    ensures Scattered(t, Same(row, |vals|), Range(from, |vals|, 1), vals) == WriteRow(t, row, from, vals)
    decreases |vals|
  {
    var n := |vals|;
    if n == 0 {
      WriteNone(t, row, from);
    } else {
      var m := vals[..n - 1];
      ScatterRange(t, row, from, m);
      WriteSnoc(t, row, from, m, vals[n - 1]);
      assert m + [vals[n - 1]] == vals;
      RangeSnoc(from, n - 1);
      assert Range(from, n, 1)[..n - 1] == Range(from, n - 1, 1) && Range(from, n, 1)[n - 1] == from + n - 1;
      assert Same(row, n)[..n - 1] == Same(row, n - 1);
      ScatterSnoc(t, Same(row, n), Range(from, n, 1), vals, n - 1);
      assert Same(row, n)[..n] == Same(row, n) && Range(from, n, 1)[..n] == Range(from, n, 1) && vals[..n] == vals;
    }
  }

  lemma {:induction false} ScatterNothing(t: Table)
    ensures Scattered(t, [], [], []) == t
  {
  }

  /** Scattering through the flat lists writes the stretches into their rows. */
  lemma {:induction false} ScatterFlat(t: Table, l: seq<Stretch>, vals: seq<int>, rows: nat, width: nat)
    requires Shape(t, rows, width) && Inside(t, l) && |vals| == |FlatRows(l)|
    ensures |FlatRows(l)| == |FlatPositions(l)|
            && Scattered(t, FlatRows(l), FlatPositions(l), vals) == Written(t, l, vals)
    decreases |l|
  {
    hide FlatRows, FlatPositions, WriteRow, Scattered;
    FlatLengths(l);
    FlatNone();
    if l == [] {
      ScatterNothing(t);
    } else {
      var x, rest := l[0], l[1..];
      var n := x.to - x.from;
      assert l == [x] + rest;
      FlatConcat([x], rest);
      FlatOne(x);
      ScatterOne(t, x, vals[..n]);
      ScatterConcat(t, FlatRows([x]), FlatPositions([x]), vals[..n], FlatRows(rest), FlatPositions(rest), vals[n..]);
      assert vals == vals[..n] + vals[n..];
      var t1 := WriteRow(t, x.row, x.from, vals[..n]);
      WriteRowFacts(t, x.row, x.from, vals[..n], rows, width);
      assert forall i | 0 <= i < |rest| :: rest[i] == l[i + 1];
      ScatterFlat(t1, rest, vals[n..], rows, width);
    }
  }
}
