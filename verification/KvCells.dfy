/** Keys and values as symbols: the cell of a token position records the token and the cells of all positions before it
that attention read. What a batch computes is then compared with what the tokens alone would give. */
module KvCells {
  import opened Requests
  import opened SchedSpec
  import opened SchedInv
  import opened SchedMirror

  /** The key and value of one position: its token, and what was read for the positions before it. */
  datatype Cell = Blank | Cell(before: seq<Cell>, token: int)

  /** The cells of these tokens, computed on their own from the first one on. */
  ghost function Alone(ids: seq<int>): (r: seq<Cell>)
    ensures |r| == |ids|
  {
    if ids == [] then []
    else
      var before := Alone(ids[..|ids| - 1]);
      before + [Cell(before, ids[|ids| - 1])]
  }

  lemma {:induction false} AloneTake(ids: seq<int>, k: nat)
    requires k <= |ids|
    ensures Alone(ids)[..k] == Alone(ids[..k])
    decreases |ids|
  {
    if k < |ids| {
      AloneTake(ids[..|ids| - 1], k);
      assert ids[..|ids| - 1][..k] == ids[..k];
      assert Alone(ids)[..k] == Alone(ids[..|ids| - 1])[..k];
    } else {
      assert ids[..k] == ids;
    }
  }

  // ---- the cache's memory

  /** What each slot holds. */
  type Kv = map<int, Cell>

  ghost function CellAt(kv: Kv, x: int): Cell {
    if x in kv then kv[x] else Blank
  }

  /** What attention reads through these slots. */
  ghost function ReadSlots(kv: Kv, slots: seq<int>): (r: seq<Cell>)
    ensures |r| == |slots|
  {
    seq(|slots|, i requires 0 <= i < |slots| => CellAt(kv, slots[i]))
  }

  /** The slots hold the cells of these tokens. */
  ghost predicate Right(kv: Kv, slots: seq<int>, ids: seq<int>) {
    ReadSlots(kv, slots) == Alone(ids)
  }

  lemma {:induction false} RightTake(kv: Kv, slots: seq<int>, ids: seq<int>, k: nat)
    requires Right(kv, slots, ids) && k <= |slots|
    ensures |slots| == |ids| && Right(kv, slots[..k], ids[..k])
  {
    assert |ReadSlots(kv, slots)| == |Alone(ids)|;
    AloneTake(ids, k);
    assert ReadSlots(kv, slots[..k]) == ReadSlots(kv, slots)[..k];
  }

  /** The beginning read from one list and the rest from another. */
  lemma {:induction false} RightJoin(kv: Kv, a: seq<int>, b: seq<int>, ids: seq<int>, k: nat)
    requires k <= |ids| && Right(kv, a, ids[..k]) && Right(kv, b, ids)
    ensures |a| == k && |b| == |ids| && Right(kv, a + b[k..], ids)
  {
    assert |ReadSlots(kv, a)| == |Alone(ids[..k])| && |ReadSlots(kv, b)| == |Alone(ids)|;
    AloneTake(ids, k);
    var l := a + b[k..];
    forall i | 0 <= i < |ids|
      ensures ReadSlots(kv, l)[i] == Alone(ids)[i]
    {
      if i < k {
        assert l[i] == a[i] && ReadSlots(kv, a)[i] == Alone(ids)[..k][i];
      } else {
        assert l[i] == b[i] && ReadSlots(kv, b)[i] == Alone(ids)[i];
      }
    }
  }

  lemma {:induction false} RightSame(kv: Kv, kv': Kv, slots: seq<int>, ids: seq<int>)
    requires Right(kv, slots, ids) && forall x | x in slots :: CellAt(kv', x) == CellAt(kv, x)
    ensures Right(kv', slots, ids)
  {
    assert ReadSlots(kv', slots) == ReadSlots(kv, slots) by {
      forall i | 0 <= i < |slots|
        ensures ReadSlots(kv', slots)[i] == ReadSlots(kv, slots)[i]
      {
        assert slots[i] in slots;
      }
    }
  }

  // ---- computing

  /** Computes the positions `from` to `to` of a row, one after the other: each reads all slots before its own and is
  written to its own. */
  ghost function ComputeRow(kv: Kv, row: seq<int>, tokens: seq<int>, from: nat, to: nat): Kv
    decreases if to > from then to - from else 0
  {
    if from >= to || from >= |row| || from >= |tokens| then kv
    else ComputeRow(kv[row[from] := Cell(ReadSlots(kv, row[..from]), tokens[from])], row, tokens, from + 1, to)
  }

  /** What a batch computes: for each of its requests the positions after its computed ones, through its row, with the
  tokens of its row in the token pool. */
  ghost function ComputeBatch(kv: Kv, s: Sched, es: seq<Entry>): Kv
    decreases |es|
  {
    if es == [] then kv
    else
      var r := Get(s.reqs, es[0].uid);
      ComputeBatch(ComputeRow(kv, RowOf(s, es[0].uid), PoolRow(s, es[0].uid), r.cachedLen, r.deviceLen), s, es[1..])
  }

  /** No other slot changes. */
  lemma {:induction false} ComputeFrame(kv: Kv, row: seq<int>, tokens: seq<int>, from: nat, to: nat, x: int)
    requires forall j | from <= j < to && j < |row| :: row[j] != x
    ensures CellAt(ComputeRow(kv, row, tokens, from, to), x) == CellAt(kv, x)
    decreases if to > from then to - from else 0
  {
    if from < to && from < |row| && from < |tokens| {
      ComputeFrame(kv[row[from] := Cell(ReadSlots(kv, row[..from]), tokens[from])], row, tokens, from + 1, to, x);
    }
  }

  /** If what is computed already is right and the slots written are distinct from each other and from those, the whole
  is right afterwards. */
  lemma {:induction false} ComputeRight(kv: Kv, row: seq<int>, tokens: seq<int>, from: nat, to: nat)
    requires from <= to <= |row| && to <= |tokens| && Right(kv, row[..from], tokens[..from])
    requires forall i, j {:trigger row[i], row[j]} | 0 <= i < j < to && from <= j :: row[i] != row[j]
    ensures Right(ComputeRow(kv, row, tokens, from, to), row[..to], tokens[..to])
    decreases if to > from then to - from else 0
  {
    if from < to {
      var cell := Cell(ReadSlots(kv, row[..from]), tokens[from]);
      var kv1 := kv[row[from] := cell];
      forall x | x in row[..from]
        ensures CellAt(kv1, x) == CellAt(kv, x)
      {
        var i :| 0 <= i < from && row[i] == x;
        assert row[i] != row[from];
      }
      RightSame(kv, kv1, row[..from], tokens[..from]);
      RightMore(kv1, row, tokens, from);
      ComputeRight(kv1, row, tokens, from + 1, to);
    }
  }

  lemma {:induction false} RightMore(kv: Kv, row: seq<int>, tokens: seq<int>, k: nat)
    requires k < |row| && k < |tokens| && Right(kv, row[..k], tokens[..k])
    requires CellAt(kv, row[k]) == Cell(ReadSlots(kv, row[..k]), tokens[k])
    ensures Right(kv, row[..k + 1], tokens[..k + 1])
  {
    assert tokens[..k + 1][..k] == tokens[..k];
    assert row[..k + 1] == row[..k] + [row[k]];
    assert ReadSlots(kv, row[..k + 1]) == ReadSlots(kv, row[..k]) + [CellAt(kv, row[k])];
  }
}
