/** Requests, messages and replies of the scheduler, and the tables their rows live in. */
module Requests {
  import opened Paging

  datatype Option<+T> = None | Some(value: T)

  datatype Params = Params(maxTokens: nat, ignoreEos: bool, stops: set<int>)

  /** A request that holds a table row. `chunked` marks one whose prompt is not computed to its end yet. */
  datatype Req = Req(uid: int, row: int, ids: seq<int>, cachedLen: nat, deviceLen: nat, maxLen: nat, chunked: bool,
                     params: Params)
  {
    function RemainLen(): int {
      maxLen - deviceLen
    }

    function ExtendLen(): int {
      deviceLen - cachedLen
    }

    predicate CanDecode() {
      !chunked && RemainLen() > 0
    }

    function CompleteOne(): Req {
      this.(cachedLen := deviceLen, deviceLen := deviceLen + 1)
    }

    function AppendHost(token: int): Req {
      this.(ids := ids + [token])
    }
  }

  /** The request object of `u`, or an empty one. */
  function Get(reqs: map<int, Req>, u: int): Req {
    if u in reqs then reqs[u] else Req(u, -1, [], 0, 1, 0, false, Params(0, false, {}))
  }

  /** A request waiting for prefill; `chunk` says that part of its prompt is already computed. */
  datatype Pending = Pending(uid: int, ids: seq<int>, params: Params, chunk: bool)

  datatype Msg = UserMsg(uid: int, ids: seq<int>, params: Params) | AbortMsg(uid: int)

  datatype Reply = Detok(uid: int, token: int, finished: bool) | AbortAck(uid: int)

  /** One request of a batch, as the kind of object it was when the batch was made. */
  datatype Entry = Entry(uid: int, chunked: bool)

  datatype Batch = Batch(entries: seq<Entry>, prefill: bool)

  datatype Config = Config(ps: Pos, numPages: nat, numRows: nat, width: nat, maxSeqLen: nat, budget: nat, eos: int)

  // ---- two-dimensional tables

  type Table = seq<seq<int>>

  function RowAt(t: Table, row: int): seq<int> {
    if 0 <= row < |t| then t[row] else []
  }

  /** The table with `vals` written into `row` from column `at` on. */
  function WriteRow(t: Table, row: int, at: nat, vals: seq<int>): Table {
    if 0 <= row < |t| && at + |vals| <= |t[row]| then t[row := t[row][..at] + vals + t[row][at + |vals|..]] else t
  }

  ghost predicate Shape(t: Table, rows: nat, width: nat) {
    |t| == rows && forall i | 0 <= i < rows :: |t[i]| == width
  }

  lemma {:induction false} WriteRowFacts(t: Table, row: int, at: nat, vals: seq<int>, rows: nat, width: nat)
    requires Shape(t, rows, width)
    ensures Shape(WriteRow(t, row, at, vals), rows, width)
    ensures forall i | 0 <= i < rows && i != row :: WriteRow(t, row, at, vals)[i] == t[i]
    ensures 0 <= row < rows && at + |vals| <= width ==>
              && WriteRow(t, row, at, vals)[row][..at] == t[row][..at]
              && WriteRow(t, row, at, vals)[row][at..at + |vals|] == vals
              && WriteRow(t, row, at, vals)[row][at + |vals|..] == t[row][at + |vals|..]
  {
  }

  /** `from, from + step, from + 2 * step, ...`, `n` numbers in all. */
  function Range(from: int, n: nat, step: nat): (r: seq<int>)
    ensures |r| == n
    decreases n
  {
    if n == 0 then [] else [from] + Range(from + step, n - 1, step)
  }

  // ---- pages as slots

  /** The slots of a list of pages. */
  function Expand(pages: seq<int>, ps: Pos): (r: seq<int>)
  {
    if pages == [] then [] else seq(ps, i => pages[0] + i) + Expand(pages[1..], ps)
  }

  lemma {:induction false} ExpandFacts(pages: seq<int>, ps: Pos)
    ensures DivCeil(|Expand(pages, ps)|, ps) == |pages| && Aligned(|Expand(pages, ps)|, ps)
    ensures Strided(Expand(pages, ps), ps) == pages
    decreases |pages|
  {
    if pages != [] {
      ExpandFacts(pages[1..], ps);
      var first, rest := seq(ps, i => pages[0] + i), Expand(pages[1..], ps);
      StepAligned(|rest|, ps);
      DivCeilStep(|rest|, ps);
      StridedConcat(first, rest, ps);
      assert Strided(first, ps) == [pages[0]];
      assert pages == [pages[0]] + pages[1..];
    }
  }

  lemma {:induction false} ExpandConcat(a: seq<int>, b: seq<int>, ps: Pos)
    ensures Expand(a + b, ps) == Expand(a, ps) + Expand(b, ps)
    decreases |a|
  {
    if a == [] {
      assert a + b == b;
    } else {
      ExpandConcat(a[1..], b, ps);
      assert (a + b)[1..] == a[1..] + b;
    }
  }

  lemma {:induction false} ExpandSize(pages: seq<int>, ps: Pos)
    ensures |Expand(pages, ps)| == |pages| * ps
    decreases |pages|
  {
    if pages != [] {
      ExpandSize(pages[1..], ps);
      assert (|pages| - 1) * ps + ps == |pages| * ps;
    }
  }

  /** Slots that are the expansion of their page starts. */
  ghost predicate Whole(seg: seq<int>, ps: Pos) {
    seg == Expand(Strided(seg, ps), ps)
  }

  lemma {:induction false} WholeCut(seg: seq<int>, k: nat, ps: Pos)
    requires Whole(seg, ps) && k <= |seg| && Aligned(k, ps) && Aligned(|seg|, ps)
    ensures Whole(seg[k..], ps)
  {
    hide Strided, Expand, Aligned, DivCeil;
    var a, b := seg[..k], seg[k..];
    assert seg == a + b;
    StridedConcat(a, b, ps);
    ExpandConcat(Strided(a, ps), Strided(b, ps), ps);
    ExpandLength(a, ps);
    assert seg == Expand(Strided(a, ps), ps) + Expand(Strided(b, ps), ps);
    assert seg[k..] == Expand(Strided(b, ps), ps);
  }

  lemma {:induction false} ExpandLength(a: seq<int>, ps: Pos)
    requires Aligned(|a|, ps)
    ensures |Expand(Strided(a, ps), ps)| == |a|
  {
    hide Strided, Expand, Aligned, DivCeil;
    ExpandFacts(Strided(a, ps), ps);
    StridedLength(a, ps);
    DivCeilExact(|a|, ps);
    DivCeilExact(|Expand(Strided(a, ps), ps)|, ps);
  }

  lemma {:induction false} WholeConcat(a: seq<int>, pages: seq<int>, ps: Pos)
    requires Whole(a, ps) && Aligned(|a|, ps)
    ensures Whole(a + Expand(pages, ps), ps)
    ensures Strided(a + Expand(pages, ps), ps) == Strided(a, ps) + pages
  {
    ExpandFacts(pages, ps);
    StridedConcat(a, Expand(pages, ps), ps);
    ExpandConcat(Strided(a, ps), pages, ps);
  }

  /** How many new pages a request needs for its next batch. */
  function PagesNeeded(r: Req, ps: Pos): nat {
    var first, last := DivCeil(r.cachedLen, ps), DivCeil(r.deviceLen, ps);
    if last > first then last - first else 0
  }
}
