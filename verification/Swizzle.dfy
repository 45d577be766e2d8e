/** The grouped order in which the fused mixture-of-experts kernel walks the block grid of its output: consecutive
program ids go down a group of rows before they move to the next column. */
module Swizzle {
  import opened Paging

  /** A block of the output: its row and its column in the grid. */
  datatype Block = Block(m: int, n: int)

  /** The size of the block grid and the number of rows in a group; the last group may have fewer. */
  datatype Grid = Grid(rows: Pos, columns: Pos, group: Pos)

  /** The grid of an output of `em` rows and `n` columns, in blocks of the given sizes. */
  function GridOf(em: Pos, n: Pos, blockM: Pos, blockN: Pos, group: Pos): (g: Grid)
    ensures (g.rows - 1) * blockM < em <= g.rows * blockM
    ensures (g.columns - 1) * blockN < n <= g.columns * blockN
  {
    CeilBrackets(em, blockM);
    CeilBrackets(n, blockN);
    Grid((em + blockM - 1) / blockM, (n + blockN - 1) / blockN, group)
  }

  lemma {:induction false} CeilBrackets(a: Pos, b: Pos)
    ensures (a + b - 1) / b > 0
    ensures ((a + b - 1) / b - 1) * b < a <= (a + b - 1) / b * b
  {
    DivisionFacts(a + b - 1, b);
    NextMultiple((a + b - 1) / b - 1, b);
  }

  /** How many rows the group has that begins at row `first`. */
  function GroupRows(g: Grid, first: int): int {
    if g.rows - first < g.group then g.rows - first else g.group
  }

  /** The block that program `pid` computes. */
  function BlockOf(g: Grid, pid: nat): Block
    requires pid < g.rows * g.columns
  {
    var perGroup: Pos := GroupSize(g);
    var first := pid / perGroup * g.group;
    GroupBegins(g, pid);
    var size := GroupRows(g, first);
    Block(first + pid % perGroup % size, pid % perGroup / size)
  }

  function GroupSize(g: Grid): Pos {
    assert g.group * g.columns >= g.columns by { MultiplesApart(1, g.group, g.columns); }
    g.group * g.columns
  }

  /** The program that computes a block. */
  function PidOf(g: Grid, b: Block): int
    requires InGrid(g, b)
  {
    var first := b.m / g.group * g.group;
    b.m / g.group * GroupSize(g) + b.n * GroupRows(g, first) + (b.m - first)
  }

  predicate InGrid(g: Grid, b: Block) {
    0 <= b.m < g.rows && 0 <= b.n < g.columns
  }

  lemma {:induction false} MulAssoc(a: int, b: int, c: int)
    ensures a * b * c == a * (b * c)
  {
  }

  /** Whatever the program id, its group begins inside the grid. */
  lemma {:induction false} GroupBegins(g: Grid, pid: nat)
    requires pid < g.rows * g.columns
    ensures 0 <= pid / GroupSize(g) * g.group < g.rows
  {
    var k := pid / GroupSize(g);
    DivisionFacts(pid, GroupSize(g));
    MulAssoc(k, g.group, g.columns);
    assert k * g.group * g.columns <= pid < g.rows * g.columns;
    MultiplesApart(g.rows, k * g.group, g.columns);
    MultiplesApart(0, k, g.group);
  }

  /** What is left of a program id within its group stays below the group's blocks, in a short last group too. */
  lemma {:induction false} RestFits(g: Grid, pid: nat)
    requires pid < g.rows * g.columns
    ensures var first := pid / GroupSize(g) * g.group;
            0 <= pid % GroupSize(g) < GroupRows(g, first) * g.columns
  {
    hide GroupSize;
    GroupBegins(g, pid);
    GroupSizeIs(g);
    var k := pid / GroupSize(g);
    DivisionFacts(pid, GroupSize(g));
    MulAssoc(k, g.group, g.columns);
    Distribute(g.rows - k * g.group, k * g.group, g.columns);
  }

  /** A number below `size * columns` as a position in a column of `size` blocks and a column. */
  lemma {:induction false} SplitRest(rest: int, size: Pos, columns: Pos)
    requires 0 <= rest < size * columns
    ensures rest == rest / size * size + rest % size && 0 <= rest / size < columns
  {
    DivisionFacts(rest, size);
    MultiplesApart(columns, rest / size, size);
  }

  lemma {:induction false} JoinRest(c: int, r: int, size: Pos, columns: Pos)
    requires 0 <= c < columns && 0 <= r < size
    ensures 0 <= c * size + r < size * columns
    ensures (c * size + r) / size == c && (c * size + r) % size == r
  {
    MultiplesApart(0, c, size);
    MultiplesApart(c, columns, size);
    ModUnique(c * size + r, size, c, r);
  }

  /** Every program computes a block of the grid, and from the block its id can be told. */
  lemma {:induction false} PidOfBlock(g: Grid, pid: nat)
    requires pid < g.rows * g.columns
    ensures InGrid(g, BlockOf(g, pid)) && PidOf(g, BlockOf(g, pid)) == pid
  {
    hide GroupSize;
    GroupBegins(g, pid);
    RestFits(g, pid);
    var per, k := GroupSize(g), pid / GroupSize(g);
    var size: Pos, rest := GroupRows(g, k * g.group), pid % per;
    SplitRest(rest, size, g.columns);
    ModUnique(k * g.group + rest % size, g.group, k, rest % size);
    assert pid == k * per + rest;
  }

  /** A group of `size` rows after `k` whole ones ends before the end of the grid. */
  lemma {:induction false} GroupEnds(k: nat, group: Pos, size: nat, rows: nat, columns: Pos)
    requires k * group + size <= rows
    ensures k * (group * columns) + size * columns <= rows * columns
  {
    MulAssoc(k, group, columns);
    Distribute(k * group, size, columns);
    MultiplesApart(k * group + size, rows, columns);
  }

  lemma {:induction false} SizeFits(g: Grid, first: int)
    ensures GroupRows(g, first) <= g.group && first + GroupRows(g, first) <= g.rows
  {
  }

  lemma {:induction false} GroupSizeIs(g: Grid)
    ensures GroupSize(g) == g.group * g.columns
  {
  }

  /** The last program of a group comes before the first of the next, and before the end of the grid. */
  lemma {:induction false} RestBounds(g: Grid, k: nat, rest: nat)
    requires k * g.group < g.rows && rest < GroupRows(g, k * g.group) * g.columns
    ensures rest < GroupSize(g) && 0 <= k * GroupSize(g) && k * GroupSize(g) + rest < g.rows * g.columns
  {
    hide GroupRows, GroupSize;
    var size := GroupRows(g, k * g.group);
    SizeFits(g, k * g.group);
    GroupSizeIs(g);
    PositiveFactor(size, g.columns);
    MultiplesApart(size, g.group, g.columns);
    MultiplesApart(0, k, GroupSize(g));
    GroupEnds(k, g.group, size, g.rows, g.columns);
  }

  lemma {:induction false} PositiveFactor(size: int, columns: Pos)
    requires size * columns > 0
    ensures size > 0
  {
    if size <= 0 {
      MultiplesApart(size, 0, columns);
    }
  }

  /** Every block of the grid is computed by the program with its id. */
  lemma {:induction false} BlockOfPid(g: Grid, b: Block)
    requires InGrid(g, b)
    ensures 0 <= PidOf(g, b) < g.rows * g.columns && BlockOf(g, PidOf(g, b)) == b
  {
    hide GroupSize;
    DivisionFacts(b.m, g.group);
    var k: nat := b.m / g.group;
    var size: Pos, r := GroupRows(g, k * g.group), b.m - k * g.group;
    JoinRest(b.n, r, size, g.columns);
    var rest: nat := b.n * size + r;
    RestBounds(g, k, rest);
    ModUnique(PidOf(g, b), GroupSize(g), k, rest);
  }

  /** The programs and the blocks of the grid correspond one to one. */
  lemma {:induction false} Bijection(g: Grid)
    ensures forall pid: nat | pid < g.rows * g.columns :: InGrid(g, BlockOf(g, pid))
    ensures forall p: nat, q: nat | p < g.rows * g.columns && q < g.rows * g.columns ::
              BlockOf(g, p) == BlockOf(g, q) ==> p == q
    ensures forall b | InGrid(g, b) :: exists pid: nat :: pid < g.rows * g.columns && BlockOf(g, pid) == b
  {
    hide BlockOf, PidOf;
    forall pid: nat | pid < g.rows * g.columns
      ensures InGrid(g, BlockOf(g, pid)) && PidOf(g, BlockOf(g, pid)) == pid
    {
      PidOfBlock(g, pid);
    }
    forall b | InGrid(g, b)
      ensures exists pid: nat :: pid < g.rows * g.columns && BlockOf(g, pid) == b
    {
      BlockOfPid(g, b);
      var pid: nat := PidOf(g, b);
      assert BlockOf(g, pid) == b;
    }
  }

  // ---- the order

  /** Whole groups of `group` rows come one after the other, in a group its columns, in a column its rows. */
  predicate Before(group: Pos, a: Block, b: Block) {
    || a.m / group < b.m / group
    || (a.m / group == b.m / group && (a.n < b.n || (a.n == b.n && a.m < b.m)))
  }

  /** Where a program's block lies: its group, and its place among the blocks of the group column by column. */
  lemma {:induction false} PlaceOf(g: Grid, pid: nat)
    requires pid < g.rows * g.columns
    ensures var b, k := BlockOf(g, pid), pid / GroupSize(g);
            && b.m / g.group == k && 0 <= b.m - k * g.group < GroupRows(g, k * g.group)
            && pid % GroupSize(g) == b.n * GroupRows(g, k * g.group) + (b.m - k * g.group)
  {
    hide GroupSize;
    GroupBegins(g, pid);
    RestFits(g, pid);
    var k := pid / GroupSize(g);
    var size: Pos, rest := GroupRows(g, k * g.group), pid % GroupSize(g);
    SplitRest(rest, size, g.columns);
    ModUnique(k * g.group + rest % size, g.group, k, rest % size);
  }

  /** Two places in one group. */
  lemma {:induction false} PlacesOrdered(size: Pos, n: int, r: int, n': int, r': int)
    requires 0 <= r < size && 0 <= r' < size
    ensures n * size + r < n' * size + r' <==> n < n' || (n == n' && r < r')
  {
    MultiplesApart(n, n', size);
    MultiplesApart(n', n, size);
  }

  /** Programs compute the blocks in exactly that order. */
  lemma {:induction false} GroupedOrder(g: Grid, p: nat, q: nat)
    requires p < g.rows * g.columns && q < g.rows * g.columns
    ensures p < q <==> Before(g.group, BlockOf(g, p), BlockOf(g, q))
  {
    hide BlockOf, GroupRows, GroupSize;
    var per := GroupSize(g);
    PlaceOf(g, p);
    PlaceOf(g, q);
    PlacesOrdered(per, p / per, p % per, q / per, q % per);
    DivisionFacts(p, per);
    DivisionFacts(q, per);
    if p / per == q / per {
      var first := p / per * g.group;
      var size: Pos := GroupRows(g, first);
      PlacesOrdered(size, BlockOf(g, p).n, BlockOf(g, p).m - first, BlockOf(g, q).n, BlockOf(g, q).m - first);
    }
  }
}
