/**
 * The board of the chain-reaction game: an 8 x 10 matrix of cells, each with an
 * owner (or none) and an orb count; the capacity of a cell follows from its
 * position (corner, edge, interior), and its neighbours are the in-bounds cells
 * up, down, left and right of it, in that order.  Also the per-player orb tally
 * and the sums over the board that the tally must agree with.
 */
module Grid {
  import opened Wrappers

  const ROWS: int := 8
  const COLS: int := 10
  /** The cascade's ceiling on the number of waves. */
  const MAX_EXPLOSION_STEPS: int := ROWS * COLS * 5

  datatype Player = P1 | P2

  /** In a game against the computer, the computer plays second. */
  const AI_PLAYER: Player := P2

  /** The toggle of `switchPlayer`. */
  function Other(p: Player): Player {
    if p == P1 then P2 else P1
  }

  datatype Cell = Cell(owner: Option<Player>, orbs: nat)

  const Empty: Cell := Cell(None, 0)

  datatype Pos = Pos(r: int, c: int)

  predicate InBounds(r: int, c: int) {
    0 <= r < ROWS && 0 <= c < COLS
  }

  predicate Inside(p: Pos) {
    InBounds(p.r, p.c)
  }

  /** Corners hold 1 orb, other edge cells 2, interior cells 3. */
  function Capacity(r: int, c: int): (k: int)
    ensures 1 <= k <= 3
  {
    var isCorner := (r == 0 || r == ROWS - 1) && (c == 0 || c == COLS - 1);
    var isEdge := !isCorner && (r == 0 || r == ROWS - 1 || c == 0 || c == COLS - 1);
    if isCorner then 1 else if isEdge then 2 else 3
  }

  /** The in-bounds cells among up, down, left and right, in that order. */
  function Neighbors(r: int, c: int): (ns: seq<Pos>)
    ensures |ns| <= 4
    ensures forall q :: q in ns ==> Inside(q) && Abs(q.r - r) + Abs(q.c - c) == 1
  {
    (if InBounds(r - 1, c) then [Pos(r - 1, c)] else [])
    + (if InBounds(r + 1, c) then [Pos(r + 1, c)] else [])
    + (if InBounds(r, c - 1) then [Pos(r, c - 1)] else [])
    + (if InBounds(r, c + 1) then [Pos(r, c + 1)] else [])
  }

  function Abs(x: int): nat {
    if x < 0 then -x else x
  }

  /** Rank of the direction from (r, c) to q: up 0, down 1, left 2, right 3. */
  function Direction(r: int, c: int, q: Pos): int {
    if q.r < r then 0 else if q.r > r then 1 else if q.c < c then 2 else 3
  }

  /** The neighbours are exactly the in-bounds cells at Manhattan distance 1. */
  lemma NeighborsAreAdjacentCells(r: int, c: int, q: Pos)
    ensures q in Neighbors(r, c) <==> Inside(q) && Abs(q.r - r) + Abs(q.c - c) == 1
  {
    if Inside(q) && Abs(q.r - r) + Abs(q.c - c) == 1 {
      if q.r < r {
        assert q == Pos(r - 1, c);
      } else if q.r > r {
        assert q == Pos(r + 1, c);
      } else if q.c < c {
        assert q == Pos(r, c - 1);
      } else {
        assert q == Pos(r, c + 1);
      }
    }
  }

  /** The neighbours come in the fixed order up, down, left, right. */
  lemma NeighborsInDirectionOrder(r: int, c: int)
    ensures forall i, j :: 0 <= i < j < |Neighbors(r, c)| ==>
      Direction(r, c, Neighbors(r, c)[i]) < Direction(r, c, Neighbors(r, c)[j])
  {
  }

  /** A cell has one neighbour more than its capacity: 2 at corners, 3 on edges, 4 inside. */
  lemma NeighborCountIsCapacityPlusOne(r: int, c: int)
    requires InBounds(r, c)
    ensures |Neighbors(r, c)| == Capacity(r, c) + 1
  {
  }

  /** No position appears twice among the neighbours, and a cell is not its own neighbour. */
  ghost predicate DistinctPositions(ps: seq<Pos>) {
    forall i, j :: 0 <= i < j < |ps| ==> ps[i] != ps[j]
  }

  lemma NeighborsDistinct(r: int, c: int)
    ensures DistinctPositions(Neighbors(r, c))
    ensures Pos(r, c) !in Neighbors(r, c)
    ensures forall q :: q in Neighbors(r, c) ==> Inside(q)
  {
    NeighborsInDirectionOrder(r, c);
  }

  // ---------------------------------------------------------------------
  // The board as a value

  type Grid = seq<seq<Cell>>

  predicate Shaped(g: Grid) {
    |g| == ROWS && forall r :: 0 <= r < |g| ==> |g[r]| == COLS
  }

  function At(g: Grid, p: Pos): Cell
    requires Shaped(g) && Inside(p)
  {
    g[p.r][p.c]
  }

  function SetAt(g: Grid, p: Pos, x: Cell): (g': Grid)
    requires Shaped(g) && Inside(p)
    ensures Shaped(g')
    ensures forall q :: Inside(q) ==> At(g', q) == if q == p then x else At(g, q)
  {
    g[p.r := g[p.r][p.c := x]]
  }

  /** Every cell has an owner exactly when it holds orbs. */
  ghost predicate WellFormed(g: Grid)
    requires Shaped(g)
  {
    forall r, c :: InBounds(r, c) ==> (g[r][c].owner == None <==> g[r][c].orbs == 0)
  }

  /** No cell holds more orbs than its capacity. */
  ghost predicate Stable(g: Grid)
    requires Shaped(g)
  {
    forall r, c :: InBounds(r, c) ==> g[r][c].orbs <= Capacity(r, c)
  }

  /** The new empty board of `initGame`. */
  function EmptyGrid(): (g: Grid)
    ensures Shaped(g) && WellFormed(g) && Stable(g)
    ensures forall r, c :: InBounds(r, c) ==> g[r][c] == Empty
  {
    seq(ROWS, _ => seq(COLS, _ => Empty))
  }

  // ---------------------------------------------------------------------
  // Sums over the board

  /** What a cell contributes to a sum over the board. */
  datatype Measure = OrbsOf(p: Player) | CellsOf(p: Player) | AllOrbs

  function Weight(x: Cell, m: Measure): nat {
    match m
    case OrbsOf(p) => if x.owner == Some(p) then x.orbs else 0
    case CellsOf(p) => if x.owner == Some(p) then 1 else 0
    case AllOrbs => x.orbs
  }

  function RowSum(row: seq<Cell>, m: Measure): nat {
    if row == [] then 0 else RowSum(row[..|row| - 1], m) + Weight(row[|row| - 1], m)
  }

  function GridSum(g: Grid, m: Measure): nat {
    if g == [] then 0 else GridSum(g[..|g| - 1], m) + RowSum(g[|g| - 1], m)
  }

  lemma {:induction false} RowSumUpdate(row: seq<Cell>, i: int, x: Cell, m: Measure)
    requires 0 <= i < |row|
    ensures RowSum(row[i := x], m) == RowSum(row, m) - Weight(row[i], m) + Weight(x, m)
  {
    var n := |row| - 1;
    if i == n {
      assert row[i := x][..n] == row[..n];
    } else {
      assert row[i := x][..n] == row[..n][i := x];
      RowSumUpdate(row[..n], i, x, m);
    }
  }

  /** Replacing one cell changes a board sum by the difference of the two cells' weights. */
  lemma {:induction false} GridSumUpdate(g: Grid, r: int, c: int, x: Cell, m: Measure)
    requires 0 <= r < |g| && 0 <= c < |g[r]|
    ensures GridSum(g[r := g[r][c := x]], m) == GridSum(g, m) - Weight(g[r][c], m) + Weight(x, m)
  {
    var n := |g| - 1;
    var g' := g[r := g[r][c := x]];
    if r == n {
      assert g'[..n] == g[..n];
      RowSumUpdate(g[r], c, x, m);
    } else {
      assert g'[..n] == g[..n][r := g[r][c := x]];
      GridSumUpdate(g[..n], r, c, x, m);
    }
  }

  lemma SetAtSum(g: Grid, p: Pos, x: Cell, m: Measure)
    requires Shaped(g) && Inside(p)
    ensures GridSum(SetAt(g, p, x), m) == GridSum(g, m) - Weight(At(g, p), m) + Weight(x, m)
  {
    GridSumUpdate(g, p.r, p.c, x, m);
  }

  lemma {:induction false} RowSumBoundsCell(row: seq<Cell>, i: int, m: Measure)
    requires 0 <= i < |row|
    ensures Weight(row[i], m) <= RowSum(row, m)
  {
    if i < |row| - 1 {
      RowSumBoundsCell(row[..|row| - 1], i, m);
    }
  }

  /** One cell's weight never exceeds the sum over the whole board. */
  lemma {:induction false} GridSumBoundsCell(g: Grid, r: int, c: int, m: Measure)
    requires 0 <= r < |g| && 0 <= c < |g[r]|
    ensures Weight(g[r][c], m) <= GridSum(g, m)
  {
    if r < |g| - 1 {
      GridSumBoundsCell(g[..|g| - 1], r, c, m);
    } else {
      RowSumBoundsCell(g[r], c, m);
    }
  }

  lemma {:induction false} RowSumMonotone(row: seq<Cell>, row': seq<Cell>, m: Measure)
    requires |row| == |row'|
    requires forall i :: 0 <= i < |row| ==> Weight(row'[i], m) <= Weight(row[i], m)
    ensures RowSum(row', m) <= RowSum(row, m)
  {
    if row != [] {
      var n := |row| - 1;
      RowSumMonotone(row[..n], row'[..n], m);
    }
  }

  /** A board whose every cell weighs no more than the corresponding cell of another sums to no more. */
  lemma {:induction false} GridSumMonotone(g: Grid, g': Grid, m: Measure)
    requires |g| == |g'| && forall r :: 0 <= r < |g| ==> |g[r]| == |g'[r]|
    requires forall r, c :: 0 <= r < |g| && 0 <= c < |g[r]| ==> Weight(g'[r][c], m) <= Weight(g[r][c], m)
    ensures GridSum(g', m) <= GridSum(g, m)
  {
    if g != [] {
      var n := |g| - 1;
      GridSumMonotone(g[..n], g'[..n], m);
      RowSumMonotone(g[n], g'[n], m);
    }
  }

  // ---------------------------------------------------------------------
  // The per-player orb tally

  type Tally = map<Player, int>

  /** `counts[p] || 0`: a missing entry reads as zero. */
  function Count(t: Tally, p: Player): int {
    if p in t then t[p] else 0
  }

  /** `Math.max(0, x)`. */
  function Max0(x: int): int {
    if x < 0 then 0 else x
  }

  /** The tally agrees with the board: each player's entry is the sum of the orbs it owns. */
  ghost predicate Consistent(g: Grid, t: Tally) {
    Count(t, P1) == GridSum(g, OrbsOf(P1)) && Count(t, P2) == GridSum(g, OrbsOf(P2))
  }

  /** An owned cell's orbs are its owner's; an unowned one's are nobody's. */
  lemma WeightSplit(x: Cell)
    requires x.owner == None ==> x.orbs == 0
    ensures Weight(x, OrbsOf(P1)) + Weight(x, OrbsOf(P2)) == Weight(x, AllOrbs)
  {
    match x.owner
    case None =>
    case Some(p) => assert p == P1 || p == P2;
  }

  /** When no unowned cell holds orbs, the two players' orbs in a row make up all its orbs. */
  lemma {:induction false} RowSumSplit(row: seq<Cell>)
    ensures (forall i :: 0 <= i < |row| ==> (row[i].owner == None ==> row[i].orbs == 0)) ==>
      RowSum(row, OrbsOf(P1)) + RowSum(row, OrbsOf(P2)) == RowSum(row, AllOrbs)
  {
    if row != [] && forall i :: 0 <= i < |row| ==> (row[i].owner == None ==> row[i].orbs == 0) {
      var n := |row| - 1;
      RowSumSplit(row[..n]);
      assert forall i :: 0 <= i < n ==> row[..n][i] == row[i];
      WeightSplit(row[n]);
    }
  }

  /** When no unowned cell holds orbs, the two players' orbs on a board make up all its orbs. */
  lemma {:induction false} GridSumSplit(g: Grid)
    ensures (forall r, c :: 0 <= r < |g| && 0 <= c < |g[r]| ==> (g[r][c].owner == None ==> g[r][c].orbs == 0)) ==>
      GridSum(g, OrbsOf(P1)) + GridSum(g, OrbsOf(P2)) == GridSum(g, AllOrbs)
  {
    if g != [] {
      var n := |g| - 1;
      GridSumSplit(g[..n]);
      RowSumSplit(g[n]);
      assert forall r :: 0 <= r < n ==> g[..n][r] == g[r];
    }
  }

  /** The tally of a full rescan of the board: on a well-formed board it accounts for every orb. */
  function Recount(g: Grid): (t: Tally)
    ensures Consistent(g, t)
    ensures Shaped(g) && WellFormed(g) ==> Count(t, P1) + Count(t, P2) == GridSum(g, AllOrbs)
  {
    GridSumSplit(g);
    map[P1 := GridSum(g, OrbsOf(P1)), P2 := GridSum(g, OrbsOf(P2))]
  }
}
