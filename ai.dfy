/**
 * The computer opponent's move choice, `getAIMove`, as functions of the board.
 *
 * The valid moves of a player are the cells that are empty or already its own,
 * in row-major order.  The easy tier picks among all valid moves, the moves that
 * would overflow their cell, or the moves next to no opponent cell on the brink
 * of exploding.  The medium tier scores every valid move by a local heuristic
 * and picks among the three best.  The hard tier plays each valid move on a copy
 * of the board, runs the whole cascade, scores the outcome and picks the best,
 * now and then one of the near-best.
 *
 * `Math.random()` is replaced by a sequence of draws in [0, 1), consumed in the
 * order the calls happen; an index into a list of n items is `floor(u * n)`.
 */
module Ai {
  import opened Wrappers
  import opened Grid
  import opened Cascade
  import opened Ranking
  import CascadeFacts

  /** `gameMode`: two players at one screen, or a player against the computer. */
  datatype Mode = PvP | PvE

  /** `aiDifficulty` */
  datatype Difficulty = Easy | Medium | Hard

  // ---------------------------------------------------------------------
  // Random draws

  /** Enough draws for one move choice, each in [0, 1). */
  predicate Draws(ds: seq<real>) {
    |ds| >= 3 && forall i :: 0 <= i < |ds| ==> 0.0 <= ds[i] < 1.0
  }

  /** `Math.floor(u * n)` */
  function Index(u: real, n: nat): int {
    (u * n as real).Floor
  }

  lemma IndexInRange(u: real, n: nat)
    requires 0.0 <= u < 1.0 && n > 0
    ensures 0 <= Index(u, n) < n
  {
    assert 0.0 <= u * n as real;
    assert u * n as real < n as real by {
      assert (1.0 - u) * n as real > 0.0;
    }
  }

  /** `xs[Math.floor(Math.random() * xs.length)]` */
  function Pick<T>(xs: seq<T>, u: real): (x: T)
    requires |xs| > 0 && 0.0 <= u < 1.0
    ensures x in xs
  {
    IndexInRange(u, |xs|);
    xs[Index(u, |xs|)]
  }

  // ---------------------------------------------------------------------
  // Valid moves

  /** Every cell of the board, row by row and left to right within a row. */
  function RowMajor(): (ps: seq<Pos>)
    ensures |ps| == ROWS * COLS
    ensures forall i :: 0 <= i < |ps| ==> Inside(ps[i])
  {
    seq(ROWS * COLS, i => Pos(i / COLS, i % COLS))
  }

  /** a comes before b in row-major order. */
  predicate Before(a: Pos, b: Pos) {
    a.r < b.r || (a.r == b.r && a.c < b.c)
  }

  ghost predicate Increasing(ps: seq<Pos>) {
    forall i, j :: 0 <= i < j < |ps| ==> Before(ps[i], ps[j])
  }

  /** The enumeration visits every cell of the board once, in row-major order. */
  lemma RowMajorEnumeratesBoard()
    ensures Increasing(RowMajor())
    ensures forall i :: 0 <= i < |RowMajor()| ==> Inside(RowMajor()[i])
    ensures forall q :: Inside(q) ==> q in RowMajor()
  {
    var ps := RowMajor();
    forall q | Inside(q)
      ensures q in ps
    {
      assert ps[q.r * COLS + q.c] == q;
    }
  }

  /** `xs.filter(f)`, with the order kept. */
  function Filter<T(!new)>(xs: seq<T>, f: T -> bool): (ys: seq<T>)
    ensures forall x :: x in ys <==> x in xs && f(x)
    ensures |ys| <= |xs|
  {
    if xs == [] then []
    else
      var n := |xs| - 1;
      assert xs == xs[..n] + [xs[n]];
      Filter(xs[..n], f) + (if f(xs[n]) then [xs[n]] else [])
  }

  /** Filtering one more element of a prefix appends it exactly when it passes. */
  lemma FilterStep<T(!new)>(xs: seq<T>, f: T -> bool, k: int)
    requires 0 <= k < |xs|
    ensures Filter(xs[..k + 1], f) == Filter(xs[..k], f) + (if f(xs[k]) then [xs[k]] else [])
  {
    assert xs[..k + 1][..k] == xs[..k];
  }

  /** A filter that every element passes keeps the whole sequence. */
  lemma {:induction false} FilterAll<T(!new)>(xs: seq<T>, f: T -> bool)
    requires forall i :: 0 <= i < |xs| ==> f(xs[i])
    ensures Filter(xs, f) == xs
  {
    if xs != [] {
      var n := |xs| - 1;
      var init := xs[..n];
      forall i | 0 <= i < |init|
        ensures f(init[i])
      {
        assert init[i] == xs[i];
      }
      FilterAll(init, f);
      assert f(xs[n]);
      assert xs == init + [xs[n]];
    }
  }

  /** Position k of the enumeration is row k / COLS, column k % COLS. */
  lemma RowMajorAt(r: int, c: int)
    requires InBounds(r, c)
    ensures r * COLS + c < |RowMajor()| && RowMajor()[r * COLS + c] == Pos(r, c)
  {
  }

  /** Filtering keeps row-major order. */
  lemma {:induction false} FilterIncreasing(ps: seq<Pos>, f: Pos -> bool)
    ensures Increasing(ps) ==> Increasing(Filter(ps, f))
  {
    if ps != [] && Increasing(ps) {
      var n := |ps| - 1;
      FilterIncreasing(ps[..n], f);
      var front := Filter(ps[..n], f);
      forall y | y in front
        ensures Before(y, ps[n])
      {
        var k :| 0 <= k < n && ps[..n][k] == y;
        assert ps[k] == y;
      }
    }
  }

  /** The cell at q exists and is empty or owned by p. */
  predicate Playable(g: Grid, p: Player, q: Pos)
    requires Shaped(g)
  {
    Inside(q) && (At(g, q).owner == None || At(g, q).owner == Some(p))
  }

  /** The test `getValidMoves` applies to each cell, as a function of the cell. */
  function PlayableFor(g: Grid, p: Player): Pos -> bool
    requires Shaped(g)
  {
    q => Playable(g, p, q)
  }

  /** `getValidMoves(player)`: exactly the playable cells, each once, in row-major order (script.js:362). */
  function ValidMoves(g: Grid, p: Player): (ms: seq<Pos>)
    requires Shaped(g)
    ensures forall q :: q in ms <==> Playable(g, p, q)
    ensures forall i :: 0 <= i < |ms| ==> Inside(ms[i])
    ensures Increasing(ms)
  {
    RowMajorEnumeratesBoard();
    var f := PlayableFor(g, p);
    FilterIncreasing(RowMajor(), f);
    var ms := Filter(RowMajor(), f);
    forall i | 0 <= i < |ms|
      ensures Inside(ms[i])
    {
      assert ms[i] in ms;
      assert f(ms[i]);
    }
    ms
  }

  // ---------------------------------------------------------------------
  // Easy

  /** One more orb would push the cell over its capacity. */
  predicate Explodes(g: Grid, m: Pos)
    requires Shaped(g) && Inside(m)
  {
    At(g, m).orbs + 1 > Capacity(m.r, m.c)
  }

  /** Some neighbour of m belongs to player 1 and would explode with one more orb. */
  predicate Threatened(g: Grid, m: Pos)
    requires Shaped(g)
  {
    exists n :: n in Neighbors(m.r, m.c) && Inside(n) && At(g, n).owner == Some(P1) && At(g, n).orbs + 1 > Capacity(n.r, n.c)
  }

  /** `explodingMoves` (script.js:367) */
  function ExplodingMoves(g: Grid, ms: seq<Pos>): (ys: seq<Pos>)
    requires Shaped(g)
    ensures forall m :: m in ys <==> m in ms && Inside(m) && Explodes(g, m)
    ensures Increasing(ms) ==> Increasing(ys)
  {
    FilterIncreasing(ms, m => Inside(m) && Explodes(g, m));
    Filter(ms, m => Inside(m) && Explodes(g, m))
  }

  /** `safeMoves` (script.js:368) */
  function SafeMoves(g: Grid, ms: seq<Pos>): (ys: seq<Pos>)
    requires Shaped(g)
    ensures forall m :: m in ys <==> m in ms && !Threatened(g, m)
    ensures Increasing(ms) ==> Increasing(ys)
  {
    FilterIncreasing(ms, m => !Threatened(g, m));
    Filter(ms, m => !Threatened(g, m))
  }

  /**
   * The easy tier (script.js:365-371): with draw 0 below 0.6 a random valid
   * move; otherwise, if some move explodes and the next draw is below 0.7, a
   * random exploding move; otherwise a random safe move if there is one; and
   * otherwise a random valid move.
   */
  function EasyMove(g: Grid, draws: seq<real>): (m: Pos)
    requires Shaped(g) && Draws(draws) && ValidMoves(g, AI_PLAYER) != []
    ensures m in ValidMoves(g, AI_PLAYER)
    ensures var exploding := ExplodingMoves(g, ValidMoves(g, AI_PLAYER));
      draws[0] >= 0.6 && exploding != [] && draws[1] < 0.7 ==> Explodes(g, m)
    ensures var exploding := ExplodingMoves(g, ValidMoves(g, AI_PLAYER));
      var safe := SafeMoves(g, ValidMoves(g, AI_PLAYER));
      draws[0] >= 0.6 && (exploding == [] || draws[1] >= 0.7) && safe != [] ==> !Threatened(g, m)
  {
    var valid := ValidMoves(g, AI_PLAYER);
    if draws[0] < 0.6 then Pick(valid, draws[1])
    else
      var exploding := ExplodingMoves(g, valid);
      var safe := SafeMoves(g, valid);
      if |exploding| > 0 && draws[1] < 0.7 then Pick(exploding, draws[2])
      else
        var u := if |exploding| > 0 then draws[2] else draws[1];
        if |safe| > 0 then Pick(safe, u) else Pick(valid, u)
  }

  // ---------------------------------------------------------------------
  // Medium

  /** The orbs player 1 holds in the cells ns. */
  function P1OrbsIn(g: Grid, ns: seq<Pos>): nat
    requires Shaped(g)
  {
    if ns == [] then 0
    else
      var n := ns[|ns| - 1];
      P1OrbsIn(g, ns[..|ns| - 1]) + (if Inside(n) && At(g, n).owner == Some(P1) then At(g, n).orbs else 0)
  }

  /** How many of the cells ns belong to player 1 and are at most one orb short of their capacity. */
  function P1NearCriticalIn(g: Grid, ns: seq<Pos>): nat
    requires Shaped(g)
  {
    if ns == [] then 0
    else
      var n := ns[|ns| - 1];
      P1NearCriticalIn(g, ns[..|ns| - 1])
        + (if Inside(n) && At(g, n).owner == Some(P1) && At(g, n).orbs >= Capacity(n.r, n.c) - 1 then 1 else 0)
  }

  /**
   * The medium tier's heuristic score of a move (script.js:377-383): 5 plus
   * twice the neighbouring player-1 orbs if the move explodes; 15 off if a
   * neighbouring player-1 cell would explode with one more orb, and otherwise 3
   * off per neighbouring player-1 cell at most one orb short of capacity; 1 for
   * a corner, 0.5 for an edge; 3 for a non-exploding move that brings an own cell
   * to exactly its capacity.
   */
  function MediumScore(g: Grid, m: Pos): real
    requires Shaped(g) && Inside(m)
  {
    var cell := At(g, m);
    var capacity := Capacity(m.r, m.c);
    var willExplode := cell.orbs + 1 > capacity;
    var ns := Neighbors(m.r, m.c);
    var attack := if willExplode then 5.0 + 2.0 * P1OrbsIn(g, ns) as real else 0.0;
    var risk := if Threatened(g, m) then -15.0 else -3.0 * P1NearCriticalIn(g, ns) as real;
    var position := if capacity == 1 then 1.0 else if capacity == 2 then 0.5 else 0.0;
    var build := if !willExplode && cell.owner == Some(AI_PLAYER) && cell.orbs + 1 == capacity then 3.0 else 0.0;
    attack + risk + position + build
  }

  /** The same score doubled, in integers; ranking by it ranks exactly as by the score itself. */
  function MediumScore2(g: Grid, m: Pos): (s: int)
    requires Shaped(g) && Inside(m)
    ensures s as real == 2.0 * MediumScore(g, m)
  {
    var cell := At(g, m);
    var capacity := Capacity(m.r, m.c);
    var willExplode := cell.orbs + 1 > capacity;
    var ns := Neighbors(m.r, m.c);
    var attack := if willExplode then 10 + 4 * P1OrbsIn(g, ns) else 0;
    var risk := if Threatened(g, m) then -30 else -6 * P1NearCriticalIn(g, ns);
    var position := if capacity == 1 then 2 else if capacity == 2 then 1 else 0;
    var build := if !willExplode && cell.owner == Some(AI_PLAYER) && cell.orbs + 1 == capacity then 6 else 0;
    attack + risk + position + build
  }

  /** The moves of a list of scored moves, in order. */
  function Moves(s: seq<Scored>): (ms: seq<Pos>)
    ensures |ms| == |s|
    ensures forall i :: 0 <= i < |s| ==> ms[i] == s[i].move
  {
    seq(|s|, i requires 0 <= i < |s| => s[i].move)
  }

  /** `scoredMoves` before sorting: each valid move with its (doubled) medium score, in order. */
  function MediumScored(g: Grid): (s: seq<Scored>)
    requires Shaped(g)
    ensures Moves(s) == ValidMoves(g, AI_PLAYER)
    ensures forall i :: 0 <= i < |s| ==> Inside(s[i].move) && s[i].score == MediumScore2(g, s[i].move)
  {
    var valid := ValidMoves(g, AI_PLAYER);
    seq(|valid|, i requires 0 <= i < |valid| => Scored(valid[i], MediumScore2(g, valid[i])))
  }

  /**
   * Sorting a list that pairs each of the moves ms with its score under f, in
   * order, ranks exactly those moves, each with its score.
   */
  lemma RankingHoldsScored(scored: seq<Scored>, ms: seq<Pos>, f: Pos -> int)
    requires Moves(scored) == ms
    requires forall i :: 0 <= i < |scored| ==> scored[i].score == f(scored[i].move)
    ensures forall x :: x in SortByScore(scored) ==> x.move in ms && x.score == f(x.move)
    ensures forall v :: v in ms ==> Scored(v, f(v)) in SortByScore(scored)
  {
    var s := SortByScore(scored);
    forall x | x in s
      ensures x.move in ms && x.score == f(x.move)
    {
      assert x in multiset(scored);
      var i :| 0 <= i < |scored| && scored[i] == x;
      assert Moves(scored)[i] == x.move;
    }
    forall v | v in ms
      ensures Scored(v, f(v)) in s
    {
      ScoredMoveIn(scored, ms, f, v);
      RankedKeeps(scored, Scored(v, f(v)));
    }
  }

  lemma ScoredMoveIn(scored: seq<Scored>, ms: seq<Pos>, f: Pos -> int, v: Pos)
    requires Moves(scored) == ms && v in ms
    requires forall i :: 0 <= i < |scored| ==> scored[i].score == f(scored[i].move)
    ensures Scored(v, f(v)) in scored
  {
    var i :| 0 <= i < |ms| && ms[i] == v;
    assert scored[i] == Scored(v, f(v));
  }

  /** The medium ranking: every valid move, best score first. */
  function MediumRanking(g: Grid): (s: seq<Scored>)
    requires Shaped(g)
    ensures SortedDesc(s)
    ensures forall x :: x in s ==> x.move in ValidMoves(g, AI_PLAYER) && x.score == MediumScore2(g, x.move)
    ensures forall v :: v in ValidMoves(g, AI_PLAYER) ==> Scored(v, MediumScore2(g, v)) in s
    ensures multiset(s) == multiset(MediumScored(g))
    ensures |s| == |ValidMoves(g, AI_PLAYER)|
  {
    var scored := MediumScored(g);
    RankingHoldsScored(scored, ValidMoves(g, AI_PLAYER), v => if Inside(v) then MediumScore2(g, v) else 0);
    SortByScore(scored)
  }

  function Min(a: int, b: int): int {
    if a < b then a else b
  }

  /**
   * The rank pick of the medium tier (script.js:387-392): the best move with
   * probability 0.7, else the second, else the third, as far as they exist.
   */
  function MediumPick(ranked: seq<Scored>, u: real): (x: Scored)
    requires |ranked| > 0
    ensures x in ranked[..Min(|ranked|, 3)]
    ensures u < 0.7 ==> x == ranked[0]
  {
    var topN := Min(|ranked|, 3);
    if u < 0.7 || topN <= 1 then ranked[0]
    else if u < 0.9 && topN >= 2 then ranked[1]
    else if topN >= 3 then ranked[2]
    else ranked[0]
  }

  /**
   * The medium tier (script.js:373-392): with draw 0 below 0.15 a random valid
   * move, otherwise one of the three best-ranked moves, and the best-scoring
   * valid move when draw 1 is below 0.7.
   */
  function MediumMove(g: Grid, draws: seq<real>): (m: Pos)
    requires Shaped(g) && Draws(draws) && ValidMoves(g, AI_PLAYER) != []
    ensures m in ValidMoves(g, AI_PLAYER)
    ensures draws[0] >= 0.15 ==> m in Moves(MediumRanking(g)[..Min(|MediumRanking(g)|, 3)])
    ensures draws[0] >= 0.15 && draws[1] < 0.7 ==>
      forall v :: v in ValidMoves(g, AI_PLAYER) ==> MediumScore2(g, m) >= MediumScore2(g, v)
  {
    var valid := ValidMoves(g, AI_PLAYER);
    if draws[0] < 0.15 then Pick(valid, draws[1])
    else
      var ranked := MediumRanking(g);
      HeadIsBest(ranked);
      var x := MediumPick(ranked, draws[1]);
      var i :| 0 <= i < Min(|ranked|, 3) && ranked[..Min(|ranked|, 3)][i] == x;
      assert Moves(ranked[..Min(|ranked|, 3)])[i] == x.move;
      x.move
  }

  // ---------------------------------------------------------------------
  // Hard

  /** The board after the computer plays m on a copy: placement, then the cascade (script.js:399-405). */
  function SimulatedGrid(g: Grid, counts: Tally, m: Pos): (g': Grid)
    requires Shaped(g) && Inside(m)
    ensures Shaped(g')
  {
    var b := Place(Board(g, counts), m, AI_PLAYER);
    RunCascade(b.grid, b.counts, m, AI_PLAYER).grid
  }

  /** A player-1 cell at or above its capacity. */
  predicate Danger(g: Grid, q: Pos)
    requires Shaped(g) && Inside(q)
  {
    At(g, q).owner == Some(P1) && At(g, q).orbs >= Capacity(q.r, q.c)
  }

  /** A computer cell exactly at its capacity. */
  predicate Critical(g: Grid, q: Pos)
    requires Shaped(g) && Inside(q)
  {
    At(g, q).owner == Some(AI_PLAYER) && At(g, q).orbs == Capacity(q.r, q.c)
  }

  /** `leadsToP1WinDanger` and `potentialAICritical` */
  datatype Threats = Threats(danger: bool, critical: nat)

  /**
   * The scan of script.js:411 over the cells ps: stops at the first danger
   * cell, counting the critical cells before it.
   */
  function ScanThreats(g: Grid, ps: seq<Pos>): (t: Threats)
    requires Shaped(g) && forall i :: 0 <= i < |ps| ==> Inside(ps[i])
  {
    if ps == [] then Threats(false, 0)
    else if Danger(g, ps[0]) then Threats(true, 0)
    else
      var rest := ScanThreats(g, ps[1..]);
      rest.(critical := rest.critical + if Critical(g, ps[0]) then 1 else 0)
  }

  /** The scan's result with n more critical cells counted in front. */
  function AddCritical(t: Threats, n: nat): Threats {
    t.(critical := t.critical + n)
  }

  /** One step of the scan: the cell at k, then the rest. */
  lemma ScanThreatsStep(g: Grid, ps: seq<Pos>, k: int)
    requires Shaped(g) && forall i :: 0 <= i < |ps| ==> Inside(ps[i])
    requires 0 <= k < |ps|
    ensures ScanThreats(g, ps[k..])
         == if Danger(g, ps[k]) then Threats(true, 0)
            else AddCritical(ScanThreats(g, ps[k + 1..]), if Critical(g, ps[k]) then 1 else 0)
  {
    assert ps[k..][0] == ps[k] && ps[k..][1..] == ps[k + 1..];
  }

  /** Index of the first danger cell among ps, or |ps| if there is none. */
  function FirstDanger(g: Grid, ps: seq<Pos>): (k: nat)
    requires Shaped(g) && forall i :: 0 <= i < |ps| ==> Inside(ps[i])
    ensures k <= |ps|
    ensures forall i :: 0 <= i < k ==> !Danger(g, ps[i])
    ensures k < |ps| ==> Danger(g, ps[k])
  {
    if ps == [] then 0
    else if Danger(g, ps[0]) then 0
    else 1 + FirstDanger(g, ps[1..])
  }

  /** The cell the scan visits at row r, column c, and what the scan sees there. */
  lemma ScanSees(g: Grid, r: int, c: int)
    requires Shaped(g) && InBounds(r, c)
    ensures r * COLS + c < |RowMajor()| && RowMajor()[r * COLS + c] == Pos(r, c)
    ensures Danger(g, RowMajor()[r * COLS + c]) <==> g[r][c].owner == Some(P1) && g[r][c].orbs >= Capacity(r, c)
    ensures Critical(g, RowMajor()[r * COLS + c]) <==> g[r][c].owner == Some(AI_PLAYER) && g[r][c].orbs == Capacity(r, c)
  {
    RowMajorAt(r, c);
  }

  /** The number of critical cells among ps. */
  function CriticalCount(g: Grid, ps: seq<Pos>): nat
    requires Shaped(g) && forall i :: 0 <= i < |ps| ==> Inside(ps[i])
  {
    if ps == [] then 0
    else CriticalCount(g, ps[..|ps| - 1]) + if Critical(g, ps[|ps| - 1]) then 1 else 0
  }

  lemma {:induction false} CriticalCountCons(g: Grid, ps: seq<Pos>)
    requires Shaped(g) && |ps| > 0 && forall i :: 0 <= i < |ps| ==> Inside(ps[i])
    ensures CriticalCount(g, ps) == (if Critical(g, ps[0]) then 1 else 0) + CriticalCount(g, ps[1..])
    decreases |ps|
  {
    if |ps| > 1 {
      var n := |ps| - 1;
      CriticalCountCons(g, ps[..n]);
      assert ps[..n][1..] == ps[1..][..n - 1];
      assert ps[..n][0] == ps[0] && ps[1..][n - 1] == ps[n];
    } else {
      assert ps[..0] == [] && ps[1..] == [];
    }
  }

  /**
   * The scan finds a danger cell exactly when there is one, and then counts
   * the critical cells strictly before the first; without one it counts them
   * all.  Hence at most one penalty is charged.
   */
  lemma {:induction false} ScanThreatsMeaning(g: Grid, ps: seq<Pos>)
    requires Shaped(g) && forall i :: 0 <= i < |ps| ==> Inside(ps[i])
    ensures ScanThreats(g, ps).danger <==> exists i :: 0 <= i < |ps| && Danger(g, ps[i])
    ensures ScanThreats(g, ps).critical == CriticalCount(g, ps[..FirstDanger(g, ps)])
  {
    if ps == [] {
    } else if Danger(g, ps[0]) {
      assert ps[..0] == [];
    } else {
      ScanThreatsMeaning(g, ps[1..]);
      var k := FirstDanger(g, ps[1..]);
      assert ps[..k + 1][1..] == ps[1..][..k];
      CriticalCountCons(g, ps[..k + 1]);
      if ScanThreats(g, ps).danger {
        var i :| 0 <= i < |ps[1..]| && Danger(g, ps[1..][i]);
        assert ps[i + 1] == ps[1..][i];
      } else {
        forall i | 0 <= i < |ps|
          ensures !Danger(g, ps[i])
        {
          if i > 0 {
            assert ps[i] == ps[1..][i - 1];
          }
        }
      }
    }
  }

  /** The hard tier's score of a move (script.js:406-412). */
  function HardScore(g: Grid, counts: Tally, m: Pos): (score: int)
    requires Shaped(g) && Inside(m)
  {
    var fin := SimulatedGrid(g, counts, m);
    var finalP1Orbs := GridSum(fin, OrbsOf(P1));
    var finalP2Orbs := GridSum(fin, OrbsOf(AI_PLAYER));
    RowMajorEnumeratesBoard();
    var scan := ScanThreats(fin, RowMajor());
    (finalP2Orbs - finalP1Orbs)
      + (if finalP1Orbs == 0 && finalP2Orbs > 0 then 1000 else 0)
      + (if scan.danger then -500 else 0)
      + 2 * scan.critical
  }

  /**
   * The hard score is the computer's orb lead on the simulated board, plus
   * 1000 exactly when player 1 is wiped out there, minus 500 exactly when some
   * player-1 cell there is at or above capacity, plus 2 for every computer cell
   * exactly at capacity that comes before the first such cell in row-major order.
   */
  lemma HardScoreMeaning(g: Grid, counts: Tally, m: Pos)
    requires Shaped(g) && Inside(m)
    ensures var fin := SimulatedGrid(g, counts, m);
      var p1 := GridSum(fin, OrbsOf(P1));
      var p2 := GridSum(fin, OrbsOf(AI_PLAYER));
      var danger := exists q :: Inside(q) && Danger(fin, q);
      HardScore(g, counts, m)
        == (p2 - p1)
           + (if p1 == 0 && p2 > 0 then 1000 else 0)
           + (if danger then -500 else 0)
           + 2 * CriticalCount(fin, RowMajor()[..FirstDanger(fin, RowMajor())])
  {
    ScanBoardMeaning(SimulatedGrid(g, counts, m));
  }

  /** The scan over the whole board finds a danger cell exactly when the board has one. */
  lemma ScanBoardMeaning(g: Grid)
    requires Shaped(g)
    ensures ScanThreats(g, RowMajor()).danger <==> exists q :: Inside(q) && Danger(g, q)
    ensures ScanThreats(g, RowMajor()).critical == CriticalCount(g, RowMajor()[..FirstDanger(g, RowMajor())])
  {
    RowMajorEnumeratesBoard();
    var ps := RowMajor();
    ScanThreatsMeaning(g, ps);
    if exists q :: Inside(q) && Danger(g, q) {
      var q :| Inside(q) && Danger(g, q);
      var i :| 0 <= i < |ps| && ps[i] == q;
    }
  }

  /** A board that differs only in cells taken over by p holds no more orbs of p's opponent. */
  lemma ConvertedNeverHelps(g0: Grid, g: Grid, p: Player)
    requires Shaped(g0) && Shaped(g) && CascadeFacts.OnlyConvertedTo(g0, g, p)
    ensures GridSum(g, OrbsOf(Other(p))) <= GridSum(g0, OrbsOf(Other(p)))
  {
    forall r, c | 0 <= r < |g0| && 0 <= c < |g0[r]|
      ensures Weight(g[r][c], OrbsOf(Other(p))) <= Weight(g0[r][c], OrbsOf(Other(p)))
    {
      assert InBounds(r, c);
    }
    GridSumMonotone(g0, g, OrbsOf(Other(p)));
  }

  /**
   * The lookahead of a computer move never gives player 1 orbs: the placement
   * and the cascade only ever take cells from player 1.
   */
  lemma SimulationNeverHelpsP1(g: Grid, counts: Tally, m: Pos)
    requires Shaped(g) && Inside(m)
    ensures GridSum(SimulatedGrid(g, counts, m), OrbsOf(P1)) <= GridSum(g, OrbsOf(P1))
  {
    var b := Place(Board(g, counts), m, AI_PLAYER);
    assert CascadeFacts.OnlyConvertedTo(g, b.grid, AI_PLAYER) by {
      forall r, c | InBounds(r, c)
        ensures b.grid[r][c] == g[r][c] || b.grid[r][c].owner != Some(P1)
      {
        assert b.grid[r][c] == At(b.grid, Pos(r, c));
      }
    }
    ConvertedNeverHelps(g, b.grid, AI_PLAYER);
    CascadeFacts.CascadeOnlyConverts(b.grid, b.counts, m, AI_PLAYER);
    ConvertedNeverHelps(b.grid, SimulatedGrid(g, counts, m), AI_PLAYER);
  }

  /** `scoredMoves` of the hard tier before sorting: each valid move with its score, in order. */
  function HardScored(g: Grid, counts: Tally): (s: seq<Scored>)
    requires Shaped(g)
    ensures Moves(s) == ValidMoves(g, AI_PLAYER)
    ensures forall i :: 0 <= i < |s| ==> Inside(s[i].move) && s[i].score == HardScore(g, counts, s[i].move)
  {
    var valid := ValidMoves(g, AI_PLAYER);
    seq(|valid|, i requires 0 <= i < |valid| => Scored(valid[i], HardScore(g, counts, valid[i])))
  }

  /** The hard ranking: every valid move, best score first. */
  function HardRanking(g: Grid, counts: Tally): (s: seq<Scored>)
    requires Shaped(g)
    ensures SortedDesc(s)
    ensures forall x :: x in s ==> x.move in ValidMoves(g, AI_PLAYER) && x.score == HardScore(g, counts, x.move)
    ensures forall v :: v in ValidMoves(g, AI_PLAYER) ==> Scored(v, HardScore(g, counts, v)) in s
    ensures multiset(s) == multiset(HardScored(g, counts))
    ensures |s| == |ValidMoves(g, AI_PLAYER)|
  {
    var scored := HardScored(g, counts);
    RankingHoldsScored(scored, ValidMoves(g, AI_PLAYER), v => if Inside(v) then HardScore(g, counts, v) else 0);
    SortByScore(scored)
  }

  /**
   * The pick of the hard tier (script.js:416-424): the second-ranked move with
   * probability 0.05; otherwise, with probability 0.15, a random move among
   * those within 5 of the best score, if there are several; otherwise the best.
   */
  function HardPick(ranked: seq<Scored>, draws: seq<real>): (x: Scored)
    requires |ranked| > 0 && Draws(draws)
    ensures x in ranked
    ensures draws[0] >= 0.05 || |ranked| == 1 ==> x.score >= ranked[0].score - 5
    ensures draws[0] < 0.05 && |ranked| > 1 ==> x == ranked[1]
    ensures (draws[0] >= 0.05 || |ranked| == 1) && (|Within(ranked, ranked[0].score, 5)| <= 1 || draws[1] >= 0.15) ==>
      x == ranked[0]
  {
    var bestScore := ranked[0].score;
    var topMoves := Within(ranked, bestScore, 5);
    if draws[0] < 0.05 && |ranked| > 1 then ranked[1]
    else if |topMoves| > 1 && draws[1] < 0.15 then Pick(topMoves, draws[2])
    else ranked[0]
  }

  /**
   * The hard tier: a valid move whose score is within 5 of every valid move's
   * score, unless the 5% draw picked the runner-up.
   */
  function HardMove(g: Grid, counts: Tally, draws: seq<real>): (m: Pos)
    requires Shaped(g) && Draws(draws) && ValidMoves(g, AI_PLAYER) != []
    ensures m in ValidMoves(g, AI_PLAYER)
    ensures draws[0] >= 0.05 ==>
      forall v :: v in ValidMoves(g, AI_PLAYER) ==> HardScore(g, counts, m) >= HardScore(g, counts, v) - 5
  {
    var ranked := HardRanking(g, counts);
    HeadIsBest(ranked);
    HardPick(ranked, draws).move
  }

  // ---------------------------------------------------------------------
  // getAIMove

  /**
   * `getAIMove()` (script.js:363-429): no move when the computer has no valid
   * move or the game is not against the computer; otherwise a valid move chosen
   * by the tier.
   */
  function AIMove(g: Grid, counts: Tally, mode: Mode, difficulty: Difficulty, draws: seq<real>): (m: Option<Pos>)
    requires Shaped(g) && Draws(draws)
    ensures m.Some? <==> mode == PvE && ValidMoves(g, AI_PLAYER) != []
    ensures m.Some? ==> m.value in ValidMoves(g, AI_PLAYER)
  {
    var validMoves := ValidMoves(g, AI_PLAYER);
    if |validMoves| == 0 then None
    else if mode != PvE then None
    else match difficulty
      case Easy => Some(EasyMove(g, draws))
      case Medium => Some(MediumMove(g, draws))
      case Hard => Some(HardMove(g, counts, draws))
  }
}
