/**
 * The game as the page runs it: the module-level state of the script as the
 * fields of one object, the board as an 8 x 10 array updated in place.  Every
 * method that changes the state is proved to make exactly the transition the
 * value-level model of module `Controller` describes; the methods that only
 * read the board are proved to compute the functions of modules `Grid` and
 * `Ai`.
 */
module Session {
  import opened Wrappers
  import opened Grid
  import opened Cascade
  import opened Engine
  import opened Ranking
  import opened Ai
  import opened Controller

  /** A fresh copy of the board (`structuredClone(boardState)`, script.js:400). */
  method CloneBoard(a: array2<Cell>) returns (b: array2<Cell>)
    requires Sized(a)
    ensures fresh(b) && Sized(b) && Snapshot(b) == Snapshot(a)
  {
    b := new Cell[ROWS, COLS];
    for r := 0 to ROWS
      invariant forall i, j :: 0 <= i < r && 0 <= j < COLS ==> b[i, j] == a[i, j]
    {
      for c := 0 to COLS
        invariant forall i, j :: 0 <= i < r && 0 <= j < COLS ==> b[i, j] == a[i, j]
        invariant forall j :: 0 <= j < c ==> b[r, j] == a[r, j]
      {
        b[r, c] := a[r, c];
      }
    }
    SameCellsSameSnapshot(a, b);
  }

  lemma SameCellsSameSnapshot(a: array2<Cell>, b: array2<Cell>)
    requires Sized(a) && Sized(b)
    requires forall i, j :: 0 <= i < ROWS && 0 <= j < COLS ==> b[i, j] == a[i, j]
    ensures Snapshot(b) == Snapshot(a)
  {
    var ga, gb := Snapshot(a), Snapshot(b);
    forall r | 0 <= r < ROWS
      ensures ga[r] == gb[r]
    {
      assert forall c :: 0 <= c < COLS ==> ga[r][c] == gb[r][c];
    }
  }

  /**
   * The scan for threats on a simulated board (script.js:411): row by row, it
   * stops at the first player-1 cell at or above capacity and counts the
   * computer cells exactly at capacity before it.
   */
  method ScanForThreats(a: array2<Cell>) returns (leadsToP1WinDanger: bool, potentialAICritical: nat)
    requires Sized(a)
    ensures Threats(leadsToP1WinDanger, potentialAICritical) == ScanThreats(Snapshot(a), RowMajor())
  {
    ghost var g := Snapshot(a);
    ghost var ps := RowMajor();
    leadsToP1WinDanger, potentialAICritical := false, 0;
    assert ps[0..] == ps;
    var r := 0;
    while r < ROWS
      invariant 0 <= r <= ROWS && !leadsToP1WinDanger
      invariant AddCritical(ScanThreats(g, ps[r * COLS..]), potentialAICritical) == ScanThreats(g, ps)
    {
      leadsToP1WinDanger, potentialAICritical := ScanRow(a, r, potentialAICritical);
      if leadsToP1WinDanger {
        return;
      }
      r := r + 1;
    }
    assert ps[ROWS * COLS..] == [];
  }

  /** The inner loop of the scan over row r, continuing the count so far. */
  method ScanRow(a: array2<Cell>, r: int, critical: nat) returns (danger: bool, critical': nat)
    requires Sized(a) && 0 <= r < ROWS
    ensures var g, ps := Snapshot(a), RowMajor();
      var whole := ScanThreats(g, ps);
      AddCritical(ScanThreats(g, ps[r * COLS..]), critical) == whole ==>
        if danger then Threats(true, critical') == whole
        else AddCritical(ScanThreats(g, ps[(r + 1) * COLS..]), critical') == whole
  {
    ghost var g := Snapshot(a);
    ghost var ps := RowMajor();
    ghost var start := r * COLS;
    assert (r + 1) * COLS == start + COLS;
    danger, critical' := false, critical;
    var c := 0;
    while c < COLS
      invariant 0 <= c <= COLS
      invariant AddCritical(ScanThreats(g, ps[start..]), critical) == ScanThreats(g, ps)
        ==> AddCritical(ScanThreats(g, ps[start + c..]), critical') == ScanThreats(g, ps)
    {
      ScanSees(g, r, c);
      ScanThreatsStep(g, ps, start + c);
      var finalCell := a[r, c];
      if finalCell.owner == Some(P1) && finalCell.orbs >= Capacity(r, c) {
        danger := true;
        return;
      }
      if finalCell.owner == Some(AI_PLAYER) && finalCell.orbs == Capacity(r, c) {
        critical' := critical' + 1;
      }
      c := c + 1;
    }
  }

  /** The inner loop of `getValidMoves` over row r, extending the moves found so far. */
  method ValidMovesInRow(a: array2<Cell>, player: Player, r: int, moves: seq<Pos>) returns (moves': seq<Pos>)
    requires Sized(a) && 0 <= r < ROWS
    requires moves == Filter(RowMajor()[..r * COLS], PlayableFor(Snapshot(a), player))
    ensures moves' == Filter(RowMajor()[..(r + 1) * COLS], PlayableFor(Snapshot(a), player))
  {
    ghost var g := Snapshot(a);
    ghost var f := PlayableFor(g, player);
    ghost var ps := RowMajor();
    moves' := moves;
    for c := 0 to COLS
      invariant moves' == Filter(ps[..r * COLS + c], f)
    {
      var cell := a[r, c];
      RowMajorAt(r, c);
      FilterStep(ps, f, r * COLS + c);
      if cell.owner == None || cell.owner == Some(player) {
        moves' := moves' + [Pos(r, c)];
      }
    }
  }

  /** The recount of script.js:326-337: each player's orbs and cells on the board. */
  method CountBoard(board: array2<Cell>) returns (currentCounts: Tally, p1Cells: nat, p2Cells: nat)
    requires Sized(board)
    ensures currentCounts == Recount(Snapshot(board))
    ensures p1Cells == GridSum(Snapshot(board), CellsOf(P1)) && p2Cells == GridSum(Snapshot(board), CellsOf(P2))
  {
    ghost var g := Snapshot(board);
    var p1Orbs, p2Orbs := 0, 0;
    p1Cells, p2Cells := 0, 0;
    for r := 0 to ROWS
      invariant p1Orbs == GridSum(g[..r], OrbsOf(P1)) && p2Orbs == GridSum(g[..r], OrbsOf(P2))
      invariant p1Cells == GridSum(g[..r], CellsOf(P1)) && p2Cells == GridSum(g[..r], CellsOf(P2))
    {
      var o1, o2, c1, c2 := CountRow(board, r);
      assert g[..r + 1][..r] == g[..r];
      p1Orbs, p2Orbs, p1Cells, p2Cells := p1Orbs + o1, p2Orbs + o2, p1Cells + c1, p2Cells + c2;
    }
    assert g[..ROWS] == g;
    currentCounts := map[P1 := p1Orbs, P2 := p2Orbs];
  }

  /** The inner loop of the recount over one row. */
  method CountRow(board: array2<Cell>, r: int) returns (p1Orbs: nat, p2Orbs: nat, p1Cells: nat, p2Cells: nat)
    requires Sized(board) && 0 <= r < ROWS
    ensures p1Orbs == RowSum(Snapshot(board)[r], OrbsOf(P1)) && p2Orbs == RowSum(Snapshot(board)[r], OrbsOf(P2))
    ensures p1Cells == RowSum(Snapshot(board)[r], CellsOf(P1)) && p2Cells == RowSum(Snapshot(board)[r], CellsOf(P2))
  {
    ghost var row := Snapshot(board)[r];
    p1Orbs, p2Orbs, p1Cells, p2Cells := 0, 0, 0, 0;
    for c := 0 to COLS
      invariant p1Orbs == RowSum(row[..c], OrbsOf(P1)) && p2Orbs == RowSum(row[..c], OrbsOf(P2))
      invariant p1Cells == RowSum(row[..c], CellsOf(P1)) && p2Cells == RowSum(row[..c], CellsOf(P2))
    {
      var cell := board[r, c];
      assert row[..c + 1][..c] == row[..c] && row[c] == cell;
      if cell.owner == Some(P1) {
        p1Orbs, p1Cells := p1Orbs + cell.orbs, p1Cells + 1;
      } else if cell.owner == Some(P2) {
        p2Orbs, p2Cells := p2Orbs + cell.orbs, p2Cells + 1;
      }
    }
    assert row[..COLS] == row;
  }

  /** `getValidMoves(player)` (script.js:362) */
  method GetValidMoves(board: array2<Cell>, player: Player) returns (moves: seq<Pos>)
    requires Sized(board)
    ensures moves == ValidMoves(Snapshot(board), player)
  {
    ghost var ps := RowMajor();
    ghost var f := PlayableFor(Snapshot(board), player);
    moves := [];
    for r := 0 to ROWS
      invariant moves == Filter(ps[..r * COLS], f)
    {
      moves := ValidMovesInRow(board, player, r, moves);
    }
    assert ps[..ROWS * COLS] == ps;
    assert moves == Filter(ps, f);
  }

  /**
   * One simulation of the hard tier (script.js:398-413): the outcome of the
   * computer's move on a copy of the board, scored.  The game's own board is
   * left alone.
   */
  method SimulateMove(board: array2<Cell>, playerOrbCounts: Tally, move: Pos) returns (scored: Scored)
    requires Sized(board) && Inside(move)
    ensures scored == Scored(move, HardScore(Snapshot(board), playerOrbCounts, move))
  {
    var tempBoardState := SimulatedBoard(board, playerOrbCounts, move);
    var fin := Snapshot(tempBoardState);
    var finalP1Orbs: int := GridSum(fin, OrbsOf(P1));
    var finalP2Orbs: int := GridSum(fin, OrbsOf(AI_PLAYER));
    var score := finalP2Orbs - finalP1Orbs;
    if finalP1Orbs == 0 && finalP2Orbs > 0 {
      score := score + 1000;
    }
    var leadsToP1WinDanger, potentialAICritical := ScanForThreats(tempBoardState);
    if leadsToP1WinDanger {
      score := score - 500;
    }
    score := score + potentialAICritical * 2;
    scored := Scored(move, score);
  }

  /**
   * The copy of the board and the tally with the computer's orb placed at
   * move and the cascade run on it (script.js:399-405).
   */
  method SimulatedBoard(board: array2<Cell>, playerOrbCounts: Tally, move: Pos) returns (tempBoardState: array2<Cell>)
    requires Sized(board) && Inside(move)
    ensures fresh(tempBoardState) && Sized(tempBoardState)
    ensures Snapshot(tempBoardState) == SimulatedGrid(Snapshot(board), playerOrbCounts, move)
  {
    tempBoardState := CloneBoard(board);
    var tempPlayerCounts := PlaceOrb(tempBoardState, playerOrbCounts, move, AI_PLAYER);
    tempPlayerCounts := RunExplosionSimulation(tempBoardState, tempPlayerCounts, move.r, move.c, AI_PLAYER);
  }

  /**
   * `getAIMove()` (script.js:363-429) with the draws standing in for
   * `Math.random()`: the move chosen is the one of `AIMove`.
   */
  method GetAIMove(board: array2<Cell>, playerOrbCounts: Tally, gameMode: Mode, aiDifficulty: Difficulty, draws: seq<real>) returns (aiMove: Option<Pos>)
    requires Sized(board) && Draws(draws)
    ensures aiMove == AIMove(Snapshot(board), playerOrbCounts, gameMode, aiDifficulty, draws)
  {
    var validMoves := GetValidMoves(board, AI_PLAYER);
    if |validMoves| == 0 {
      return None;
    }
    if gameMode != PvE {
      return None;
    }
    var g := Snapshot(board);
    var move: Pos;
    if aiDifficulty == Easy {
      move := EasyChoice(g, validMoves, draws);
    } else if aiDifficulty == Medium {
      move := MediumChoice(g, validMoves, draws);
    } else {
      move := HardChoice(board, playerOrbCounts, validMoves, draws);
    }
    aiMove := Some(move);
  }

  /** The easy tier's choice, in the order the source draws its random numbers (script.js:365-371). */
  method EasyChoice(g: Grid, validMoves: seq<Pos>, draws: seq<real>) returns (move: Pos)
    requires Shaped(g) && Draws(draws) && validMoves == ValidMoves(g, AI_PLAYER) && validMoves != []
    ensures move == EasyMove(g, draws)
  {
    if draws[0] < 0.6 {
      return Pick(validMoves, draws[1]);
    }
    var explodingMoves := ExplodingMoves(g, validMoves);
    var safeMoves := SafeMoves(g, validMoves);
    if |explodingMoves| > 0 && draws[1] < 0.7 {
      return Pick(explodingMoves, draws[2]);
    }
    var u := if |explodingMoves| > 0 then draws[2] else draws[1];
    if |safeMoves| > 0 {
      return Pick(safeMoves, u);
    }
    return Pick(validMoves, u);
  }

  /** The medium tier's choice (script.js:373-392). */
  method MediumChoice(g: Grid, validMoves: seq<Pos>, draws: seq<real>) returns (move: Pos)
    requires Shaped(g) && Draws(draws) && validMoves == ValidMoves(g, AI_PLAYER) && validMoves != []
    ensures move == MediumMove(g, draws)
  {
    if draws[0] < 0.15 {
      return Pick(validMoves, draws[1]);
    }
    var scoredMoves := ScoreMedium(g, validMoves);
    var ranked := SortByScore(scoredMoves);
    move := MediumPick(ranked, draws[1]).move;
  }

  /** The scoring loop of the medium tier (script.js:375-385): each valid move with its score. */
  method ScoreMedium(g: Grid, validMoves: seq<Pos>) returns (scoredMoves: seq<Scored>)
    requires Shaped(g) && validMoves == ValidMoves(g, AI_PLAYER)
    ensures scoredMoves == MediumScored(g)
  {
    ghost var all := MediumScored(g);
    assert |all| == |validMoves| by { assert |Moves(all)| == |all|; }
    scoredMoves := [];
    for i := 0 to |validMoves|
      invariant scoredMoves == all[..i]
    {
      assert all[i].move == Moves(all)[i] == validMoves[i];
      var sm := Scored(validMoves[i], MediumScore2(g, validMoves[i]));
      assert sm == all[i];
      scoredMoves := scoredMoves + [sm];
    }
    assert all[..|validMoves|] == all;
  }

  /** The hard tier's choice (script.js:394-426): every valid move simulated and scored, then ranked. */
  method HardChoice(board: array2<Cell>, playerOrbCounts: Tally, validMoves: seq<Pos>, draws: seq<real>) returns (move: Pos)
    requires Sized(board) && Draws(draws) && validMoves == ValidMoves(Snapshot(board), AI_PLAYER) && validMoves != []
    ensures move == HardMove(Snapshot(board), playerOrbCounts, draws)
  {
    var scoredMoves := ScoreHard(board, playerOrbCounts, validMoves);
    var ranked := SortByScore(scoredMoves);
    move := HardPick(ranked, draws).move;
  }

  /** The scoring loop of the hard tier (script.js:398-414): each valid move simulated on a copy and scored. */
  method ScoreHard(board: array2<Cell>, playerOrbCounts: Tally, validMoves: seq<Pos>) returns (scoredMoves: seq<Scored>)
    requires Sized(board) && validMoves == ValidMoves(Snapshot(board), AI_PLAYER)
    ensures scoredMoves == HardScored(Snapshot(board), playerOrbCounts)
  {
    ghost var all := HardScored(Snapshot(board), playerOrbCounts);
    assert |all| == |validMoves| by { assert |Moves(all)| == |all|; }
    scoredMoves := [];
    for i := 0 to |validMoves|
      invariant scoredMoves == all[..i]
    {
      assert all[i].move == Moves(all)[i] == validMoves[i];
      var sm := SimulateMove(board, playerOrbCounts, validMoves[i]);
      assert sm == all[i];
      scoredMoves := scoredMoves + [sm];
    }
    assert all[..|validMoves|] == all;
  }

  class Game {
    /** `boardState` */
    const board: array2<Cell>
    /** `playerOrbCounts` */
    var playerOrbCounts: Tally
    var currentPlayer: Player
    var gameOver: bool
    var turnInProgress: bool
    var aiThinking: bool
    var turnCount: int
    var gameMode: Mode
    var aiDifficulty: Difficulty

    ghost predicate Valid()
      reads this
    {
      Sized(board)
    }

    /** The state of the game as a value. */
    function State(): Match
      requires Valid()
      reads this, board
    {
      Match(Snapshot(board), playerOrbCounts, currentPlayer, gameOver, turnInProgress, aiThinking, turnCount, gameMode, aiDifficulty)
    }

    /** `initGame()` for the chosen mode and difficulty (script.js:142-145). */
    constructor (mode: Mode, difficulty: Difficulty)
      ensures Valid() && fresh(board)
      ensures State() == InitialMatch(mode, difficulty)
    {
      board := new Cell[ROWS, COLS]((_, _) => Empty);
      currentPlayer, gameOver, turnInProgress, aiThinking := P1, false, false, false;
      turnCount, playerOrbCounts := 0, map[P1 := 0, P2 := 0];
      gameMode, aiDifficulty := mode, difficulty;
      new;
      ghost var g := Snapshot(board);
      forall r | 0 <= r < ROWS
        ensures g[r] == EmptyGrid()[r]
      {
        assert forall c :: 0 <= c < COLS ==> g[r][c] == EmptyGrid()[r][c];
      }
    }

    /** `switchPlayer()` (script.js:320) */
    method SwitchPlayer()
      requires Valid()
      modifies this
      ensures Valid() && State() == old(State()).(current := Other(old(currentPlayer)))
    {
      currentPlayer := if currentPlayer == P1 then P2 else P1;
    }

    /** Sets the `turnInProgress` and `aiThinking` flags and nothing else. */
    method SetFlags(inProgress: bool, thinking: bool)
      requires Valid()
      modifies this
      ensures Valid() && State() == old(State()).(turnInProgress := inProgress, aiThinking := thinking)
    {
      turnInProgress, aiThinking := inProgress, thinking;
    }

    /** `turnCount++` (script.js:202, 223) */
    method CountTurn()
      requires Valid()
      modifies this
      ensures Valid() && State() == old(State()).(turnCount := old(turnCount) + 1)
    {
      turnCount := turnCount + 1;
    }

    /**
     * `addOrbAndExplode(r, c, player)` (script.js:238-254): the board and the
     * tally become those of `AddOrb`; nothing else changes.
     */
    method AddOrbAndExplode(r: int, c: int, player: Player)
      requires Valid()
      modifies this, board
      ensures Valid()
      ensures var b := AddOrb(Board(old(Snapshot(board)), old(playerOrbCounts)), Pos(r, c), player);
        State() == old(State()).(grid := b.grid, counts := b.counts)
    {
      if !InBounds(r, c) {
        return;
      }
      playerOrbCounts := PlaceOrb(board, playerOrbCounts, Pos(r, c), player);
      var capacity := Capacity(r, c);
      if board[r, c].orbs > capacity {
        playerOrbCounts := RunExplosionSimulation(board, playerOrbCounts, r, c, player);
      }
    }

    /** `checkWinConditionAndEndGame()` (script.js:324-348), with `endGame` setting `gameOver` (script.js:349-353). */
    method CheckWinConditionAndEndGame() returns (gameHasEnded: bool)
      requires Valid()
      modifies this
      ensures Valid() && (State(), gameHasEnded) == CheckWin(old(State()))
    {
      if gameOver {
        return true;
      }
      var currentCounts, p1Cells, p2Cells := CountBoard(board);
      playerOrbCounts := currentCounts;
      gameHasEnded := false;
      if turnCount > 1 {
        var p1HasPresence := Count(playerOrbCounts, P1) > 0 || p1Cells > 0;
        var p2HasPresence := Count(playerOrbCounts, P2) > 0 || p2Cells > 0;
        if p1HasPresence && !p2HasPresence {
          gameHasEnded := true;
          gameOver := true;
        } else if p2HasPresence && !p1HasPresence {
          gameHasEnded := true;
          gameOver := true;
        }
      }
    }

    /**
     * The first half of `processTurnAction` (script.js:208-213): mark the turn
     * as in progress, place the orb and run the cascade, then check for a win.
     */
    method PlayMove(r: int, c: int, player: Player) returns (gameEndedByThisMove: bool)
      requires Valid() && !gameOver && InBounds(r, c)
      modifies this, board
      ensures Valid() && (State(), gameEndedByThisMove) == Play(old(State()), Pos(r, c), player)
    {
      SetFlags(true, gameMode == PvE && player == AI_PLAYER);
      AddOrbAndExplode(r, c, player);
      gameEndedByThisMove := CheckWinConditionAndEndGame();
    }

    /**
     * `processTurnAction(r, c, player)` (script.js:206-234), the computer's
     * reply included: the state afterwards is that of `ProcessTurn`.
     */
    method ProcessTurnAction(r: int, c: int, player: Player, draws: seq<real>)
      requires Valid() && Draws(draws)
      modifies this, board
      ensures Valid() && State() == ProcessTurn(old(State()), Pos(r, c), player, draws)
      decreases (if player == AI_PLAYER then 0 else 2) + (if currentPlayer == AI_PLAYER then 0 else 1), 2
    {
      if gameOver || !InBounds(r, c) {
        return;
      }
      var gameEndedByThisMove := PlayMove(r, c, player);
      if !gameEndedByThisMove {
        SwitchPlayer();
        if gameMode == PvE && currentPlayer == AI_PLAYER && !gameOver {
          ComputerReply(draws);
        } else {
          SetFlags(false, false);
        }
      } else {
        SetFlags(false, false);
      }
    }

    /**
     * The computer's reply (script.js:216-230): the move it chooses is counted
     * and played, or, when there is none, the turn goes back to player 1.
     */
    method ComputerReply(draws: seq<real>)
      requires Valid() && Draws(draws)
      requires gameMode == PvE && currentPlayer == AI_PLAYER && !gameOver
      modifies this, board
      ensures Valid() && State() == ComputerReplies(old(State()), draws)
      decreases 1, 1
    {
      var aiMove := ChooseComputerMove(draws);
      RespondTo(aiMove, draws);
    }

    /** The computer acts on the move it chose (script.js:221-229). */
    method RespondTo(aiMove: Option<Pos>, draws: seq<real>)
      requires Valid() && Draws(draws) && currentPlayer == AI_PLAYER
      modifies this, board
      ensures Valid() && State() == Respond(old(State()), aiMove, draws)
      decreases 1, 0
    {
      var ok := aiMove.Some?;
      if ok {
        ok := IsPlayable(aiMove.value, AI_PLAYER);
      }
      if ok {
        PlayComputerMove(aiMove.value, draws);
      } else {
        SetFlags(turnInProgress, false);
        SwitchPlayer();
      }
    }

    /** `turnCount++; await processTurnAction(aiMove.r, aiMove.c, AI_PLAYER)` (script.js:223-224) */
    method PlayComputerMove(m: Pos, draws: seq<real>)
      requires Valid() && Draws(draws) && currentPlayer == AI_PLAYER
      modifies this, board
      ensures Valid() && State() == ProcessTurn(old(State()).(turnCount := old(turnCount) + 1), m, AI_PLAYER, draws)
      decreases 0, 3
    {
      CountTurn();
      ProcessTurnAction(m.r, m.c, AI_PLAYER, draws);
    }

    /** The test applied to the computer's move (script.js:221): in bounds and empty or owned by the player. */
    method IsPlayable(m: Pos, p: Player) returns (ok: bool)
      requires Valid()
      ensures ok == Playable(Snapshot(board), p, m)
    {
      ok := InBounds(m.r, m.c) && (board[m.r, m.c].owner == None || board[m.r, m.c].owner == Some(p));
    }

    /** `aiThinking = true; const aiMove = getAIMove();` (script.js:217-218) */
    method ChooseComputerMove(draws: seq<real>) returns (aiMove: Option<Pos>)
      requires Valid() && Draws(draws)
      modifies this
      ensures Valid() && State() == old(State()).(aiThinking := true)
      ensures aiMove == AIMove(Snapshot(board), playerOrbCounts, gameMode, aiDifficulty, draws)
    {
      SetFlags(turnInProgress, true);
      aiMove := GetAIMove(board, playerOrbCounts, gameMode, aiDifficulty, draws);
    }

    /** The guards of `handleCellClick` (script.js:198-201): does a click on row r, column c go ahead? */
    method AcceptsClick(r: int, c: int) returns (ok: bool)
      requires Valid()
      ensures ok == !Rejected(State(), Pos(r, c))
    {
      ok := !(gameOver || turnInProgress || aiThinking)
         && InBounds(r, c) && !(board[r, c].owner.Some? && board[r, c].owner != Some(currentPlayer))
         && !(gameMode == PvE && currentPlayer == AI_PLAYER);
    }

    /** `handleCellClick` on the cell in row r, column c (script.js:197-204). */
    method HandleCellClick(r: int, c: int, draws: seq<real>)
      requires Valid() && Draws(draws)
      modifies this, board
      ensures Valid() && State() == Click(old(State()), Pos(r, c), draws)
    {
      ghost var s := State();
      var ok := AcceptsClick(r, c);
      if !ok {
        ClickRejected(s, Pos(r, c), draws);
        return;
      }
      ClickAccepted(s, Pos(r, c), draws);
      CountTurn();
      ProcessTurnAction(r, c, currentPlayer, draws);
    }
  }
}
