/**
 * The turn controller of the chain-reaction game as a state machine over the
 * game's globals: the board and tally, the player to move, the flags
 * `gameOver`, `turnInProgress` and `aiThinking`, and the turn counter.
 *
 * `Match` is the state as a value, and `InitialMatch`, `CheckWin`,
 * `ProcessTurn` and `Click` are the transitions of `initGame`,
 * `checkWinConditionAndEndGame`, `processTurnAction` and `handleCellClick`.
 * The class `Game` in module `Session` holds the same state in fields and an
 * array and is proved to make exactly these transitions.
 */
module Controller {
  import opened Wrappers
  import opened Grid
  import opened Cascade
  import opened Ai
  import CascadeFacts

  datatype Match = Match(
    grid: Grid,
    counts: Tally,
    current: Player,
    gameOver: bool,
    turnInProgress: bool,
    aiThinking: bool,
    turnCount: int,
    mode: Mode,
    difficulty: Difficulty)

  /** `initGame` (script.js:142-145): an empty board, player 1 to move, all flags off, turn 0. */
  function InitialMatch(mode: Mode, difficulty: Difficulty): (s: Match)
    ensures Shaped(s.grid) && WellFormed(s.grid) && Stable(s.grid) && Consistent(s.grid, s.counts)
    ensures forall r, c :: InBounds(r, c) ==> s.grid[r][c] == Empty
    ensures Count(s.counts, P1) == 0 && Count(s.counts, P2) == 0
    ensures s.current == P1 && !s.gameOver && !s.turnInProgress && !s.aiThinking && s.turnCount == 0
    ensures s.mode == mode && s.difficulty == difficulty
  {
    var g := EmptyGrid();
    EmptyGridSums(g, OrbsOf(P1));
    EmptyGridSums(g, OrbsOf(P2));
    Match(g, map[P1 := 0, P2 := 0], P1, false, false, false, 0, mode, difficulty)
  }

  /** On the new board every cell is a valid move for either player. */
  lemma InitialMoves(mode: Mode, difficulty: Difficulty, p: Player)
    ensures ValidMoves(InitialMatch(mode, difficulty).grid, p) == RowMajor()
  {
    var g := InitialMatch(mode, difficulty).grid;
    RowMajorEnumeratesBoard();
    FilterAll(RowMajor(), PlayableFor(g, p));
  }

  lemma {:induction false} EmptyRowSum(row: seq<Cell>, m: Measure)
    requires m != AllOrbs && forall i :: 0 <= i < |row| ==> row[i] == Empty
    ensures RowSum(row, m) == 0
  {
    if row != [] {
      EmptyRowSum(row[..|row| - 1], m);
    }
  }

  lemma {:induction false} EmptyGridSums(g: Grid, m: Measure)
    requires m != AllOrbs && forall r, c :: 0 <= r < |g| && 0 <= c < |g[r]| ==> g[r][c] == Empty
    ensures GridSum(g, m) == 0
  {
    if g != [] {
      EmptyGridSums(g[..|g| - 1], m);
      EmptyRowSum(g[|g| - 1], m);
    }
  }

  // ---------------------------------------------------------------------
  // checkWinConditionAndEndGame

  /** A player has presence on the board: orbs or cells (script.js:342-343). */
  predicate HasPresence(g: Grid, p: Player) {
    GridSum(g, OrbsOf(p)) > 0 || GridSum(g, CellsOf(p)) > 0
  }

  /**
   * `checkWinConditionAndEndGame()` (script.js:324-348): the new state and
   * whether the game has ended.
   */
  function CheckWin(s: Match): (res: (Match, bool))
    requires Shaped(s.grid)
    ensures res.0 == s.(counts := res.0.counts, gameOver := res.0.gameOver)
  {
    if s.gameOver then (s, true)
    else
      var currentCounts := Recount(s.grid);
      var p1Cells := GridSum(s.grid, CellsOf(P1));
      var p2Cells := GridSum(s.grid, CellsOf(P2));
      var s1 := s.(counts := currentCounts);
      if s.turnCount > 1 then
        var p1HasPresence := Count(currentCounts, P1) > 0 || p1Cells > 0;
        var p2HasPresence := Count(currentCounts, P2) > 0 || p2Cells > 0;
        if p1HasPresence && !p2HasPresence then (s1.(gameOver := true), true)
        else if p2HasPresence && !p1HasPresence then (s1.(gameOver := true), true)
        else (s1, false)
      else (s1, false)
  }

  /**
   * An ended game stays as it is and reports an end.  Otherwise the tally is
   * replaced by a recount that agrees with the board, and the game ends
   * exactly when more than one turn has been played and exactly one player has
   * presence.
   */
  lemma CheckWinMeaning(s: Match)
    requires Shaped(s.grid)
    ensures s.gameOver ==> CheckWin(s) == (s, true)
    ensures !s.gameOver ==>
      var (s', ended) := CheckWin(s);
      && Consistent(s.grid, s'.counts)
      && s'.gameOver == ended
      && (ended <==> s.turnCount > 1 && HasPresence(s.grid, P1) != HasPresence(s.grid, P2))
  {
  }

  /** Running the check a second time on the same board changes nothing and gives the same answer. */
  lemma CheckWinIdempotent(s: Match)
    requires Shaped(s.grid)
    ensures CheckWin(CheckWin(s).0) == CheckWin(s)
  {
    if !s.gameOver {
      var s1 := CheckWin(s).0;
      assert Recount(s1.grid) == s1.counts;
    }
  }

  lemma {:induction false} RowOwnerWitness(row: seq<Cell>, p: Player)
    requires RowSum(row, CellsOf(p)) > 0 || RowSum(row, OrbsOf(p)) > 0
    ensures exists c :: 0 <= c < |row| && row[c].owner == Some(p)
  {
    var n := |row| - 1;
    if row[n].owner != Some(p) {
      RowOwnerWitness(row[..n], p);
      var c :| 0 <= c < n && row[..n][c].owner == Some(p);
      assert row[c] == row[..n][c];
    }
  }

  lemma {:induction false} GridOwnerWitness(g: Grid, p: Player)
    requires GridSum(g, CellsOf(p)) > 0 || GridSum(g, OrbsOf(p)) > 0
    ensures exists r, c :: 0 <= r < |g| && 0 <= c < |g[r]| && g[r][c].owner == Some(p)
  {
    var n := |g| - 1;
    if RowSum(g[n], CellsOf(p)) > 0 || RowSum(g[n], OrbsOf(p)) > 0 {
      RowOwnerWitness(g[n], p);
    } else {
      GridOwnerWitness(g[..n], p);
      var r, c :| 0 <= r < n && 0 <= c < |g[..n][r]| && g[..n][r][c].owner == Some(p);
      assert g[r] == g[..n][r];
    }
  }

  lemma {:induction false} NoOwnerNoCells(g: Grid, p: Player)
    requires forall r, c :: 0 <= r < |g| && 0 <= c < |g[r]| ==> g[r][c].owner != Some(p)
    ensures GridSum(g, CellsOf(p)) == 0
  {
    if GridSum(g, CellsOf(p)) > 0 {
      GridOwnerWitness(g, p);
    }
  }

  /**
   * When the check lets a game go on after the first turn, the computer has a
   * valid move: either it has presence, hence a cell of its own, or neither
   * player has, and then every cell is free.
   */
  lemma ComputerCanMoveAfterCheck(s: Match)
    requires Shaped(s.grid) && !s.gameOver && s.turnCount > 1 && !CheckWin(s).1
    ensures ValidMoves(s.grid, AI_PLAYER) != []
  {
    CheckWinMeaning(s);
    RowMajorEnumeratesBoard();
    if HasPresence(s.grid, AI_PLAYER) {
      GridOwnerWitness(s.grid, AI_PLAYER);
      var r, c :| 0 <= r < |s.grid| && 0 <= c < |s.grid[r]| && s.grid[r][c].owner == Some(AI_PLAYER);
      assert Playable(s.grid, AI_PLAYER, Pos(r, c));
    } else {
      assert !HasPresence(s.grid, P1);
      GridSumBoundsCell(s.grid, 0, 0, CellsOf(P1));
      var corner := At(s.grid, Pos(0, 0));
      assert corner.owner != Some(P1);
      if corner.owner.Some? {
        assert corner.owner.value == P2;
      }
      assert Playable(s.grid, AI_PLAYER, Pos(0, 0));
    }
  }

  // ---------------------------------------------------------------------
  // processTurnAction and handleCellClick

  /**
   * The move itself (script.js:208-213): the turn is marked in progress, the
   * orb is placed and the cascade run, then the game checks for a winner.  The
   * result is the new state and whether the game has ended.
   */
  function Play(s: Match, pos: Pos, player: Player): (res: (Match, bool))
    requires Shaped(s.grid) && !s.gameOver && Inside(pos)
    ensures Shaped(res.0.grid) && Consistent(res.0.grid, res.0.counts)
    ensures res.0.gameOver == res.1
    ensures res.0.turnInProgress && res.0.aiThinking == (s.mode == PvE && player == AI_PLAYER)
    ensures res.0.current == s.current && res.0.turnCount == s.turnCount
    ensures res.0.mode == s.mode && res.0.difficulty == s.difficulty
  {
    var s1 := s.(turnInProgress := true, aiThinking := s.mode == PvE && player == AI_PLAYER);
    var b := AddOrb(Board(s1.grid, s1.counts), pos, player);
    var s2 := s1.(grid := b.grid, counts := b.counts);
    CheckWinMeaning(s2);
    CheckWin(s2)
  }

  /**
   * `processTurnAction(r, c, player)` (script.js:206-234), with the draws the
   * computer's move choice consumes.  The computer's reply is the nested call;
   * it runs with the computer to move, so it never nests again.
   */
  function ProcessTurn(s: Match, pos: Pos, player: Player, draws: seq<real>): (s': Match)
    requires Shaped(s.grid) && Draws(draws)
    ensures Shaped(s'.grid) && s'.mode == s.mode && s'.difficulty == s.difficulty
    decreases (if player == AI_PLAYER then 0 else 2) + (if s.current == AI_PLAYER then 0 else 1), 2
  {
    if s.gameOver || !Inside(pos) then s
    else
      var (s2, ended) := Play(s, pos, player);
      if ended then s2.(turnInProgress := false, aiThinking := false)
      else
        var s3 := s2.(current := Other(s2.current));
        if s3.mode == PvE && s3.current == AI_PLAYER && !s3.gameOver then ComputerReplies(s3, draws)
        else s3.(turnInProgress := false, aiThinking := false)
  }

  /**
   * The computer's reply (script.js:216-230): with `aiThinking` set it chooses
   * a move, and `Respond` plays or passes on it.
   */
  function ComputerReplies(s: Match, draws: seq<real>): (s': Match)
    requires Shaped(s.grid) && Draws(draws)
    requires s.mode == PvE && s.current == AI_PLAYER && !s.gameOver
    ensures Shaped(s'.grid) && s'.mode == s.mode && s'.difficulty == s.difficulty
    decreases 1, 1
  {
    Respond(s.(aiThinking := true), AIMove(s.grid, s.counts, s.mode, s.difficulty, draws), draws)
  }

  /**
   * What the computer does with the move it chose (script.js:221-229): a move on
   * an empty or own cell is counted and played as a turn of its own; anything
   * else clears `aiThinking` and hands the turn back to player 1.
   */
  function Respond(s: Match, aiMove: Option<Pos>, draws: seq<real>): (s': Match)
    requires Shaped(s.grid) && Draws(draws) && s.current == AI_PLAYER
    ensures Shaped(s'.grid) && s'.mode == s.mode && s'.difficulty == s.difficulty
    decreases 1, 0
  {
    if aiMove.Some? && Playable(s.grid, AI_PLAYER, aiMove.value) then
      ProcessTurn(s.(turnCount := s.turnCount + 1), aiMove.value, AI_PLAYER, draws)
    else s.(aiThinking := false, current := Other(s.current))
  }

  /** The guards of `handleCellClick` (script.js:198-201) that turn a click away. */
  predicate Rejected(s: Match, pos: Pos)
    requires Shaped(s.grid)
  {
    || s.gameOver || s.turnInProgress || s.aiThinking
    || !Inside(pos)
    || (At(s.grid, pos).owner.Some? && At(s.grid, pos).owner != Some(s.current))
    || (s.mode == PvE && s.current == AI_PLAYER)
  }

  /** `handleCellClick` on the cell at pos (script.js:197-204). */
  function Click(s: Match, pos: Pos, draws: seq<real>): (s': Match)
    requires Shaped(s.grid) && Draws(draws)
    ensures Shaped(s'.grid)
  {
    if s.gameOver || s.turnInProgress || s.aiThinking then s
    else if !Inside(pos) || (At(s.grid, pos).owner.Some? && At(s.grid, pos).owner != Some(s.current)) then s
    else if s.mode == PvE && s.current == AI_PLAYER then s
    else ProcessTurn(s.(turnCount := s.turnCount + 1), pos, s.current, draws)
  }

  /**
   * A turn played with the computer to move never nests a reply: it leaves the
   * turn counter alone and, once played, clears both flags.
   */
  lemma ComputerTurn(s: Match, pos: Pos, player: Player, draws: seq<real>)
    requires Shaped(s.grid) && Draws(draws) && s.current == AI_PLAYER
    ensures ProcessTurn(s, pos, player, draws).turnCount == s.turnCount
    ensures !s.gameOver && Inside(pos) ==>
      var s' := ProcessTurn(s, pos, player, draws);
      !s'.turnInProgress && !s'.aiThinking && Consistent(s'.grid, s'.counts)
  {
    if !s.gameOver && Inside(pos) {
      var (s2, ended) := Play(s, pos, player);
      assert Other(s2.current) == P1;
    }
  }

  /**
   * Who moves after a turn the game has not ended in: the other player in a
   * two-player game, and player 1 again against the computer, whose reply has
   * passed the turn back (script.js:216, 229-230).
   */
  lemma ProcessTurnNextPlayer(s: Match, pos: Pos, player: Player, draws: seq<real>)
    requires Shaped(s.grid) && Draws(draws) && !s.gameOver && Inside(pos)
    ensures var t := ProcessTurn(s, pos, player, draws);
      !t.gameOver ==> t.current == if s.mode == PvE then P1 else Other(s.current)
  {
    var (s2, ended) := Play(s, pos, player);
    var s3 := s2.(current := Other(s2.current));
    if !ended && s3.mode == PvE && s3.current == AI_PLAYER {
      RespondNextPlayer(s3.(aiThinking := true), AIMove(s3.grid, s3.counts, s3.mode, s3.difficulty, draws), draws);
    }
  }

  /** Whatever the computer does with its chosen move, player 1 moves next unless the game ended. */
  lemma RespondNextPlayer(s: Match, aiMove: Option<Pos>, draws: seq<real>)
    requires Shaped(s.grid) && Draws(draws) && s.current == AI_PLAYER && !s.gameOver
    ensures var t := Respond(s, aiMove, draws);
      !t.gameOver ==> t.current == P1
  {
    if aiMove.Some? && Playable(s.grid, AI_PLAYER, aiMove.value) {
      var u := s.(turnCount := s.turnCount + 1);
      var (s2, ended) := Play(u, aiMove.value, AI_PLAYER);
      assert Other(s2.current) == P1;
    }
  }

  /** A turn adds at most one to the counter, for the computer's reply, and none in a two-player game. */
  lemma ProcessTurnCount(s: Match, pos: Pos, player: Player, draws: seq<real>)
    requires Shaped(s.grid) && Draws(draws)
    ensures var s' := ProcessTurn(s, pos, player, draws);
      s.turnCount <= s'.turnCount <= s.turnCount + 1 && (s.mode == PvP ==> s'.turnCount == s.turnCount)
  {
    if !s.gameOver && Inside(pos) {
      var (s2, ended) := Play(s, pos, player);
      var s3 := s2.(current := Other(s2.current));
      if !ended && s3.mode == PvE && s3.current == AI_PLAYER && !s3.gameOver {
        ComputerRepliesCount(s3, draws);
      }
    }
  }

  /** The computer's reply counts at most its own move. */
  lemma ComputerRepliesCount(s: Match, draws: seq<real>)
    requires Shaped(s.grid) && Draws(draws)
    requires s.mode == PvE && s.current == AI_PLAYER && !s.gameOver
    ensures s.turnCount <= ComputerReplies(s, draws).turnCount <= s.turnCount + 1
  {
    RespondCount(s.(aiThinking := true), AIMove(s.grid, s.counts, s.mode, s.difficulty, draws), draws);
  }

  /** Whatever move the computer chose, acting on it counts at most that move. */
  lemma RespondCount(s: Match, aiMove: Option<Pos>, draws: seq<real>)
    requires Shaped(s.grid) && Draws(draws) && s.current == AI_PLAYER
    ensures s.turnCount <= Respond(s, aiMove, draws).turnCount <= s.turnCount + 1
  {
    if aiMove.Some? && Playable(s.grid, AI_PLAYER, aiMove.value) {
      ComputerTurn(s.(turnCount := s.turnCount + 1), aiMove.value, AI_PLAYER, draws);
    }
  }

  /**
   * A click changes nothing exactly when a guard turns it away.  An accepted
   * click counts exactly one turn for the player's move, and one more when the
   * computer replies.
   */
  lemma ClickTurnCount(s: Match, pos: Pos, draws: seq<real>)
    requires Shaped(s.grid) && Draws(draws)
    ensures Rejected(s, pos) <==> Click(s, pos, draws) == s
    ensures !Rejected(s, pos) && s.mode == PvP ==> Click(s, pos, draws).turnCount == s.turnCount + 1
    ensures !Rejected(s, pos) && s.mode == PvE ==>
      s.turnCount + 1 <= Click(s, pos, draws).turnCount <= s.turnCount + 2
  {
    if !Rejected(s, pos) {
      ProcessTurnCount(s.(turnCount := s.turnCount + 1), pos, s.current, draws);
    }
  }

  /**
   * After a turn is played the computer is not thinking and the tally agrees
   * with the board.  A turn is left in progress only in a game against the
   * computer that is not over, with player 1 to move and no valid move for the
   * computer: the fallback of script.js:229-230 hands the turn back without
   * clearing `turnInProgress`.  That happens only while at most one turn has
   * been counted, because from then on the winner check leaves the computer a
   * valid move whenever it lets the game go on.
   */
  lemma ProcessTurnFlags(s: Match, pos: Pos, player: Player, draws: seq<real>)
    requires Shaped(s.grid) && Draws(draws) && !s.gameOver && Inside(pos)
    ensures var s' := ProcessTurn(s, pos, player, draws);
      && !s'.aiThinking
      && Consistent(s'.grid, s'.counts)
      && (s'.turnInProgress ==>
            && s'.mode == PvE && !s'.gameOver && s'.current == P1 && ValidMoves(s'.grid, AI_PLAYER) == []
            && s'.turnCount == s.turnCount <= 1 && s'.grid == Play(s, pos, player).0.grid)
  {
    var (s2, ended) := Play(s, pos, player);
    if !ended {
      if s.turnCount > 1 {
        PlayLeavesComputerAMove(s, pos, player);
      }
      var s3 := s2.(current := Other(s2.current));
      if s3.mode == PvE && s3.current == AI_PLAYER && !s3.gameOver {
        ComputerRepliesFlags(s3, draws);
      }
    }
  }

  /**
   * After the computer's reply `aiThinking` is clear; `turnInProgress` stays set
   * only on the fallback, which is taken only when the computer has no valid move.
   */
  lemma ComputerRepliesFlags(s: Match, draws: seq<real>)
    requires Shaped(s.grid) && Draws(draws) && Consistent(s.grid, s.counts)
    requires s.mode == PvE && s.current == AI_PLAYER && !s.gameOver
    ensures var t := ComputerReplies(s, draws);
      && !t.aiThinking
      && Consistent(t.grid, t.counts)
      && (t.turnInProgress ==>
            && !t.gameOver && t.current == P1 && ValidMoves(t.grid, AI_PLAYER) == []
            && t.turnCount == s.turnCount && t.grid == s.grid && t.turnInProgress == s.turnInProgress)
  {
    RespondFlags(s.(aiThinking := true), AIMove(s.grid, s.counts, s.mode, s.difficulty, draws), draws);
  }

  /** A move that `getAIMove` can return is played in full; the fallback is reached only without one. */
  lemma RespondFlags(s: Match, aiMove: Option<Pos>, draws: seq<real>)
    requires Shaped(s.grid) && Draws(draws) && Consistent(s.grid, s.counts)
    requires s.mode == PvE && s.current == AI_PLAYER && !s.gameOver
    requires aiMove.Some? <==> ValidMoves(s.grid, AI_PLAYER) != []
    requires aiMove.Some? ==> aiMove.value in ValidMoves(s.grid, AI_PLAYER)
    ensures var t := Respond(s, aiMove, draws);
      && !t.aiThinking
      && Consistent(t.grid, t.counts)
      && (t.turnInProgress ==>
            && !t.gameOver && t.current == P1 && ValidMoves(t.grid, AI_PLAYER) == []
            && t.turnCount == s.turnCount && t.grid == s.grid && t.turnInProgress == s.turnInProgress)
  {
    if aiMove.Some? {
      ComputerTurn(s.(turnCount := s.turnCount + 1), aiMove.value, AI_PLAYER, draws);
    }
  }

  lemma PlayLeavesComputerAMove(s: Match, pos: Pos, player: Player)
    requires Shaped(s.grid) && !s.gameOver && Inside(pos) && s.turnCount > 1 && !Play(s, pos, player).1
    ensures ValidMoves(Play(s, pos, player).0.grid, AI_PLAYER) != []
  {
    var s1 := s.(turnInProgress := true, aiThinking := s.mode == PvE && player == AI_PLAYER);
    var b := AddOrb(Board(s1.grid, s1.counts), pos, player);
    ComputerCanMoveAfterCheck(s1.(grid := b.grid, counts := b.counts));
  }

  /** Once a turn has been played, an accepted click leaves no turn in progress and no computer thinking. */
  lemma ClickNeverStallsAfterFirstTurn(s: Match, pos: Pos, draws: seq<real>)
    requires Shaped(s.grid) && Draws(draws) && !Rejected(s, pos) && s.turnCount >= 1
    ensures !Click(s, pos, draws).turnInProgress && !Click(s, pos, draws).aiThinking
  {
    var t := s.(turnCount := s.turnCount + 1);
    ClickAccepted(s, pos, draws);
    ProcessTurnFlags(t, pos, s.current, draws);
  }

  /**
   * The first click of a new game never leaves the game stuck either: one orb
   * on an empty board sets off no cascade and leaves the computer free cells.
   */
  lemma FirstClickNeverStalls(mode: Mode, difficulty: Difficulty, pos: Pos, draws: seq<real>)
    requires Draws(draws) && Inside(pos)
    ensures var s' := Click(InitialMatch(mode, difficulty), pos, draws);
      !s'.turnInProgress && !s'.aiThinking && s'.turnCount >= 1
  {
    var s := InitialMatch(mode, difficulty);
    assert !Rejected(s, pos);
    var t := s.(turnCount := s.turnCount + 1);
    ClickAccepted(s, pos, draws);
    ClickTurnCount(s, pos, draws);
    ProcessTurnFlags(t, pos, P1, draws);
    var g := Play(t, pos, P1).0.grid;
    assert g == SetAt(s.grid, pos, Cell(Some(P1), 1));
    var q := if pos == Pos(0, 0) then Pos(0, 1) else Pos(0, 0);
    assert Playable(g, AI_PLAYER, q);
  }

  /** A click the guards turn away changes nothing. */
  lemma ClickRejected(s: Match, pos: Pos, draws: seq<real>)
    requires Shaped(s.grid) && Draws(draws) && Rejected(s, pos)
    ensures Click(s, pos, draws) == s
  {
  }

  /** An accepted click counts the turn and plays it for the player to move. */
  lemma ClickAccepted(s: Match, pos: Pos, draws: seq<real>)
    requires Shaped(s.grid) && Draws(draws) && !Rejected(s, pos)
    ensures Click(s, pos, draws) == ProcessTurn(s.(turnCount := s.turnCount + 1), pos, s.current, draws)
  {
  }

  /**
   * The players alternate: after an accepted click that does not end the game,
   * the other player is to move in a two-player game, and player 1 again
   * against the computer.
   */
  lemma ClickNextPlayer(s: Match, pos: Pos, draws: seq<real>)
    requires Shaped(s.grid) && Draws(draws) && !Rejected(s, pos)
    ensures var t := Click(s, pos, draws);
      !t.gameOver ==> t.current == if s.mode == PvE then P1 else Other(s.current)
  {
    ClickAccepted(s, pos, draws);
    ProcessTurnNextPlayer(s.(turnCount := s.turnCount + 1), pos, s.current, draws);
  }

  /**
   * A turn keeps the board well formed: the player's own move targets an empty
   * or own cell (the click guards), and so does the computer's reply.
   */
  lemma ProcessTurnKeepsBoard(s: Match, pos: Pos, player: Player, draws: seq<real>)
    requires Shaped(s.grid) && Draws(draws) && WellFormed(s.grid)
    requires Inside(pos) ==> Playable(s.grid, player, pos)
    ensures WellFormed(ProcessTurn(s, pos, player, draws).grid)
    decreases (if player == AI_PLAYER then 0 else 2) + (if s.current == AI_PLAYER then 0 else 1), 2
  {
    if !s.gameOver && Inside(pos) {
      CascadeFacts.AddOrbGuarantees(Board(s.grid, s.counts), pos, player);
      var (s2, ended) := Play(s, pos, player);
      var s3 := s2.(current := Other(s2.current));
      if !ended && s3.mode == PvE && s3.current == AI_PLAYER && !s3.gameOver {
        ComputerRepliesKeepBoard(s3, draws);
      }
    }
  }

  /** The computer's reply keeps the board well formed: it plays only an empty or own cell. */
  lemma ComputerRepliesKeepBoard(s: Match, draws: seq<real>)
    requires Shaped(s.grid) && Draws(draws) && WellFormed(s.grid)
    requires s.mode == PvE && s.current == AI_PLAYER && !s.gameOver
    ensures WellFormed(ComputerReplies(s, draws).grid)
    decreases 1, 1
  {
    RespondKeepsBoard(s.(aiThinking := true), AIMove(s.grid, s.counts, s.mode, s.difficulty, draws), draws);
  }

  /** Whatever move the computer chose, acting on it keeps the board well formed. */
  lemma RespondKeepsBoard(s: Match, aiMove: Option<Pos>, draws: seq<real>)
    requires Shaped(s.grid) && Draws(draws) && WellFormed(s.grid) && s.current == AI_PLAYER
    ensures WellFormed(Respond(s, aiMove, draws).grid)
    decreases 1, 0
  {
    if aiMove.Some? && Playable(s.grid, AI_PLAYER, aiMove.value) {
      ProcessTurnKeepsBoard(s.(turnCount := s.turnCount + 1), aiMove.value, AI_PLAYER, draws);
    }
  }

  /** A click keeps the board well formed. */
  lemma ClickKeepsBoard(s: Match, pos: Pos, draws: seq<real>)
    requires Shaped(s.grid) && Draws(draws) && WellFormed(s.grid)
    ensures WellFormed(Click(s, pos, draws).grid)
  {
    if !Rejected(s, pos) {
      assert Playable(s.grid, s.current, pos);
      ProcessTurnKeepsBoard(s.(turnCount := s.turnCount + 1), pos, s.current, draws);
    }
  }
}
