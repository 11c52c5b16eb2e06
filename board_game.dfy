/**
 * Tic-tac-toe run through the generic machinery: the board as a
 * `GameState` (legal moves, next state as a copy with the move applied,
 * result, player to move), `RandomStrat`, and what the driver loop and
 * `TerminalStateStrategy` do on it.
 */
module BoardGame {
  import opened Players
  import opened Wrappers
  import opened TicTacToe
  import opened Game
  import opened Evaluate
  import opened Strategy

  /** `BoardState` seen as a `GameState`. */
  const BOARD_RULES: GameRules<Board, Move> :=
    GameRules(New(), GetLegalMoves, NextState, GameResultOf, CurrentPlayer)

  /**
   * `RandomStrat::choose_move`: some legal move, `None` when there is none.
   * The random generator is replaced by an arbitrary pick.
   */
  method RandomChooseMove(b: Board) returns (chosen: Option<Move>)
    ensures chosen.None? <==> GetLegalMoves(b) == []
    ensures chosen.Some? ==> chosen.value in GetLegalMoves(b)
    ensures chosen.None? <==> IsDraw(b)
  {
    IsDrawIffNoLegalMoves(b);
    var legalMoves := GetLegalMoves(b);
    if legalMoves == [] {
      chosen := None;
    } else {
      var i :| 0 <= i < |legalMoves|;
      chosen := Some(legalMoves[i]);
    }
  }

  /** A strategy that offers a legal move whenever there is one, as `RandomStrat` does. */
  ghost predicate OffersLegalMoves(choose: Board -> Outcome<Option<Move>>)
  {
    forall b :: GetLegalMoves(b) != [] ==>
      choose(b).Done? && choose(b).value.Some? && choose(b).value.value in GetLegalMoves(b)
  }

  /**
   * With such a strategy, `play` on tic-tac-toe ends, with a determined
   * result, within as many passes as there are legal moves: each pass takes
   * a free cell, and a board without free cells is a draw or a win.
   */
  lemma {:induction false} PlayEnds(choose: Board -> Outcome<Option<Move>>, b: Board, fuel: nat)
    requires OffersLegalMoves(choose)
    requires fuel >= |GetLegalMoves(b)|
    ensures Run(BOARD_RULES, choose, b, fuel).0.Finished?
    ensures IsDetermined(Run(BOARD_RULES, choose, b, fuel).0.result)
    decreases fuel
  {
    RunEndsDetermined(BOARD_RULES, choose, b, fuel);
    if GameResultOf(b) == Undetermined {
      IsDrawIffNoLegalMoves(b);
      var m := choose(b).value.value;
      LegalMovesAfterMove(b, m);
      PlayEnds(choose, NextState(b, m), fuel - 1);
    }
  }

  /** The board of the `choose_move` example: X on 0 and 1, O on 3 and 4, player one to move. */
  const EXAMPLE: Board := Board({0, 1}, {3, 4}, One, X)

  /** Which cells of the example are taken. */
  lemma ExampleCells()
    ensures forall k: Bit :: 0 <= k < 2 ==> k in Occupied(EXAMPLE)
    ensures 2 !in Occupied(EXAMPLE)
    ensures forall k: Bit :: 3 <= k < 5 ==> k in Occupied(EXAMPLE)
    ensures forall k: Bit :: 5 <= k < 9 ==> k !in Occupied(EXAMPLE)
  {
  }

  /** The example's legal moves are its free cells in order: 2, then 5 to 8. */
  lemma ExampleLegalMoves()
    ensures GetLegalMoves(EXAMPLE) == [Move({2})] + MovesFrom(5)
  {
    var b := EXAMPLE;
    ExampleCells();
    AllMovesFromZero();
    FilterSkipsTaken(b, 0, 2);
    FilterStep(b, 2);
    FilterSkipsTaken(b, 3, 5);
    FilterKeepsFree(b, 5);
  }

  /**
   * `TerminalStateStrategy` completes the top row: cell 2 is the first free
   * cell that wins at once for player one, and the evaluator scores it as
   * that win.
   */
  lemma ChooseMoveCompletesRow()
    ensures ChooseMove(BOARD_RULES, EXAMPLE) == Done(Some(Move({2})))
    ensures TerminalEvaluate(BOARD_RULES, EXAMPLE, Move({2})) == Done(Win(One))
  {
    ExampleLegalMoves();
    var b := EXAMPLE;
    var next := NextState(b, Move({2}));
    assert next.player1 == {0, 1, 2};
    LineNeedsThreeCells(b.player1);
    LineNeedsThreeCells(b.player2);
    LineNeedsThreeCells(next.player2);
    assert 5 !in Occupied(b);
    assert WINNING_POSITIONS[0] <= next.player1;
    assert WinsAt(BOARD_RULES, b, 0);
  }

  /**
   * On the new board no move wins at once, so `choose_move` reaches the
   * source's `todo!()`.
   */
  lemma ChooseMoveOnNewBoard()
    ensures ChooseMove(BOARD_RULES, New()) == Todo
  {
    NewBoard();
    NoFirstMoveWins();
  }

  /**
   * `play` with `TerminalStateStrategy` from the new board panics on its
   * first pass, leaving the board as it was.
   */
  lemma TerminalStrategyPanicsOnNewBoard(fuel: nat)
    requires fuel >= 1
    ensures Run(BOARD_RULES, TerminalStrategy(BOARD_RULES), New(), fuel) == (Panicked, New())
  {
    NewBoard();
    ChooseMoveOnNewBoard();
    PlayWithTerminalStrategy(BOARD_RULES, New(), fuel);
  }

  /**
   * From the example board, `play` with `TerminalStateStrategy` completes
   * the top row and returns player one's win.
   */
  lemma TerminalStrategyWinsExample(fuel: nat)
    requires fuel >= 1
    ensures Run(BOARD_RULES, TerminalStrategy(BOARD_RULES), EXAMPLE, fuel).0 == Finished(Win(One))
  {
    ChooseMoveCompletesRow();
    assert !IsDetermined(GameResultOf(EXAMPLE)) by {
      LineNeedsThreeCells(EXAMPLE.player1);
      LineNeedsThreeCells(EXAMPLE.player2);
      ExampleCells();
    }
    PlayWithTerminalStrategy(BOARD_RULES, EXAMPLE, fuel);
  }

  /** No legal move of the new board wins at once. */
  lemma NoFirstMoveWins()
    ensures forall k :: 0 <= k < |BOARD_RULES.legalMoves(New())| ==> !WinsAt(BOARD_RULES, New(), k)
  {
    forall k | 0 <= k < |BOARD_RULES.legalMoves(New())|
      ensures !WinsAt(BOARD_RULES, New(), k)
    {
      NewBoard();
      AllMovesAreCells();
      var m := BOARD_RULES.legalMoves(New())[k];
      assert m == Move({k});
      FirstMoveUndetermined(k);
    }
  }

  /** The board after player one took cell 0 of the new board. */
  const CORNER_BOARD: Board := NextState(New(), Move({0}))

  /**
   * On that board no legal move wins at once: player one then holds at
   * most two cells and player two none.
   */
  lemma NoSecondMoveWins()
    ensures forall k :: 0 <= k < |GetLegalMoves(CORNER_BOARD)| ==> !WinsAt(BOARD_RULES, CORNER_BOARD, k)
  {
    forall k | 0 <= k < |GetLegalMoves(CORNER_BOARD)|
      ensures !WinsAt(BOARD_RULES, CORNER_BOARD, k)
    {
      var m := GetLegalMoves(CORNER_BOARD)[k];
      LegalMovesAreFreeCells(CORNER_BOARD, m);
      var c :| c in DRAW && c !in Occupied(CORNER_BOARD) && m == Move({c});
      var next := NextState(CORNER_BOARD, m);
      assert next.player1 == {0} + {c};
      LineNeedsThreeCells(next.player1);
      LineNeedsThreeCells(next.player2);
    }
  }

  /**
   * The second loop of `choose_move` on the new board probes the successor
   * of cell 0 only: that probe finds no winning move and reaches
   * `todo!()`, so the eight other successors are never probed.
   */
  lemma ProbesStopAtFirstCell()
    ensures ProbedMoves(BOARD_RULES, New()) == [0]
    ensures ChooseMove(BOARD_RULES, Successor(BOARD_RULES, New(), 0)) == Todo
  {
    ChooseMoveOnNewBoard();
    FirstSuccessorIsCorner();
    CornerBoardReachesTodo();
    assert ProbesFrom(BOARD_RULES, New(), 0) == [0];
  }

  /**
   * On the example board `choose_move` returns the winning cell 2 from
   * its first loop, so its second loop, and every recursive call in it,
   * is never reached.
   */
  lemma ExampleProbesNothing()
    ensures ProbedMoves(BOARD_RULES, EXAMPLE) == []
  {
    ChooseMoveCompletesRow();
  }

  /** Cell 0 is the first legal move of the new board, and it leads to the corner board. */
  lemma FirstSuccessorIsCorner()
    ensures |GetLegalMoves(New())| == 9
    ensures Successor(BOARD_RULES, New(), 0) == CORNER_BOARD
  {
    NewBoard();
    AllMovesAreCells();
  }

  /** On the corner board the game goes on and `choose_move` reaches `todo!()`. */
  lemma CornerBoardReachesTodo()
    ensures GameResultOf(CORNER_BOARD) == Undetermined
    ensures ChooseMove(BOARD_RULES, CORNER_BOARD) == Todo
  {
    FirstMoveUndetermined(0);
    NoSecondMoveWins();
  }

  /** After one move on the new board the game is still undetermined. */
  lemma FirstMoveUndetermined(k: Bit)
    requires k < 9
    ensures GameResultOf(NextState(New(), Move({k}))) == Undetermined
  {
    var next := NextState(New(), Move({k}));
    LineNeedsThreeCells(next.player1);
    LineNeedsThreeCells(next.player2);
    var free := if k == 0 then 1 else 0;
    assert free !in Occupied(next);
  }

  /**
   * `try_move` to a free cell while player one is to move: it succeeds and
   * adds the cell to player one's mask.
   */
  method TakeCell(board: BoardState, c: Bit) returns (applied: bool)
    requires board.toMove == One && c !in board.player1 + board.player2
    modifies board
    ensures applied && board.player1 == old(board.player1) + {c}
    ensures board.player2 == old(board.player2) && board.toMove == One
    ensures board.player1Piece == old(board.player1Piece)
  {
    CellMoveIsLegal(board.Value(), c);
    applied := board.TryMove(Move({c}));
  }

  /** The board after cells 0, 3, 1, 4 and 2 all went to player one. */
  const ROW_BOARD: Board := Board({0, 1, 2, 3, 4}, {}, One, X)

  lemma RowBoardCells()
    ensures forall k: Bit :: 0 <= k < 5 ==> k in Occupied(ROW_BOARD)
    ensures forall k: Bit :: 5 <= k < 9 ==> k !in Occupied(ROW_BOARD)
  {
  }

  /** Player one holds the top row, and cells 5 to 8 are still free to take. */
  lemma RowBoardOutcome()
    ensures GameResultOf(ROW_BOARD) == Win(One)
    ensures GetLegalMoves(ROW_BOARD) == MovesFrom(5)
  {
    var b := ROW_BOARD;
    RowBoardCells();
    LineNeedsThreeCells(b.player2);
    assert WINNING_POSITIONS[0] <= b.player1;
    AllMovesFromZero();
    FilterSkipsTaken(b, 0, 5);
    FilterKeepsFree(b, 5);
  }

  /**
   * A full board where player one holds every cell is a win for player
   * one, though it is also a draw by `is_draw`.
   */
  lemma FullBoardOutcome(b: Board)
    requires b.player2 == {} && b.toMove == One && DRAW <= b.player1
    ensures GameResultOf(b) == Win(One) && IsDraw(b)
  {
    LineNeedsThreeCells(b.player2);
    assert WINNING_POSITIONS[0] <= b.player1;
  }

  /**
   * Cells 0, 3, 1, 4, 2 played through `try_move` from a new board: the
   * turn never passes, so all five go to player one, who completes the top
   * row, and the four remaining cells are still legal moves.
   */
  method RowScenario() returns (result: GameResult, remaining: seq<Move>)
    ensures result == Win(One)
    ensures remaining == MovesFrom(5)
  {
    var board := new BoardState();
    var applied := TakeCell(board, 0);
    applied := TakeCell(board, 3);
    applied := TakeCell(board, 1);
    applied := TakeCell(board, 4);
    applied := TakeCell(board, 2);
    var b := board.Value();
    assert b == ROW_BOARD;
    RowBoardOutcome();
    result := GameResultOf(b);
    remaining := GetLegalMoves(b);
  }

  /**
   * Cells 0, 1, 3, 2, 4, 6, 5, 7, 8 through `try_move`: all nine go to
   * player one, so the board is full and also holds a line; the line takes
   * precedence over the full board.
   */
  method FullBoardScenario() returns (result: GameResult, full: bool)
    ensures result == Win(One) && full
  {
    var board := new BoardState();
    var applied := TakeCell(board, 0);
    applied := TakeCell(board, 1);
    applied := TakeCell(board, 3);
    applied := TakeCell(board, 2);
    applied := TakeCell(board, 4);
    applied := TakeCell(board, 6);
    applied := TakeCell(board, 5);
    applied := TakeCell(board, 7);
    applied := TakeCell(board, 8);
    var b := board.Value();
    FullBoardOutcome(b);
    result := GameResultOf(b);
    full := IsDraw(b);
  }
}
