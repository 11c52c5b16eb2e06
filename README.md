# minimax_game in Dafny

A model of the core of `minimax_game`, a small Rust framework for
two-player, turn-based games of perfect information. The framework keeps
three things apart: the rules of a game, an evaluator that scores
positions, and a strategy that chooses moves. The project models:

- **Players** (`players.dfy`): `Player` and `GameResult`. `src/lib.rs` and
  `src/game.rs` each declare both types with the same variants, so they are
  modelled once. Only `src/game.rs`'s `GameResult` has a `Default`.
  The module also covers `other_player`, `flip_player`, `From<Player>`,
  `is_determined`, `other_result` and the `Default` of `GameResult`.
- **TicTacToe** (`tic_tac_toe.dfy`): the bitboard tic-tac-toe engine of
  `src/tic_tac_toe.rs`.
  - A `u16` mask is modelled as the set of its set bits, so `|` is `+`,
    `&` is `*` and `(x & M) == M` is `M <= x`. `ConstantsAreSourceMasks`
    proves that the constants are the source's binary literals.
  - The board is both a value (`Board`, used for `next_state` and for every
    query) and a class (`BoardState`). The class's `ApplyMove` and
    `TryMove` update its masks in place.
- **Game** (`game.dfy`): the game-independent glue of `src/game.rs`.
  - `GameRules` stands for a `GameState` implementation: legal moves, next
    state, result and player to move. It has no separate `apply_move`. The
    trait describes `next_state` as the state `apply_move` leads to
    (`src/game.rs:46-50`). So `play`'s `self.state.apply_move(..)` is
    modelled as assigning `nextState` of the state to the state.
  - A strategy is a function from a state to `Outcome<Option<M>>`. `Todo`
    stands for a strategy that panics in `todo!()`, as
    `TerminalStateStrategy` does.
  - `StatesAndMoves` and `ReachableStates` are the trait's default methods.
  - `GamePlayer` holds a state and a strategy. Its `Play` method is the
    driver loop, proved against the specification function `Run`.
- **Evaluate** (`evaluate.dfy`): the win/loss `Distribution` of
  `src/evaluate.rs` and its change of perspective. It also covers the
  branch of `TerminalStateEvaluator::evaluate` that the source implements.
- **Strategy** (`strategy.dfy`): the implemented part of
  `TerminalStateStrategy::choose_move`. It returns no move on a finished
  game, otherwise the first legal move that wins at once. Beyond that, the
  source calls `choose_move` on the undetermined successors in order. A
  call returns only when that successor has a winning move. The first call
  that does not return ends the scan. When every call returns, the source
  reaches `todo!()`. Both cases are modelled as the `Todo` case of
  `Outcome`.
- **BoardGame** (`board_game.dfy`): tic-tac-toe plugged into the generic
  parts.
  - `RandomStrat::choose_move` on the board.
  - Termination of the driver loop under a strategy that offers legal moves,
    and how it ends under `TerminalStateStrategy`.
  - `choose_move` on concrete boards.
  - Two move sequences played through `try_move`.

In the source, `BoardState` implements the `GameState` trait of
`src/lib.rs` (`get_legal_moves`, `try_move`, `game_result`). It does not
implement the trait of `src/game.rs`. `BoardGame.BOARD_RULES` supplies the
game.rs operations in the way that trait describes them:

- `legal_moves` is `get_legal_moves`;
- `next_state` is a copy with `apply_move` applied;
- `current_player` is `current_player`.

Consequences of the code that the lemmas make explicit:

- `apply_move` ORs the move into the mask of the player to move and does
  not pass the turn. No operation changes `to_move`, so every move made
  through `try_move` goes to player one.
- Cells 0, 3, 1, 4, 2 played through `try_move` on a new board all go to
  player one. The result is `Win(One)`, and cells 5 to 8 stay legal
  (`BoardGame.RowScenario`).
- Cells 0, 1, 3, 2, 4, 6, 5, 7, 8 fill the board for player one. The line
  takes precedence over the full board, so the result is `Win(One)`
  (`BoardGame.FullBoardScenario`).
- `get_legal_moves` does not look at the result: the legal moves are
  exactly the free cells, on a won board too.
- `play` driven by `TerminalStateStrategy` panics on its first pass from
  the new board, because no first move wins at once
  (`BoardGame.TerminalStrategyPanicsOnNewBoard`).

## Model

Some definitions model a source function directly but have no row of their own, because the contracts that use them state what they mean:
- `TicTacToe.CurrentPlayer` (src/tic_tac_toe.rs:146-149) is covered by `TicTacToe.NextState` and `TicTacToe.LastPlayer`.
- `TicTacToe.GetPositions`, `TicTacToe.CurrentPlayerPositions` and `TicTacToe.LastPlayerPositions` (src/tic_tac_toe.rs:156-187) are covered by `TicTacToe.NextState`, `TicTacToe.GetWinner` and `TicTacToe.IsWinnerIffLine`.
- `Evaluate.Distribution.WinProb`, `LossProb` and `DrawProb` (src/evaluate.rs:87-97), and `Evaluate.Distribution.ExpectedResult` (src/evaluate.rs:26-28), are covered by `Evaluate.Distribution.FlipPerspective` and `Evaluate.Distribution.OtherPerspective`.

| member | source | states |
|---|---|---|
| Players.OtherPlayer | src/lib.rs:23-28 | the other player is never the player itself |
| Players.OtherPlayerInvolution | src/game.rs:78-83 | `other_player` applied twice is the identity, and it is injective |
| Players.FlipPlayer | src/lib.rs:31-36 | the flipped player is `other_player` of the old value, so two flips restore it (with `OtherPlayerInvolution`) |
| Players.FromPlayer | src/lib.rs:39-46 | a player becomes a `Win` for exactly that player |
| Players.DefaultResult | src/game.rs:13-19 | the default result is the undetermined one |
| Players.OtherResult | src/game.rs:109-114 | a win stays a win and goes to the other player; `Draw` and `Undetermined` are unchanged |
| Players.OtherResultInvolution | src/game.rs:104-114 | `other_result` applied twice is the identity and keeps `is_determined` |
| TicTacToe.ConstantsAreSourceMasks | src/tic_tac_toe.rs:38-77 | the winning masks, the nine move masks and `DRAW` are the sets of set bits of the source's binary literals |
| TicTacToe.WinningPositionsAreLines | src/tic_tac_toe.rs:38-57 | the eight winning masks are exactly the three rows, three columns and two diagonals of the grid, each of three cells |
| TicTacToe.AllMovesAreCells | src/tic_tac_toe.rs:59-73 | there are nine moves, and move k occupies exactly cell k |
| TicTacToe.LastPlayer | src/tic_tac_toe.rs:151-154 | the last player is never the player to move |
| TicTacToe.MoveIsLegalIff | src/tic_tac_toe.rs:91-95 | a move is legal exactly when none of its cells belongs to either player |
| TicTacToe.NextState | src/tic_tac_toe.rs:97-102 | the mover's mask gains the move's bits; the other mask, the turn and the piece are unchanged |
| TicTacToe.OccupiedAfterMove | src/tic_tac_toe.rs:100-102 | the occupied cells after a move are the old ones plus the move's |
| TicTacToe.OccupiedStaysOccupied | src/tic_tac_toe.rs:100-102 | a move never frees a cell, so an occupied cell stays illegal |
| TicTacToe.LegalMoveKeepsValid | src/tic_tac_toe.rs:91-102 | a legal move from `ALL_MOVES` keeps the masks disjoint and within the nine cells |
| TicTacToe.MoveOffBoardBreaksValid | src/tic_tac_toe.rs:91-102 | legality does not look at the board's size: a mask outside the nine cells is legal and breaks that invariant |
| TicTacToe.IsWinnerIffLine | src/tic_tac_toe.rs:118-128 | `is_winner(p)` holds exactly when `p` covers a row, a column or a diagonal |
| TicTacToe.LineNeedsThreeCells | src/tic_tac_toe.rs:104-128 | a player with a line holds at least three cells, so an empty mask, one cell or two cells never win |
| TicTacToe.GetWinner | src/tic_tac_toe.rs:130-139 | any winner returned holds a line; `None` exactly when neither player does; the last mover wins when both do |
| TicTacToe.GameResultOf | src/tic_tac_toe.rs:219-227 | `Win` exactly when a player holds a line, won by a line holder, the last mover first; `Draw` exactly when there is no line and the board is full; `Undetermined` otherwise |
| TicTacToe.GetLegalMoves | src/tic_tac_toe.rs:203-208 | the legal moves are exactly the legal members of `ALL_MOVES`, in ascending cell order |
| TicTacToe.LegalMovesAreFreeCells | src/tic_tac_toe.rs:203-208 | every legal move takes one free cell of the board |
| TicTacToe.LegalMoveCount | src/tic_tac_toe.rs:203-208 | there are as many legal moves as free cells, which is nine minus both players' cells on a valid board |
| TicTacToe.IsDrawIffNoLegalMoves | src/tic_tac_toe.rs:141-144 | `is_draw` holds exactly when there are no legal moves |
| TicTacToe.LegalMovesAfterMove | src/tic_tac_toe.rs:203-217 | playing a legal move removes exactly that move from the legal moves |
| TicTacToe.NewBoard | src/tic_tac_toe.rs:79-82 | the new board is empty, player one to move, X, valid and undetermined, with all nine moves legal in order |
| TicTacToe.PieceIsCosmetic | src/tic_tac_toe.rs:84-89 | a chosen piece changes only the piece: same result, same legal moves, same results after any move |
| TicTacToe.BoardState.constructor | src/tic_tac_toe.rs:79-82 | a new board object holds the new board |
| TicTacToe.BoardState.PickPieceNew | src/tic_tac_toe.rs:84-89 | a new board object with player one's piece chosen |
| TicTacToe.BoardState.ApplyMove | src/tic_tac_toe.rs:100-102 | only the mover's mask changes, by the move's bits; the new value is `NextState` of the old |
| TicTacToe.BoardState.TryMove | src/tic_tac_toe.rs:210-217 | answers `true` exactly when the move is legal, applies it then, and otherwise changes nothing |
| TicTacToe.TestMove | src/tic_tac_toe.rs:236-241 | `try_move` of cell 0 on a new board succeeds |
| Game.StatesAndMoves | src/game.rs:66-73 | one pair per legal move, in order: the move and the state it leads to |
| Game.ReachableStates | src/game.rs:58-65 | one state per legal move, in order: the state that move leads to |
| Game.StatesAndMovesProjections | src/game.rs:58-73 | the states of `states_and_moves` are `reachable_states`, and its moves are `legal_moves` |
| Game.GamePlayer.constructor | src/game.rs:133-139 | a player over the game's initial state |
| Game.GamePlayer.From | src/game.rs:141-147 | a player over the given state |
| Game.GamePlayer.Play | src/game.rs:149-171 | the loop returns and leaves the state exactly as `Run` says: a determined result ends it; a panicking strategy ends it with `Panicked`; otherwise the chosen move, if any, is applied |
| Game.RunEndsDetermined | src/game.rs:149-171 | a finished game returns the result of its final state, which is a win or a draw; a panic happens on an undetermined state where the strategy reached `todo!()` |
| Game.RunStalls | src/game.rs:151-160 | a strategy that offers no move on an undetermined state makes the loop spin for ever without changing the state |
| Game.RunFuelMonotone | src/game.rs:149-171 | once the game has finished or panicked, more passes of the loop change nothing |
| Game.RunFollowsStrategy | src/game.rs:151-160 | the loop changes the state only by applying moves the strategy chose |
| Evaluate.SwappedKeepsDraw | src/evaluate.rs:22-28 | the other side sees the same draw probability and the negated expected result |
| Evaluate.SwappedInvolution | src/evaluate.rs:99-103 | changing perspective twice gives the distribution back |
| Evaluate.SwappedConstants | src/evaluate.rs:72-83 | a certain win seen from the other side is a certain loss and vice versa, and a certain draw is unchanged; their expected results are 1, -1 and 0 |
| Evaluate.Distribution.constructor | src/evaluate.rs:62-65 | a distribution holding the given probabilities |
| Evaluate.Distribution.Win | src/evaluate.rs:73-75 | win probability 1, loss probability 0 |
| Evaluate.Distribution.Loss | src/evaluate.rs:77-79 | win probability 0, loss probability 1 |
| Evaluate.Distribution.Draw | src/evaluate.rs:81-83 | win and loss probabilities 0 |
| Evaluate.Distribution.FlipPerspective | src/evaluate.rs:69-71 | win and loss probabilities trade places in place; the draw probability stays and the expected result is negated |
| Evaluate.Distribution.OtherPerspective | src/evaluate.rs:99-103 | a new distribution with win and loss traded; the draw probability stays and the expected result is negated |
| Evaluate.TerminalEvaluate | src/evaluate.rs:118-130 | returns the result of the next state exactly when it is determined, and otherwise reaches `todo!()` |
| Strategy.ChooseMove | src/strategy.rs:86-109 | no move on a finished game; otherwise the first legal move whose next state is a win for the player to move, and `todo!()` exactly when there is none |
| Strategy.ChosenMoveIsLegal | src/strategy.rs:92-97 | a chosen move is one of the legal moves |
| Strategy.ChosenMoveEvaluatesToWin | src/strategy.rs:92-97 | the terminal evaluator scores a chosen move as a win for the player to move |
| Strategy.ProbedMoves | src/strategy.rs:86-107 | the recursive calls happen only when `choose_move` gets past its first loop, that is on an unfinished game with no immediate win, and nothing is probed otherwise; then they go, in legal-move order, to undetermined successors only; every call but the last returns; no undetermined successor is skipped before the scan ends at the first call that does not return |
| Strategy.ProbesFromComplete | src/strategy.rs:101-107 | from any legal move on, every undetermined successor is probed unless an earlier probe did not return |
| Strategy.PlayWithTerminalStrategy | src/game.rs:149-171 | `play` driven by `TerminalStateStrategy` returns the result of a finished game; otherwise it returns an immediate win for the player to move, or panics exactly where `choose_move` reaches `todo!()` |
| BoardGame.RandomChooseMove | src/lib.rs:134-138 | some legal move; `None` exactly when there is no legal move, that is, when the board is full |
| BoardGame.PlayEnds | src/game.rs:149-171 | on tic-tac-toe, a strategy that offers a legal move whenever there is one ends the game, determined, within as many passes as there are legal moves |
| BoardGame.ExampleLegalMoves | src/tic_tac_toe.rs:203-208 | the legal moves of a board with cells 0, 1, 3 and 4 taken are cell 2, then cells 5 to 8 |
| BoardGame.ChooseMoveCompletesRow | src/strategy.rs:86-99 | with X on cells 0 and 1 and O on cells 3 and 4, `choose_move` picks cell 2, which the evaluator scores as a win for player one |
| BoardGame.NoFirstMoveWins | src/strategy.rs:92-97 | no legal move of the new board wins at once |
| BoardGame.FirstMoveUndetermined | src/tic_tac_toe.rs:219-227 | any single move on the new board leaves the game undetermined |
| BoardGame.ChooseMoveOnNewBoard | src/strategy.rs:86-109 | on the new board `choose_move` reaches `todo!()` |
| BoardGame.NoSecondMoveWins | src/strategy.rs:92-97 | after player one takes cell 0 of the new board, no legal move wins at once |
| BoardGame.CornerBoardReachesTodo | src/strategy.rs:86-109 | on that board the game goes on and `choose_move` reaches `todo!()` |
| BoardGame.ProbesStopAtFirstCell | src/strategy.rs:101-107 | on the new board only the successor of cell 0 is probed; that probe reaches `todo!()`, so the other eight successors are never probed |
| BoardGame.ExampleProbesNothing | src/strategy.rs:92-107 | on the example board `choose_move` returns cell 2 from its first loop, so it makes no recursive call |
| BoardGame.TerminalStrategyPanicsOnNewBoard | src/game.rs:149-160 | `play` with `TerminalStateStrategy` from the new board panics on its first pass, leaving the board unchanged |
| BoardGame.TerminalStrategyWinsExample | src/game.rs:149-171 | `play` with `TerminalStateStrategy` from the board with X on cells 0 and 1 and O on cells 3 and 4 returns `Win(One)` |
| BoardGame.RowBoardOutcome | src/tic_tac_toe.rs:203-227 | a board where player one holds cells 0 to 4 is a win for player one and still has cells 5 to 8 as legal moves |
| BoardGame.FullBoardOutcome | src/tic_tac_toe.rs:219-227 | a full board held by player one is a win, although `is_draw` holds |
| BoardGame.RowScenario | src/tic_tac_toe.rs:210-227 | `try_move` of cells 0, 3, 1, 4, 2 from a new board gives `Win(One)`, with cells 5 to 8 still legal |
| BoardGame.FullBoardScenario | src/tic_tac_toe.rs:210-227 | `try_move` of cells 0, 1, 3, 2, 4, 6, 5, 7, 8 gives `Win(One)` on a full board |

## Left out

- Printing: the `Display` output of `play`, its one-second pause and its messages are not modelled.
- `src/main.rs` is not part of this model. It only constructs a player and calls `play`.
- `lib.rs`'s `Game` trait, its `Strategy`/`Evaluator` traits and `EmptyEvaluator` carry no logic to model. `EmptyEvaluator::evaluate` returns `()`, and `Game::play` is commented out.
- The `QValue` and `Policy` traits declare no behaviour. The commented-out `RandomStrategy` and `GreedyStrategy` of `src/strategy.rs` are not part of the build.
- `last_player_positions_mut` is dead code in the source and is not modelled. `get_positions_mut` and `current_player_positions_mut` are folded into `BoardState.ApplyMove`.
- `BoardGame.RandomChooseMove`: the random generator is replaced by an arbitrary choice among the legal moves. Uniformity is not stated.
- `Game.GamePlayer.Play`: the source loops until the game is determined and may loop for ever (see `Game.RunStalls`). The model bounds the passes that do not end the game with a `fuel` parameter and returns `OutOfFuel` when they run out. A panic in the strategy is the `Panicked` ending rather than an unwinding.
- `Game.GamePlayer`: the strategy is a function from states to moves (or a panic), with its evaluator already fixed. A strategy that is not a function of the state alone is not modelled. That covers the random strategy's fresh randomness on each call.
- `Strategy.ChooseMove`: the second loop's recursive calls have no effect on the answer, because their results are discarded. The model states which successors they probe and where the scan stops (`Strategy.ProbedMoves`). A probe that does not return is one whose `choose_move` is `Todo`. The model does not distinguish a deeper `todo!()` from a recursion that never ends. `todo!()`, a panic in the source, is modelled as `Todo`.
- `Evaluate.TerminalEvaluate`: `todo!()` on an undetermined next state is modelled as `Todo`. The unused `current_player` and `other_player` locals are dropped.
- `Evaluate.Distribution`: `Probability` is `f32` in the source and a real number here, so rounding in `draw_prob` and `expected_result` is not modelled.
- `TicTacToe`: `Positions` is a `u16`, modelled as the set of its bit positions (0 to 15). Every operation on masks is a bitwise or, an and, or a comparison, so no arithmetic width matters.
