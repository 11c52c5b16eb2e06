/**
 * The bitboard tic-tac-toe rules of `src/tic_tac_toe.rs`.
 *
 * The source stores each player's cells in a `u16` whose bit k is set when
 * cell k is occupied, with the cells numbered row by row:
 *
 *     0 | 1 | 2
 *     3 | 4 | 5
 *     6 | 7 | 8
 *
 * Here a `u16` is modelled by the set of its set bits (`Positions`), so
 * `a | b` is `a + b`, `a & b` is `a * b`, `x == 0` is `x == {}` and
 * `(x & M) == M` is `M <= x`. `BitsOf` reads a number as such a set and
 * `ConstantsAreSourceMasks` ties the constants below to the source's
 * binary literals.
 */
module TicTacToe {
  import opened Players
  import opened Wrappers

  /** A bit position of a `u16`. */
  type Bit = k: nat | k < 16

  /** A `u16` mask, as the set of its set bits. */
  type Positions = set<Bit>

  /** The symbol player one draws with; `X` is the `Default`. It affects no rule. */
  datatype Piece = X | O

  /** A move: the mask of the cell (a single bit for every move of `ALL_MOVES`). */
  datatype Move = Move(bits: Positions)

  /** The value of an immutable `BoardState`. */
  datatype Board = Board(player1: Positions, player2: Positions, toMove: Player, player1Piece: Piece)

  /** `2^k`. */
  function Pow2(k: nat): (r: nat)
    ensures r >= 1
  {
    if k == 0 then 1 else 2 * Pow2(k - 1)
  }

  /** The set bits of the number `v`, read as a `u16`. */
  ghost function BitsOf(v: nat): Positions
  {
    set k: Bit | (v / Pow2(k)) % 2 == 1
  }

  /** The three rows, three columns and two diagonals. */
  const WINNING_POSITIONS: seq<Positions> :=
    [{0, 1, 2}, {3, 4, 5}, {6, 7, 8}, {0, 3, 6}, {1, 4, 7}, {2, 5, 8}, {0, 4, 8}, {2, 4, 6}]

  /** One move per cell, in cell order. */
  const ALL_MOVES: seq<Move> :=
    [Move({0}), Move({1}), Move({2}), Move({3}), Move({4}), Move({5}), Move({6}), Move({7}), Move({8})]

  /** Every cell of the board. */
  const DRAW: Positions := {0, 1, 2, 3, 4, 5, 6, 7, 8}

  lemma Pow2Values()
    ensures Pow2(0) == 1 && Pow2(1) == 2 && Pow2(2) == 4 && Pow2(3) == 8
    ensures Pow2(4) == 16 && Pow2(5) == 32 && Pow2(6) == 64 && Pow2(7) == 128
    ensures Pow2(8) == 256 && Pow2(9) == 512 && Pow2(10) == 1024 && Pow2(11) == 2048
    ensures Pow2(12) == 4096 && Pow2(13) == 8192 && Pow2(14) == 16384 && Pow2(15) == 32768
  {
  }

  /** Powers of two grow with the exponent. */
  lemma {:induction false} Pow2Grows(j: nat, k: nat)
    requires j <= k
    ensures Pow2(j) <= Pow2(k)
    decreases k - j
  {
    if j < k {
      Pow2Grows(j, k - 1);
    }
  }

  /** `BitsOf(v)` is `s` when the bits of `v` are the members of `s`. */
  lemma SameBits(v: nat, s: Positions)
    requires forall k: Bit :: k in s <==> (v / Pow2(k)) % 2 == 1
    ensures BitsOf(v) == s
  {
  }

  /**
   * `BitsOf(v)` is `s` when `v` fits in the nine cells and bit k of `v`
   * is set exactly for the members k of `s`, stated bit by bit.
   */
  lemma BitsByCases(v: nat, s: Positions)
    requires v < 512 && s <= DRAW
    requires (0 in s <==> v % 2 == 1) && (1 in s <==> (v / 2) % 2 == 1) && (2 in s <==> (v / 4) % 2 == 1)
    requires (3 in s <==> (v / 8) % 2 == 1) && (4 in s <==> (v / 16) % 2 == 1) && (5 in s <==> (v / 32) % 2 == 1)
    requires (6 in s <==> (v / 64) % 2 == 1) && (7 in s <==> (v / 128) % 2 == 1) && (8 in s <==> (v / 256) % 2 == 1)
    ensures BitsOf(v) == s
  {
    Pow2Values();
    forall k: Bit
      ensures k in s <==> (v / Pow2(k)) % 2 == 1
    {
      if k == 0 {} else if k == 1 {} else if k == 2 {} else if k == 3 {}
      else if k == 4 {} else if k == 5 {} else if k == 6 {} else if k == 7 {}
      else if k == 8 {}
      else {
        assert Pow2(k) >= 512 by { Pow2Grows(9, k); }
        assert v / Pow2(k) == 0;
      }
    }
    SameBits(v, s);
  }

  /** The three row masks. */
  lemma RowMasks()
    ensures BitsOf(0x007) == {0, 1, 2} && BitsOf(0x038) == {3, 4, 5} && BitsOf(0x1C0) == {6, 7, 8}
  {
    assert BitsOf(0x007) == {0, 1, 2} by { BitsByCases(0x007, {0, 1, 2}); }
    assert BitsOf(0x038) == {3, 4, 5} by { BitsByCases(0x038, {3, 4, 5}); }
    assert BitsOf(0x1C0) == {6, 7, 8} by { BitsByCases(0x1C0, {6, 7, 8}); }
  }

  /** The three column masks. */
  lemma ColumnMasks()
    ensures BitsOf(0x049) == {0, 3, 6} && BitsOf(0x092) == {1, 4, 7} && BitsOf(0x124) == {2, 5, 8}
  {
    assert BitsOf(0x049) == {0, 3, 6} by { BitsByCases(0x049, {0, 3, 6}); }
    assert BitsOf(0x092) == {1, 4, 7} by { BitsByCases(0x092, {1, 4, 7}); }
    assert BitsOf(0x124) == {2, 5, 8} by { BitsByCases(0x124, {2, 5, 8}); }
  }

  /** The two diagonal masks. */
  lemma DiagonalMasks()
    ensures BitsOf(0x111) == {0, 4, 8} && BitsOf(0x054) == {2, 4, 6}
  {
    assert BitsOf(0x111) == {0, 4, 8} by { BitsByCases(0x111, {0, 4, 8}); }
    assert BitsOf(0x054) == {2, 4, 6} by { BitsByCases(0x054, {2, 4, 6}); }
  }

  /** The full-board mask. */
  lemma DrawMask()
    ensures BitsOf(0x1FF) == DRAW
  {
    BitsByCases(0x1FF, DRAW);
  }

  /** The nine move masks: the powers of two 1, 2, ..., 256 have the single bits 0, ..., 8. */
  lemma MoveMasks()
    ensures BitsOf(1) == {0} && BitsOf(2) == {1} && BitsOf(4) == {2}
    ensures BitsOf(8) == {3} && BitsOf(16) == {4} && BitsOf(32) == {5}
    ensures BitsOf(64) == {6} && BitsOf(128) == {7} && BitsOf(256) == {8}
  {
    assert BitsOf(1) == {0} by { BitsByCases(1, {0}); }
    assert BitsOf(2) == {1} by { BitsByCases(2, {1}); }
    assert BitsOf(4) == {2} by { BitsByCases(4, {2}); }
    assert BitsOf(8) == {3} by { BitsByCases(8, {3}); }
    assert BitsOf(16) == {4} by { BitsByCases(16, {4}); }
    assert BitsOf(32) == {5} by { BitsByCases(32, {5}); }
    assert BitsOf(64) == {6} by { BitsByCases(64, {6}); }
    assert BitsOf(128) == {7} by { BitsByCases(128, {7}); }
    assert BitsOf(256) == {8} by { BitsByCases(256, {8}); }
  }

  /**
   * The constants are the source's masks: `WINNING_POSITIONS` holds
   * 0x007, 0x038, 0x1C0, 0x049, 0x092, 0x124, 0x111 and 0x054, `ALL_MOVES`
   * the powers 1, 2, ..., 256 and `DRAW` is 0x1FF.
   */
  lemma ConstantsAreSourceMasks()
    ensures WINNING_POSITIONS == [BitsOf(0x007), BitsOf(0x038), BitsOf(0x1C0), BitsOf(0x049),
                                  BitsOf(0x092), BitsOf(0x124), BitsOf(0x111), BitsOf(0x054)]
    ensures ALL_MOVES == [Move(BitsOf(1)), Move(BitsOf(2)), Move(BitsOf(4)), Move(BitsOf(8)),
                          Move(BitsOf(16)), Move(BitsOf(32)), Move(BitsOf(64)), Move(BitsOf(128)),
                          Move(BitsOf(256))]
    ensures DRAW == BitsOf(0x1FF)
  {
    RowMasks();
    ColumnMasks();
    DiagonalMasks();
    DrawMask();
    MoveMasks();
  }

  /** `BoardState::new`: the empty board, player one to move and playing `X`. */
  function New(): Board
  {
    Board({}, {}, One, X)
  }

  /** `BoardState::pick_piece_new`: the empty board with player one playing `piece`. */
  function NewWithPiece(piece: Piece): Board
  {
    Board({}, {}, One, piece)
  }

  /** `current_player`: whose turn the board says it is. */
  function CurrentPlayer(b: Board): Player
  {
    b.toMove
  }

  /** `last_player`: the player who moved last, always the one not to move. */
  function LastPlayer(b: Board): (p: Player)
    ensures p != CurrentPlayer(b)
  {
    OtherPlayer(b.toMove)
  }

  /** `get_positions`: the mask of `p`. */
  function GetPositions(b: Board, p: Player): Positions
  {
    if p == One then b.player1 else b.player2
  }

  /** `current_player_positions`. */
  function CurrentPlayerPositions(b: Board): Positions
  {
    GetPositions(b, CurrentPlayer(b))
  }

  /** `last_player_positions`. */
  function LastPlayerPositions(b: Board): Positions
  {
    GetPositions(b, LastPlayer(b))
  }

  /** `player1 | player2`: every occupied cell. */
  function Occupied(b: Board): Positions
  {
    b.player1 + b.player2
  }

  /**
   * The masks a reachable board has: the players share no cell and use
   * only the nine cells of the board.
   */
  predicate Valid(b: Board)
  {
    b.player1 * b.player2 == {} && b.player1 <= DRAW && b.player2 <= DRAW
  }

  /** `move_is_legal`: no bit of the move is occupied by either player. */
  predicate MoveIsLegal(b: Board, m: Move)
  {
    m.bits * Occupied(b) == {}
  }

  /** A move is legal exactly when none of its cells belongs to either player. */
  lemma MoveIsLegalIff(b: Board, m: Move)
    ensures MoveIsLegal(b, m) <==> forall k :: k in m.bits ==> k !in b.player1 && k !in b.player2
  {
    if MoveIsLegal(b, m) {
      forall k | k in m.bits
        ensures k !in b.player1 && k !in b.player2
      {
        assert k !in m.bits * Occupied(b);
      }
    }
  }

  /**
   * `apply_move`, on a copy: ORs the move into the mask of the player to
   * move, without checking it. Nothing else changes; in particular the
   * turn does not pass to the other player.
   */
  function NextState(b: Board, m: Move): (r: Board)
    ensures GetPositions(r, CurrentPlayer(b)) == CurrentPlayerPositions(b) + m.bits
    ensures GetPositions(r, LastPlayer(b)) == LastPlayerPositions(b)
    ensures r.toMove == b.toMove && r.player1Piece == b.player1Piece
  {
    if b.toMove == One then b.(player1 := b.player1 + m.bits) else b.(player2 := b.player2 + m.bits)
  }

  /** Applying a move adds exactly its bits to the occupied cells. */
  lemma OccupiedAfterMove(b: Board, m: Move)
    ensures Occupied(NextState(b, m)) == Occupied(b) + m.bits
  {
  }

  /** A legal move of `ALL_MOVES` keeps the board valid. */
  lemma LegalMoveKeepsValid(b: Board, m: Move)
    requires Valid(b) && m in ALL_MOVES && MoveIsLegal(b, m)
    ensures Valid(NextState(b, m))
  {
  }

  /**
   * Legality only looks at occupancy, so a move outside the nine cells is
   * accepted and leaves a mask that is no longer within the board: the
   * restriction to `ALL_MOVES` above is needed.
   */
  lemma MoveOffBoardBreaksValid(b: Board)
    requires Valid(b)
    ensures MoveIsLegal(b, Move({9}))
    ensures !Valid(NextState(b, Move({9})))
  {
    assert 9 in GetPositions(NextState(b, Move({9})), CurrentPlayer(b));
  }

  /** `true` when `positions` covers one of the `WINNING_POSITIONS`. */
  predicate HasLine(positions: Positions)
  {
    exists i :: 0 <= i < |WINNING_POSITIONS| && WINNING_POSITIONS[i] <= positions
  }

  /** `last_player_is_winner`. */
  predicate LastPlayerIsWinner(b: Board)
  {
    HasLine(LastPlayerPositions(b))
  }

  /** `current_player_is_winner`. */
  predicate CurrentPlayerIsWinner(b: Board)
  {
    HasLine(CurrentPlayerPositions(b))
  }

  /** `is_winner`: `p` has a line. */
  predicate IsWinner(b: Board, p: Player)
  {
    HasLine(GetPositions(b, p))
  }

  /**
   * `get_winner`: a player holding a line, the one who moved last when
   * both do, and `None` when neither does.
   */
  function GetWinner(b: Board): (w: Option<Player>)
    ensures w.Some? ==> IsWinner(b, w.value)
    ensures w.None? <==> !IsWinner(b, One) && !IsWinner(b, Two)
    ensures LastPlayerIsWinner(b) ==> w == Some(LastPlayer(b))
  {
    if LastPlayerIsWinner(b) then Some(LastPlayer(b))
    else if CurrentPlayerIsWinner(b) then Some(CurrentPlayer(b))
    else None
  }

  /** `is_draw`: every cell is occupied. */
  predicate IsDraw(b: Board)
  {
    DRAW <= Occupied(b)
  }

  /**
   * `game_result`: a win for the player holding a line (the last mover
   * first), else a draw on a full board, else undetermined. A line beats a
   * full board.
   */
  function GameResultOf(b: Board): (r: GameResult)
    ensures r.Win? <==> IsWinner(b, One) || IsWinner(b, Two)
    ensures r.Win? ==> IsWinner(b, r.winner)
    ensures LastPlayerIsWinner(b) ==> r == Win(LastPlayer(b))
    ensures r == Draw <==> !IsWinner(b, One) && !IsWinner(b, Two) && IsDraw(b)
    ensures r == Undetermined <==> !IsWinner(b, One) && !IsWinner(b, Two) && !IsDraw(b)
  {
    match GetWinner(b)
    case Some(winner) => Win(winner)
    case None => if IsDraw(b) then Draw else Undetermined
  }

  /** A row, a column or a diagonal of the 3x3 grid. */
  datatype Line = Row(r: nat) | Column(c: nat) | Diagonal | AntiDiagonal

  predicate ValidLine(l: Line)
  {
    match l
    case Row(r) => r < 3
    case Column(c) => c < 3
    case _ => true
  }

  /** The cells of `l`, by their row `k / 3` and column `k % 3`. */
  ghost function LineCells(l: Line): Positions
  {
    match l
    case Row(r) => set k: Bit | k < 9 && k / 3 == r
    case Column(c) => set k: Bit | k < 9 && k % 3 == c
    case Diagonal => set k: Bit | k < 9 && k / 3 == k % 3
    case AntiDiagonal => set k: Bit | k < 9 && k / 3 + k % 3 == 2
  }

  /** The lines in the order of `WINNING_POSITIONS`. */
  const LINES: seq<Line> :=
    [Row(0), Row(1), Row(2), Column(0), Column(1), Column(2), Diagonal, AntiDiagonal]

  /**
   * The eight winning masks are exactly the rows, columns and diagonals of
   * the grid, three cells each.
   */
  lemma {:induction false} WinningPositionsAreLines()
    ensures |LINES| == |WINNING_POSITIONS|
    ensures forall i :: 0 <= i < |LINES| ==> ValidLine(LINES[i]) && WINNING_POSITIONS[i] == LineCells(LINES[i])
    ensures forall i :: 0 <= i < |WINNING_POSITIONS| ==> |WINNING_POSITIONS[i]| == 3
    ensures forall l :: ValidLine(l) ==> l in LINES
  {
    forall k: Bit
      ensures k in WINNING_POSITIONS[0] <==> k < 9 && k / 3 == 0
      ensures k in WINNING_POSITIONS[1] <==> k < 9 && k / 3 == 1
      ensures k in WINNING_POSITIONS[2] <==> k < 9 && k / 3 == 2
      ensures k in WINNING_POSITIONS[3] <==> k < 9 && k % 3 == 0
      ensures k in WINNING_POSITIONS[4] <==> k < 9 && k % 3 == 1
      ensures k in WINNING_POSITIONS[5] <==> k < 9 && k % 3 == 2
      ensures k in WINNING_POSITIONS[6] <==> k < 9 && k / 3 == k % 3
      ensures k in WINNING_POSITIONS[7] <==> k < 9 && k / 3 + k % 3 == 2
    {
      if k == 0 {} else if k == 1 {} else if k == 2 {} else if k == 3 {}
      else if k == 4 {} else if k == 5 {} else if k == 6 {} else if k == 7 {}
      else if k == 8 {} else {}
    }
    forall i | 0 <= i < |LINES|
      ensures ValidLine(LINES[i]) && WINNING_POSITIONS[i] == LineCells(LINES[i])
    {
    }
  }

  /** `is_winner(p)` holds exactly when `p` covers a row, a column or a diagonal. */
  lemma IsWinnerIffLine(b: Board, p: Player)
    ensures IsWinner(b, p) <==> exists l :: ValidLine(l) && LineCells(l) <= GetPositions(b, p)
  {
    WinningPositionsAreLines();
    if IsWinner(b, p) {
      var i :| 0 <= i < |WINNING_POSITIONS| && WINNING_POSITIONS[i] <= GetPositions(b, p);
      assert ValidLine(LINES[i]) && LineCells(LINES[i]) <= GetPositions(b, p);
    }
    if l :| ValidLine(l) && LineCells(l) <= GetPositions(b, p) {
      var i :| 0 <= i < |LINES| && LINES[i] == l;
      assert WINNING_POSITIONS[i] <= GetPositions(b, p);
    }
  }

  /**
   * A line takes three cells, so no player holds one with fewer: an empty
   * mask, one cell or two cells never win.
   */
  lemma LineNeedsThreeCells(positions: Positions)
    ensures HasLine(positions) ==> |positions| >= 3
  {
    if HasLine(positions) {
      WinningPositionsAreLines();
      var i :| 0 <= i < |WINNING_POSITIONS| && WINNING_POSITIONS[i] <= positions;
      assert positions == WINNING_POSITIONS[i] + (positions - WINNING_POSITIONS[i]);
    }
  }

  /** The legal moves among `moves`, in their order. */
  function FilterLegal(b: Board, moves: seq<Move>): (r: seq<Move>)
    ensures |r| <= |moves|
    ensures forall m :: m in r <==> m in moves && MoveIsLegal(b, m)
  {
    if moves == [] then []
    else if MoveIsLegal(b, moves[0]) then [moves[0]] + FilterLegal(b, moves[1..])
    else FilterLegal(b, moves[1..])
  }

  /** Every cell of `m1` comes before every cell of `m2`. */
  predicate Precedes(m1: Move, m2: Move)
  {
    forall a, c :: a in m1.bits && c in m2.bits ==> a < c
  }

  /** The moves are in strictly ascending cell order. */
  predicate Ascending(moves: seq<Move>)
  {
    forall i, j :: 0 <= i < j < |moves| ==> Precedes(moves[i], moves[j])
  }

  /** Filtering keeps the order of what it keeps. */
  lemma {:induction false} FilterLegalAscending(b: Board, moves: seq<Move>)
    requires Ascending(moves)
    ensures Ascending(FilterLegal(b, moves))
  {
    if moves != [] {
      var rest := FilterLegal(b, moves[1..]);
      FilterLegalAscending(b, moves[1..]);
      if MoveIsLegal(b, moves[0]) {
        var r := [moves[0]] + rest;
        forall i, j | 0 <= i < j < |r|
          ensures Precedes(r[i], r[j])
        {
          if i == 0 {
            assert r[j] in moves[1..];
            var k :| 0 <= k < |moves[1..]| && moves[1..][k] == r[j];
            assert Precedes(moves[0], moves[k + 1]);
          } else {
            assert r[i] == rest[i - 1] && r[j] == rest[j - 1];
          }
        }
      }
    }
  }

  /** `ALL_MOVES` lists one single-cell move per cell, cell k at index k. */
  lemma AllMovesAreCells()
    ensures |ALL_MOVES| == 9
    ensures forall i :: 0 <= i < 9 ==> ALL_MOVES[i] == Move({i})
  {
  }

  /** A single-cell move is legal exactly when its cell is free. */
  lemma CellMoveIsLegal(b: Board, k: Bit)
    ensures MoveIsLegal(b, Move({k})) <==> k !in Occupied(b)
  {
    if k in Occupied(b) {
      assert k in Move({k}).bits * Occupied(b);
    }
  }

  /** The moves of `ALL_MOVES` go up cell by cell. */
  lemma {:induction false} AllMovesAscending()
    ensures Ascending(ALL_MOVES)
  {
    AllMovesAreCells();
    forall i, j | 0 <= i < j < |ALL_MOVES|
      ensures Precedes(ALL_MOVES[i], ALL_MOVES[j])
    {
      assert ALL_MOVES[i] == Move({i}) && ALL_MOVES[j] == Move({j});
    }
  }

  /**
   * `get_legal_moves`: the moves of `ALL_MOVES` whose cell is free, in cell
   * order. A won board still has its free cells.
   */
  function GetLegalMoves(b: Board): (r: seq<Move>)
    ensures forall m :: m in r <==> m in ALL_MOVES && MoveIsLegal(b, m)
    ensures Ascending(r)
  {
    AllMovesAscending();
    FilterLegalAscending(b, ALL_MOVES);
    FilterLegal(b, ALL_MOVES)
  }

  /** Every legal move takes exactly one free cell of the board. */
  lemma LegalMovesAreFreeCells(b: Board, m: Move)
    requires m in GetLegalMoves(b)
    ensures exists k :: k in DRAW && k !in Occupied(b) && m == Move({k})
  {
    AllMovesAreCells();
    var i :| 0 <= i < 9 && ALL_MOVES[i] == m;
    CellMoveIsLegal(b, i);
    assert i in DRAW;
  }

  /** The cells `lo`, ..., 8. */
  ghost function CellsFrom(lo: nat): Positions
  {
    set k: Bit | k in DRAW && lo <= k
  }

  /** The moves to the cells `lo`, ..., 8, in order. */
  function MovesFrom(lo: nat): seq<Move>
    decreases 9 - lo
  {
    if lo < 9 then [Move({lo})] + MovesFrom(lo + 1) else []
  }

  lemma AllMovesFromZero()
    ensures ALL_MOVES == MovesFrom(0)
  {
  }

  /** One more cell counts one more free cell exactly when it is free. */
  lemma FreeCellsStep(lo: nat, occupied: Positions)
    requires lo < 9
    ensures |CellsFrom(lo) - occupied| == |CellsFrom(lo + 1) - occupied| + (if lo in occupied then 0 else 1)
  {
    var rest := CellsFrom(lo + 1) - occupied;
    assert CellsFrom(lo) == CellsFrom(lo + 1) + {lo};
    assert lo !in rest;
    if lo in occupied {
      assert CellsFrom(lo) - occupied == rest;
    } else {
      assert CellsFrom(lo) - occupied == rest + {lo};
    }
  }

  /** Filtering the moves from cell `lo` on keeps the first one exactly when its cell is free. */
  lemma FilterStep(b: Board, lo: nat)
    requires lo < 9
    ensures FilterLegal(b, MovesFrom(lo)) ==
      (if lo in Occupied(b) then [] else [Move({lo})]) + FilterLegal(b, MovesFrom(lo + 1))
  {
    CellMoveIsLegal(b, lo);
    assert MovesFrom(lo)[0] == Move({lo}) && MovesFrom(lo)[1..] == MovesFrom(lo + 1);
  }

  /** Occupied cells from `lo` up to `hi` contribute no legal move. */
  lemma {:induction false} FilterSkipsTaken(b: Board, lo: nat, hi: nat)
    requires lo <= hi <= 9
    requires forall k: Bit :: lo <= k < hi ==> k in Occupied(b)
    ensures FilterLegal(b, MovesFrom(lo)) == FilterLegal(b, MovesFrom(hi))
    decreases hi - lo
  {
    if lo < hi {
      FilterStep(b, lo);
      FilterSkipsTaken(b, lo + 1, hi);
    }
  }

  /** When every cell from `lo` on is free, every move from `lo` on is legal. */
  lemma {:induction false} FilterKeepsFree(b: Board, lo: nat)
    requires lo <= 9
    requires forall k: Bit :: lo <= k < 9 ==> k !in Occupied(b)
    ensures FilterLegal(b, MovesFrom(lo)) == MovesFrom(lo)
    decreases 9 - lo
  {
    if lo < 9 {
      FilterStep(b, lo);
      FilterKeepsFree(b, lo + 1);
    }
  }

  /** There is one legal move among `MovesFrom(lo)` per free cell from `lo` on. */
  lemma {:induction false} FilterCount(b: Board, lo: nat)
    requires lo <= 9
    ensures |FilterLegal(b, MovesFrom(lo))| == |CellsFrom(lo) - Occupied(b)|
    decreases 9 - lo
  {
    if lo == 9 {
      assert CellsFrom(lo) == {};
    } else {
      FilterCount(b, lo + 1);
      FilterStep(b, lo);
      FreeCellsStep(lo, Occupied(b));
    }
  }

  /**
   * There is one legal move per free cell; on a valid board that is nine
   * minus the number of occupied cells.
   */
  lemma LegalMoveCount(b: Board)
    ensures |GetLegalMoves(b)| == |DRAW - Occupied(b)|
    ensures Valid(b) ==> |GetLegalMoves(b)| == 9 - |b.player1| - |b.player2|
  {
    FilterCount(b, 0);
    AllMovesFromZero();
    CellsFromZero();
    if Valid(b) {
      assert DRAW == (DRAW - Occupied(b)) + Occupied(b);
      DrawHasNineCells();
    }
  }

  /** The board has nine cells. */
  lemma DrawHasNineCells()
    ensures |DRAW| == 9
  {
    var empty := New();
    FilterCount(empty, 0);
    FilterOfFreeBoard(empty, MovesFrom(0));
    AllMovesFromZero();
    CellsFromZero();
    assert DRAW - Occupied(empty) == DRAW;
  }

  lemma CellsFromZero()
    ensures CellsFrom(0) == DRAW
  {
  }

  /** A full board is exactly one without legal moves. */
  lemma IsDrawIffNoLegalMoves(b: Board)
    ensures IsDraw(b) <==> GetLegalMoves(b) == []
  {
    if !IsDraw(b) {
      var k :| k in DRAW && k !in Occupied(b);
      AllMovesAreCells();
      CellMoveIsLegal(b, k);
      assert Move({k}) == ALL_MOVES[k];
      assert Move({k}) in GetLegalMoves(b);
    } else if GetLegalMoves(b) != [] {
      LegalMovesAreFreeCells(b, GetLegalMoves(b)[0]);
    }
  }

  /** Playing a legal move removes exactly that move from the legal moves. */
  lemma LegalMovesAfterMove(b: Board, m: Move)
    requires m in GetLegalMoves(b)
    ensures forall m' :: m' in GetLegalMoves(NextState(b, m)) <==> m' in GetLegalMoves(b) && m' != m
    ensures |GetLegalMoves(NextState(b, m))| == |GetLegalMoves(b)| - 1
  {
    var after := NextState(b, m);
    LegalMovesAreFreeCells(b, m);
    var k :| k in DRAW && k !in Occupied(b) && m == Move({k});
    OccupiedAfterMove(b, m);
    assert Occupied(after) == Occupied(b) + {k};
    AllMovesAreCells();
    forall m' | m' in ALL_MOVES
      ensures MoveIsLegal(after, m') <==> MoveIsLegal(b, m') && m' != m
    {
      var j :| 0 <= j < 9 && ALL_MOVES[j] == m';
      CellMoveIsLegal(b, j);
      CellMoveIsLegal(after, j);
    }
    LegalMoveCount(b);
    LegalMoveCount(after);
    assert DRAW - Occupied(b) == (DRAW - Occupied(after)) + {k};
  }

  /** A move never frees an occupied cell. */
  lemma OccupiedStaysOccupied(b: Board, m: Move, k: Bit)
    requires k in Occupied(b)
    ensures k in Occupied(NextState(b, m)) && !MoveIsLegal(NextState(b, m), Move({k}))
  {
    OccupiedAfterMove(b, m);
    CellMoveIsLegal(NextState(b, m), k);
  }

  /**
   * The new board: valid and undetermined, with all nine moves legal, so
   * cell 0 can be taken (the source's own `test_move`).
   */
  lemma NewBoard()
    ensures Occupied(New()) == {} && CurrentPlayer(New()) == One && New().player1Piece == X
    ensures Valid(New()) && GameResultOf(New()) == Undetermined
    ensures GetLegalMoves(New()) == ALL_MOVES
    ensures MoveIsLegal(New(), Move({0}))
  {
    WinningPositionsAreLines();
    assert 0 in DRAW - Occupied(New());
    FilterOfFreeBoard(New(), ALL_MOVES);
    CellMoveIsLegal(New(), 0);
  }

  /**
   * Choosing player one's piece changes nothing but the piece: the board
   * plays exactly as the new one.
   */
  lemma PieceIsCosmetic(piece: Piece, m: Move)
    ensures NewWithPiece(piece) == New().(player1Piece := piece)
    ensures GameResultOf(NewWithPiece(piece)) == GameResultOf(New())
    ensures GetLegalMoves(NewWithPiece(piece)) == GetLegalMoves(New())
    ensures GameResultOf(NextState(NewWithPiece(piece), m)) == GameResultOf(NextState(New(), m))
  {
    FilterOfFreeBoard(New(), ALL_MOVES);
    FilterOfFreeBoard(NewWithPiece(piece), ALL_MOVES);
  }

  /** On a board with no occupied cell, filtering keeps every move. */
  lemma {:induction false} FilterOfFreeBoard(b: Board, moves: seq<Move>)
    requires Occupied(b) == {}
    ensures FilterLegal(b, moves) == moves
  {
    if moves != [] {
      FilterOfFreeBoard(b, moves[1..]);
    }
  }

  /**
   * `BoardState`: the mutable board. `apply_move` and `try_move` update its
   * masks in place; `Value` is its current value.
   */
  class BoardState {
    var player1: Positions
    var player2: Positions
    var toMove: Player
    var player1Piece: Piece

    function Value(): Board
      reads this
    {
      Board(player1, player2, toMove, player1Piece)
    }

    /** `BoardState::new`. */
    constructor ()
      ensures Value() == New()
    {
      player1, player2, toMove, player1Piece := {}, {}, One, X;
    }

    /** `BoardState::pick_piece_new`. */
    constructor PickPieceNew(piece: Piece)
      ensures Value() == NewWithPiece(piece)
    {
      player1, player2, toMove, player1Piece := {}, {}, One, piece;
    }

    /**
     * `apply_move`: ORs the move into the current player's mask through
     * `current_player_positions_mut`; the other mask, the turn and the
     * piece are unchanged.
     */
    method ApplyMove(m: Move)
      modifies this
      ensures toMove == old(toMove) && player1Piece == old(player1Piece)
      ensures old(toMove) == One ==> player1 == old(player1) + m.bits && player2 == old(player2)
      ensures old(toMove) == Two ==> player2 == old(player2) + m.bits && player1 == old(player1)
      ensures Value() == NextState(old(Value()), m)
    {
      if toMove == One {
        player1 := player1 + m.bits;
      } else {
        player2 := player2 + m.bits;
      }
    }

    /**
     * `try_move`: applies the move and answers `true` when it is legal,
     * and otherwise answers `false` and changes nothing.
     */
    method TryMove(m: Move) returns (applied: bool)
      modifies this
      ensures applied <==> MoveIsLegal(old(Value()), m)
      ensures applied ==> Value() == NextState(old(Value()), m)
      ensures !applied ==> Value() == old(Value())
    {
      if m.bits * (player1 + player2) == {} {
        ApplyMove(m);
        applied := true;
      } else {
        applied := false;
      }
    }
  }

  /** The source's `test_move`: the first cell can be taken on a new board. */
  method TestMove() returns (ok: bool)
    ensures ok
  {
    var board := new BoardState();
    ok := board.TryMove(Move({0}));
  }
}
