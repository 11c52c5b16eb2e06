/**
 * `TerminalStateStrategy::choose_move` of `src/strategy.rs`, as far as the
 * source implements it: no move on a finished game, otherwise the first
 * legal move that wins at once for the player to move. Past that scan the
 * source probes the undetermined successors until a probe does not
 * return, and then reaches `todo!()`.
 */
module Strategy {
  import opened Players
  import opened Wrappers
  import opened Game
  import opened Evaluate

  /** The index of the first pair whose state has result `target`, if any. */
  function FirstWithResult<S, M>(rules: GameRules<S, M>, pairs: seq<(S, M)>, target: GameResult): (r: Option<nat>)
    ensures r.Some? ==> r.value < |pairs| && rules.gameResult(pairs[r.value].0) == target
    ensures r.Some? ==> forall j :: 0 <= j < r.value ==> rules.gameResult(pairs[j].0) != target
    ensures r.None? <==> forall j :: 0 <= j < |pairs| ==> rules.gameResult(pairs[j].0) != target
  {
    if pairs == [] then None
    else if rules.gameResult(pairs[0].0) == target then Some(0)
    else match FirstWithResult(rules, pairs[1..], target)
      case Some(k) => Some(k + 1)
      case None => None
  }

  /** The legal move at index `k` wins at once for the player to move. */
  predicate WinsAt<S, M>(rules: GameRules<S, M>, s: S, k: int)
    requires 0 <= k < |rules.legalMoves(s)|
  {
    rules.gameResult(rules.nextState(s, rules.legalMoves(s)[k])) == Win(rules.currentPlayer(s))
  }

  /**
   * `choose_move`: `None` on a finished game; otherwise the first legal
   * move, in the order of `legal_moves`, whose next state is a win for the
   * player to move; when there is none the source reaches `todo!()`.
   */
  function ChooseMove<S, M>(rules: GameRules<S, M>, s: S): (r: Outcome<Option<M>>)
    ensures IsDetermined(rules.gameResult(s)) ==> r == Done(None)
    ensures r.Done? && r.value.Some? ==>
      exists k :: 0 <= k < |rules.legalMoves(s)| && rules.legalMoves(s)[k] == r.value.value &&
        WinsAt(rules, s, k) && forall j :: 0 <= j < k ==> !WinsAt(rules, s, j)
    ensures !IsDetermined(rules.gameResult(s)) ==>
      (r.Todo? <==> forall k :: 0 <= k < |rules.legalMoves(s)| ==> !WinsAt(rules, s, k))
    ensures !IsDetermined(rules.gameResult(s)) ==> r != Done(None)
  {
    if rules.gameResult(s) != Undetermined then Done(None)
    else
      var pairs := StatesAndMoves(rules, s);
      match FirstWithResult(rules, pairs, Win(rules.currentPlayer(s)))
      case Some(k) => Done(Some(pairs[k].1))
      case None => Todo
  }

  /** Any move `choose_move` picks is one of the legal moves. */
  lemma ChosenMoveIsLegal<S, M>(rules: GameRules<S, M>, s: S)
    requires ChooseMove(rules, s).Done? && ChooseMove(rules, s).value.Some?
    ensures ChooseMove(rules, s).value.value in rules.legalMoves(s)
  {
    var k :| 0 <= k < |rules.legalMoves(s)| && rules.legalMoves(s)[k] == ChooseMove(rules, s).value.value;
  }

  /**
   * The move `choose_move` picks is one `TerminalStateEvaluator` scores as
   * a win for the player to move.
   */
  lemma ChosenMoveEvaluatesToWin<S, M>(rules: GameRules<S, M>, s: S)
    requires ChooseMove(rules, s).Done? && ChooseMove(rules, s).value.Some?
    ensures TerminalEvaluate(rules, s, ChooseMove(rules, s).value.value) == Done(Win(rules.currentPlayer(s)))
  {
    var k :| 0 <= k < |rules.legalMoves(s)| && rules.legalMoves(s)[k] == ChooseMove(rules, s).value.value &&
      WinsAt(rules, s, k);
  }

  /** The state the legal move at index `k` leads to. */
  function Successor<S, M>(rules: GameRules<S, M>, s: S, k: nat): S
    requires k < |rules.legalMoves(s)|
  {
    rules.nextState(s, rules.legalMoves(s)[k])
  }

  /**
   * A scan over the legal moves from index `lo` on, given for each index
   * whether its successor is determined and whether probing it does not
   * return: the indices it probes, in order. Determined indices are
   * skipped, and the scan stops after the first probe that does not
   * return.
   */
  function Scan(determined: seq<bool>, stuck: seq<bool>, lo: nat): (r: seq<nat>)
    requires |determined| == |stuck| && lo <= |determined|
    ensures forall i :: 0 <= i < |r| ==> lo <= r[i] < |determined| && !determined[r[i]]
    ensures forall i, j :: 0 <= i < j < |r| ==> r[i] < r[j]
    ensures forall i :: 0 <= i < |r| - 1 ==> !stuck[r[i]]
    decreases |determined| - lo
  {
    if lo == |determined| then []
    else if determined[lo] then Scan(determined, stuck, lo + 1)
    else if stuck[lo] then [lo]
    else [lo] + Scan(determined, stuck, lo + 1)
  }

  /**
   * The scan from `lo` does not skip an undetermined index `k`: it probes
   * it, unless it stopped before `k` at a probe that did not return.
   */
  lemma {:induction false} ScanReaches(determined: seq<bool>, stuck: seq<bool>, lo: nat, k: nat)
    requires |determined| == |stuck| && lo <= k < |determined| && !determined[k]
    ensures var r := Scan(determined, stuck, lo);
      k in r || (r != [] && r[|r| - 1] < k && stuck[r[|r| - 1]])
    decreases k - lo
  {
    var r := Scan(determined, stuck, lo);
    if k == lo {
      assert r[0] == lo;
    } else {
      var rest := Scan(determined, stuck, lo + 1);
      ScanReaches(determined, stuck, lo + 1, k);
      if determined[lo] {
        assert r == rest;
      } else if stuck[lo] {
        assert r == [lo];
      } else {
        assert r == [lo] + rest;
        if k !in rest {
          assert r[|r| - 1] == rest[|rest| - 1];
        }
      }
    }
  }

  /** For each legal move, whether its successor is a finished game. */
  function DeterminedFlags<S, M>(rules: GameRules<S, M>, s: S): (f: seq<bool>)
    ensures |f| == |rules.legalMoves(s)|
    ensures forall k :: 0 <= k < |f| ==> f[k] == IsDetermined(rules.gameResult(Successor(rules, s, k)))
  {
    seq(|rules.legalMoves(s)|, k requires 0 <= k < |rules.legalMoves(s)| =>
      IsDetermined(rules.gameResult(Successor(rules, s, k))))
  }

  /** For each legal move, whether `choose_move` on its successor reaches `todo!()`. */
  function StuckFlags<S, M>(rules: GameRules<S, M>, s: S): (f: seq<bool>)
    ensures |f| == |rules.legalMoves(s)|
    ensures forall k :: 0 <= k < |f| ==> f[k] == ChooseMove(rules, Successor(rules, s, k)).Todo?
  {
    seq(|rules.legalMoves(s)|, k requires 0 <= k < |rules.legalMoves(s)| =>
      ChooseMove(rules, Successor(rules, s, k)).Todo?)
  }

  /**
   * The probes of the second loop of `choose_move` from the legal move at
   * index `lo` on: the indices, in order, of the undetermined successors it
   * calls `choose_move` on. A call returns only when that successor has a
   * winning move; otherwise it reaches `todo!()` (or recurses further
   * without returning), and no later successor is probed.
   */
  function ProbesFrom<S, M>(rules: GameRules<S, M>, s: S, lo: nat): (r: seq<nat>)
    requires lo <= |rules.legalMoves(s)|
    ensures forall i :: 0 <= i < |r| ==>
      lo <= r[i] < |rules.legalMoves(s)| && !IsDetermined(rules.gameResult(Successor(rules, s, r[i])))
    ensures forall i, j :: 0 <= i < j < |r| ==> r[i] < r[j]
    ensures forall i :: 0 <= i < |r| - 1 ==> ChooseMove(rules, Successor(rules, s, r[i])).Done?
  {
    Scan(DeterminedFlags(rules, s), StuckFlags(rules, s), lo)
  }

  /**
   * Every undetermined successor from index `lo` on is among the probes
   * `r`, unless it comes after the last probe and that probe did not
   * return.
   */
  predicate SkipsNone<S, M>(rules: GameRules<S, M>, s: S, lo: nat, r: seq<nat>)
  {
    forall k :: lo <= k < |rules.legalMoves(s)| && !IsDetermined(rules.gameResult(Successor(rules, s, k))) ==>
      k in r || (r != [] && r[|r| - 1] < k && ChooseMove(rules, Successor(rules, s, r[|r| - 1])).Todo?)
  }

  /**
   * The scan skips no undetermined successor before it stops: each one
   * from `lo` on is probed unless an earlier probe did not return.
   */
  lemma ProbesFromComplete<S, M>(rules: GameRules<S, M>, s: S, lo: nat)
    requires lo <= |rules.legalMoves(s)|
    ensures SkipsNone(rules, s, lo, ProbesFrom(rules, s, lo))
  {
    var determined, stuck := DeterminedFlags(rules, s), StuckFlags(rules, s);
    forall k | lo <= k < |rules.legalMoves(s)| && !IsDetermined(rules.gameResult(Successor(rules, s, k)))
      ensures var r := ProbesFrom(rules, s, lo);
        k in r || (r != [] && r[|r| - 1] < k && ChooseMove(rules, Successor(rules, s, r[|r| - 1])).Todo?)
    {
      ScanReaches(determined, stuck, lo, k);
    }
  }

  /**
   * The legal moves whose successors the second loop of `choose_move`
   * calls itself on, by index. That loop is reached only when the game is
   * not finished and no legal move wins at once, which is when
   * `choose_move` ends in `todo!()`; otherwise nothing is probed. When it
   * is reached, the probes are the undetermined successors in order, each
   * call but the last returning, and the scan ends either after the last
   * legal move or at the first call that does not return.
   */
  function ProbedMoves<S, M>(rules: GameRules<S, M>, s: S): (r: seq<nat>)
    ensures !ChooseMove(rules, s).Todo? ==> r == []
    ensures forall i :: 0 <= i < |r| ==>
      r[i] < |rules.legalMoves(s)| && !IsDetermined(rules.gameResult(Successor(rules, s, r[i])))
    ensures forall i, j :: 0 <= i < j < |r| ==> r[i] < r[j]
    ensures forall i :: 0 <= i < |r| - 1 ==> ChooseMove(rules, Successor(rules, s, r[i])).Done?
    ensures ChooseMove(rules, s).Todo? ==> SkipsNone(rules, s, 0, r)
  {
    if ChooseMove(rules, s).Todo? then
      ProbesFromComplete(rules, s, 0);
      ProbesFrom(rules, s, 0)
    else
      []
  }

  /** `TerminalStateStrategy` as the strategy `GamePlayer` consults. */
  function TerminalStrategy<S, M>(rules: GameRules<S, M>): S -> Outcome<Option<M>>
  {
    s => ChooseMove(rules, s)
  }

  /**
   * `play` driven by `TerminalStateStrategy` never passes: on a finished
   * game it returns the result; otherwise it either takes a move that wins
   * at once, and the next pass returns that win, or it panics in
   * `choose_move`'s `todo!()`.
   */
  lemma PlayWithTerminalStrategy<S, M>(rules: GameRules<S, M>, s: S, fuel: nat)
    requires fuel >= 1
    ensures IsDetermined(rules.gameResult(s)) ==>
      Run(rules, TerminalStrategy(rules), s, fuel).0 == Finished(rules.gameResult(s))
    ensures !IsDetermined(rules.gameResult(s)) && ChooseMove(rules, s).Todo? ==>
      Run(rules, TerminalStrategy(rules), s, fuel) == (Panicked, s)
    ensures !IsDetermined(rules.gameResult(s)) && ChooseMove(rules, s).Done? ==>
      Run(rules, TerminalStrategy(rules), s, fuel).0 == Finished(Win(rules.currentPlayer(s)))
  {
    if !IsDetermined(rules.gameResult(s)) && ChooseMove(rules, s).Done? {
      var m := ChooseMove(rules, s).value.value;
      ChosenMoveEvaluatesToWin(rules, s);
      assert rules.gameResult(rules.nextState(s, m)) == Win(rules.currentPlayer(s));
    }
  }
}
