/**
 * The game-independent glue of `src/game.rs`: the operations a
 * `GameState` offers, the `states_and_moves` and `reachable_states`
 * defaults built from them, and the `GamePlayer::play` driver loop.
 */
module Game {
  import opened Players
  import opened Wrappers

  /**
   * The operations of a `GameState` with states `S` and moves `M`.
   * `nextState(s, m)` is `s.next_state(&m)`, which the trait describes as
   * the state `apply_move` leads to; `apply_move` on a state held in a
   * variable is the assignment of `nextState` to that variable.
   */
  datatype GameRules<!S, !M> = GameRules(
    initial: S,
    legalMoves: S -> seq<M>,
    nextState: (S, M) -> S,
    gameResult: S -> GameResult,
    currentPlayer: S -> Player)

  /** Pairs every move of `moves` with the state it leads to from `s`. */
  function PairWithStates<S, M>(rules: GameRules<S, M>, s: S, moves: seq<M>): (r: seq<(S, M)>)
    ensures |r| == |moves|
    ensures forall k :: 0 <= k < |r| ==> r[k] == (rules.nextState(s, moves[k]), moves[k])
  {
    if moves == [] then []
    else [(rules.nextState(s, moves[0]), moves[0])] + PairWithStates(rules, s, moves[1..])
  }

  /** The states `moves` lead to from `s`, in order. */
  function StatesAfter<S, M>(rules: GameRules<S, M>, s: S, moves: seq<M>): (r: seq<S>)
    ensures |r| == |moves|
    ensures forall k :: 0 <= k < |r| ==> r[k] == rules.nextState(s, moves[k])
  {
    if moves == [] then []
    else [rules.nextState(s, moves[0])] + StatesAfter(rules, s, moves[1..])
  }

  /**
   * `states_and_moves`: each legal move, in the order of `legal_moves`,
   * with the state it leads to.
   */
  function StatesAndMoves<S, M>(rules: GameRules<S, M>, s: S): (r: seq<(S, M)>)
    ensures |r| == |rules.legalMoves(s)|
    ensures forall k :: 0 <= k < |r| ==> r[k].1 == rules.legalMoves(s)[k]
    ensures forall k :: 0 <= k < |r| ==> r[k].0 == rules.nextState(s, r[k].1)
  {
    PairWithStates(rules, s, rules.legalMoves(s))
  }

  /** `reachable_states`: the state each legal move leads to, in order. */
  function ReachableStates<S, M>(rules: GameRules<S, M>, s: S): (r: seq<S>)
    ensures |r| == |rules.legalMoves(s)|
    ensures forall k :: 0 <= k < |r| ==> r[k] == rules.nextState(s, rules.legalMoves(s)[k])
  {
    StatesAfter(rules, s, rules.legalMoves(s))
  }

  /**
   * The two defaults agree: the reachable states are the first components
   * of `states_and_moves` and the legal moves its second components.
   */
  lemma StatesAndMovesProjections<S, M>(rules: GameRules<S, M>, s: S)
    ensures |StatesAndMoves(rules, s)| == |ReachableStates(rules, s)|
    ensures forall k :: 0 <= k < |StatesAndMoves(rules, s)| ==>
      StatesAndMoves(rules, s)[k] == (ReachableStates(rules, s)[k], rules.legalMoves(s)[k])
  {
  }

  /**
   * How a run of `play` ends: with the game's result, with a panic when the
   * strategy reaches `todo!()`, or, in the model only, because the `fuel`
   * bound on its passes ran out.
   */
  datatype Ending = Finished(result: GameResult) | Panicked | OutOfFuel

  /**
   * What `play` does with `fuel` passes of its loop left, from state `s`,
   * when `choose` is the strategy's `choose_move` (its evaluator fixed):
   * a determined result ends the game with that result; otherwise the
   * chosen move, if any, is applied and the loop goes round again, unless
   * the strategy panics.
   */
  function Run<S, M>(rules: GameRules<S, M>, choose: S -> Outcome<Option<M>>, s: S, fuel: nat): (Ending, S)
    decreases fuel
  {
    match rules.gameResult(s)
    case Undetermined =>
      if fuel == 0 then (OutOfFuel, s)
      else (match choose(s)
        case Done(Some(m)) => Run(rules, choose, rules.nextState(s, m), fuel - 1)
        case Done(None) => Run(rules, choose, s, fuel - 1)
        case Todo => (Panicked, s))
    case Win(p) => (Finished(Win(p)), s)
    case Draw => (Finished(Draw), s)
  }

  /**
   * A finished game ends with the result of its final state, a win or a
   * draw, never `Undetermined`; a panic or the end of the fuel leaves the
   * game undetermined, and a panic happens exactly where the strategy
   * reached `todo!()`.
   */
  lemma {:induction false} RunEndsDetermined<S, M>(rules: GameRules<S, M>, choose: S -> Outcome<Option<M>>, s: S, fuel: nat)
    ensures Run(rules, choose, s, fuel).0.Finished? ==>
      var (ending, last) := Run(rules, choose, s, fuel);
      ending.result == rules.gameResult(last) && IsDetermined(ending.result)
    ensures Run(rules, choose, s, fuel).0 == Panicked ==>
      var last := Run(rules, choose, s, fuel).1;
      rules.gameResult(last) == Undetermined && choose(last) == Todo
    ensures Run(rules, choose, s, fuel).0 == OutOfFuel ==>
      rules.gameResult(Run(rules, choose, s, fuel).1) == Undetermined
    decreases fuel
  {
    if rules.gameResult(s) == Undetermined && fuel > 0 {
      match choose(s)
      case Done(Some(m)) => RunEndsDetermined(rules, choose, rules.nextState(s, m), fuel - 1);
      case Done(None) => RunEndsDetermined(rules, choose, s, fuel - 1);
      case Todo =>
    }
  }

  /**
   * A strategy that offers no move on an undetermined state makes the loop
   * spin on that state for ever: no amount of fuel ends the game.
   */
  lemma {:induction false} RunStalls<S, M>(rules: GameRules<S, M>, choose: S -> Outcome<Option<M>>, s: S, fuel: nat)
    requires rules.gameResult(s) == Undetermined && choose(s) == Done(None)
    ensures Run(rules, choose, s, fuel) == (OutOfFuel, s)
    decreases fuel
  {
    if fuel > 0 {
      RunStalls(rules, choose, s, fuel - 1);
    }
  }

  /** Once the game has finished or panicked, more fuel changes nothing. */
  lemma {:induction false} RunFuelMonotone<S, M>(rules: GameRules<S, M>, choose: S -> Outcome<Option<M>>, s: S, fuel: nat, more: nat)
    requires fuel <= more && Run(rules, choose, s, fuel).0 != OutOfFuel
    ensures Run(rules, choose, s, more) == Run(rules, choose, s, fuel)
    decreases fuel
  {
    if rules.gameResult(s) == Undetermined {
      match choose(s)
      case Done(Some(m)) => RunFuelMonotone(rules, choose, rules.nextState(s, m), fuel - 1, more - 1);
      case Done(None) => RunFuelMonotone(rules, choose, s, fuel - 1, more - 1);
      case Todo =>
    }
  }

  /**
   * The states the loop may pass through: from `s`, the states that
   * applying moves the strategy chose leads to.
   */
  ghost predicate ChosenPath<S, M>(rules: GameRules<S, M>, choose: S -> Outcome<Option<M>>, s: S, t: S, steps: nat)
    decreases steps
  {
    if steps == 0 then t == s
    else match choose(s)
      case Done(Some(m)) => ChosenPath(rules, choose, rules.nextState(s, m), t, steps - 1)
      case _ => ChosenPath(rules, choose, s, t, steps - 1)
  }

  /**
   * The loop changes the state only by applying moves its strategy chose:
   * the final state lies on the strategy's path, at most `fuel` moves in.
   */
  lemma {:induction false} RunFollowsStrategy<S, M>(rules: GameRules<S, M>, choose: S -> Outcome<Option<M>>, s: S, fuel: nat)
    ensures exists steps: nat :: steps <= fuel && ChosenPath(rules, choose, s, Run(rules, choose, s, fuel).1, steps)
    decreases fuel
  {
    var last := Run(rules, choose, s, fuel).1;
    if rules.gameResult(s) != Undetermined || fuel == 0 || choose(s).Todo? {
      assert ChosenPath(rules, choose, s, last, 0);
    } else {
      var next := match choose(s) case Done(Some(m)) => rules.nextState(s, m) case _ => s;
      RunFollowsStrategy(rules, choose, next, fuel - 1);
      var steps: nat :| steps <= fuel - 1 && ChosenPath(rules, choose, next, last, steps);
      assert ChosenPath(rules, choose, s, last, steps + 1);
    }
  }

  /** `GamePlayer`: a state driven by a strategy. */
  class GamePlayer<S, M> {
    var state: S
    const rules: GameRules<S, M>
    const choose: S -> Outcome<Option<M>>

    /** `GamePlayer::new`: the game's initial state. */
    constructor (rules: GameRules<S, M>, choose: S -> Outcome<Option<M>>)
      ensures state == rules.initial && this.rules == rules && this.choose == choose
    {
      this.state := rules.initial;
      this.rules := rules;
      this.choose := choose;
    }

    /** `GamePlayer::from`: a given state. */
    constructor From(state: S, rules: GameRules<S, M>, choose: S -> Outcome<Option<M>>)
      ensures this.state == state && this.rules == rules && this.choose == choose
    {
      this.state := state;
      this.rules := rules;
      this.choose := choose;
    }

    /**
     * `play`, with at most `fuel` passes through the loop that do not end
     * the game: returns the result once it is determined, applying the
     * strategy's moves to `state` until then; stops with `Panicked` where
     * the strategy panics, and with `OutOfFuel` when the fuel runs out.
     */
    method Play(fuel: nat) returns (ending: Ending)
      modifies this
      ensures (ending, state) == Run(rules, choose, old(state), fuel)
    {
      var remaining := fuel;
      while true
        invariant Run(rules, choose, state, remaining) == Run(rules, choose, old(state), fuel)
        decreases remaining
      {
        match rules.gameResult(state) {
          case Undetermined =>
            if remaining == 0 {
              return OutOfFuel;
            }
            var chosen := choose(state);
            if chosen.Todo? {
              return Panicked;
            }
            if chosen.value.Some? {
              state := rules.nextState(state, chosen.value.value);
            }
            remaining := remaining - 1;
          case Win(player) =>
            return Finished(Win(player));
          case Draw =>
            return Finished(Draw);
        }
      }
    }
  }
}
