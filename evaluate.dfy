/**
 * The structural parts of `src/evaluate.rs`: the win/loss `Distribution`
 * and its change of perspective, and the branch of
 * `TerminalStateEvaluator::evaluate` that the source implements.
 */
module Evaluate {
  import opened Players
  import opened Wrappers
  import opened Game

  /** `Probability`, an `f32` in the source; a real number here, without rounding. */
  type Probability = real

  /** Stored probabilities: of a win first, of a loss second. */
  type Probs = (Probability, Probability)

  const WIN_PROBS: Probs := (1.0, 0.0)
  const LOSS_PROBS: Probs := (0.0, 1.0)
  const DRAW_PROBS: Probs := (0.0, 0.0)

  /** The same probabilities seen by the other player: win and loss trade places. */
  function Swapped(p: Probs): Probs
  {
    (p.1, p.0)
  }

  /** `draw_prob`: whatever probability is left after a win and a loss. */
  function DrawProbOf(p: Probs): Probability
  {
    1.0 - p.0 - p.1
  }

  /** `expected_result`: a win counts 1, a draw 0 and a loss -1. */
  function ExpectedOf(p: Probs): Probability
  {
    p.0 - p.1
  }

  /**
   * The other side sees the same chance of a draw and the opposite
   * expected result.
   */
  lemma SwappedKeepsDraw(p: Probs)
    ensures DrawProbOf(Swapped(p)) == DrawProbOf(p)
    ensures ExpectedOf(Swapped(p)) == -ExpectedOf(p)
  {
  }

  /** Seeing a distribution from the other side twice gives it back. */
  lemma SwappedInvolution(p: Probs)
    ensures Swapped(Swapped(p)) == p
  {
  }

  /**
   * A win for one side is a loss for the other, and the certain draw looks
   * the same from both sides.
   */
  lemma SwappedConstants()
    ensures Swapped(WIN_PROBS) == LOSS_PROBS && Swapped(LOSS_PROBS) == WIN_PROBS
    ensures Swapped(DRAW_PROBS) == DRAW_PROBS
    ensures ExpectedOf(WIN_PROBS) == 1.0 && ExpectedOf(LOSS_PROBS) == -1.0 && ExpectedOf(DRAW_PROBS) == 0.0
    ensures DrawProbOf(WIN_PROBS) == 0.0 && DrawProbOf(LOSS_PROBS) == 0.0 && DrawProbOf(DRAW_PROBS) == 1.0
  {
  }

  /** `Distribution`: the probabilities of a win and of a loss. */
  class Distribution {
    var probs: Probs

    /** A distribution holding `probs`, as the struct literal `Distribution { probs }`. */
    constructor (probs: Probs)
      ensures this.probs == probs
    {
      this.probs := probs;
    }

    /** `Distribution::win`. */
    constructor Win()
      ensures probs == WIN_PROBS
    {
      probs := WIN_PROBS;
    }

    /** `Distribution::loss`. */
    constructor Loss()
      ensures probs == LOSS_PROBS
    {
      probs := LOSS_PROBS;
    }

    /** `Distribution::draw`. */
    constructor Draw()
      ensures probs == DRAW_PROBS
    {
      probs := DRAW_PROBS;
    }

    /** `win_prob`: the first stored probability. */
    function WinProb(): Probability
      reads this
    {
      probs.0
    }

    /** `loss_prob`: the second stored probability. */
    function LossProb(): Probability
      reads this
    {
      probs.1
    }

    /** `draw_prob`. */
    function DrawProb(): Probability
      reads this
    {
      DrawProbOf(probs)
    }

    /** `expected_result`. */
    function ExpectedResult(): Probability
      reads this
    {
      ExpectedOf(probs)
    }

    /** `flip_perspective`: swaps the stored probabilities in place. */
    method FlipPerspective()
      modifies this
      ensures probs == Swapped(old(probs))
      ensures WinProb() == old(LossProb()) && LossProb() == old(WinProb())
      ensures DrawProb() == old(DrawProb()) && ExpectedResult() == -old(ExpectedResult())
    {
      probs := (probs.1, probs.0);
    }

    /**
     * `other_perspective`: a new distribution with the probabilities
     * swapped; this one is unchanged.
     */
    method OtherPerspective() returns (d: Distribution)
      ensures fresh(d) && d.probs == Swapped(probs)
      ensures d.WinProb() == LossProb() && d.LossProb() == WinProb()
      ensures d.DrawProb() == DrawProb() && d.ExpectedResult() == -ExpectedResult()
    {
      d := new Distribution((probs.1, probs.0));
    }
  }

  /**
   * `TerminalStateEvaluator::evaluate(state, mov)`: the result of the state
   * `mov` leads to when that result is determined; otherwise the source
   * reaches `todo!()`.
   */
  function TerminalEvaluate<S, M>(rules: GameRules<S, M>, s: S, m: M): (r: Outcome<GameResult>)
    ensures r.Done? <==> IsDetermined(rules.gameResult(rules.nextState(s, m)))
    ensures r.Done? ==> r.value == rules.gameResult(rules.nextState(s, m)) && IsDetermined(r.value)
  {
    var gameResult := rules.gameResult(rules.nextState(s, m));
    if IsDetermined(gameResult) then Done(gameResult) else Todo
  }
}
