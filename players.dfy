/**
 * The vocabulary shared by every game: which side is playing and what the
 * state of the game is. `src/lib.rs` and `src/game.rs` each declare a
 * `Player` and a `GameResult` with the same variants, modelled once here;
 * only the `GameResult` of `src/game.rs` has a `Default`.
 */
module Players {

  /** One of the two sides; `One` is the `Default`. */
  datatype Player = One | Two

  /** The outcome of a game; `Undetermined` marks a non-terminal state. */
  datatype GameResult = Win(winner: Player) | Draw | Undetermined

  /** `Player::other_player`: the side that is not `p`. */
  function OtherPlayer(p: Player): (r: Player)
    ensures r != p
  {
    match p
    case One => Two
    case Two => One
  }

  /** Swapping sides twice is the identity, so `OtherPlayer` is a bijection. */
  lemma OtherPlayerInvolution(p: Player)
    ensures OtherPlayer(OtherPlayer(p)) == p
    ensures forall q :: OtherPlayer(q) == OtherPlayer(p) ==> q == p
  {
  }

  /**
   * `Player::flip_player`: overwrites the player it is called on. The new
   * value is returned, since a `Player` is a plain value.
   */
  method FlipPlayer(p: Player) returns (flipped: Player)
    ensures flipped == OtherPlayer(p)
  {
    match p {
      case One => flipped := Two;
      case Two => flipped := One;
    }
  }

  /** `From<Player> for GameResult`: a player becomes a win for that player. */
  function FromPlayer(p: Player): (r: GameResult)
    ensures r.Win? && r.winner == p
  {
    match p
    case One => Win(One)
    case Two => Win(Two)
  }

  /** `GameResult::default()` in `src/game.rs`. */
  function DefaultResult(): (r: GameResult)
    ensures !IsDetermined(r)
  {
    Undetermined
  }

  /** `GameResult::is_determined`: the game is over. */
  predicate IsDetermined(r: GameResult)
  {
    r != Undetermined
  }

  /** `GameResult::other_result`: the same result seen from the other side. */
  function OtherResult(r: GameResult): (o: GameResult)
    ensures o.Win? <==> r.Win?
    ensures o.Win? ==> o.winner == OtherPlayer(r.winner)
    ensures !o.Win? ==> o == r
  {
    match r
    case Win(p) => Win(OtherPlayer(p))
    case _ => r
  }

  /** Viewing a result from the other side twice gives it back, and never changes whether the game is over. */
  lemma OtherResultInvolution(r: GameResult)
    ensures OtherResult(OtherResult(r)) == r
    ensures IsDetermined(OtherResult(r)) <==> IsDetermined(r)
  {
  }
}
