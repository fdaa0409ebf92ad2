/**
 * The game's three screens and the rules for moving between them, and the
 * high-score rule applied when a round ends.
 */
module States {

  datatype GameState = Opening | Playing | GameOver

  /**
   * The one screen each screen can lead to: a press starts a round from the
   * opening screen, a collision ends it, a press on the game-over screen
   * returns to the opening screen.
   */
  function Next(s: GameState): GameState
  {
    match s
    case Opening => Playing
    case Playing => GameOver
    case GameOver => Opening
  }

  /**
   * The screen after a space press or a click on the jump button: it moves the
   * opening and game-over screens on by one step and is ignored while playing;
   * it never ends a round.
   */
  function AfterPress(s: GameState): (t: GameState)
    ensures t == s || t == Next(s)
    ensures t == s <==> s == Playing
    ensures t != GameOver
  {
    match s
    case Opening => Playing
    case Playing => Playing
    case GameOver => Opening
  }

  /** Two presses from the game-over screen start a new round: each press makes one move. */
  lemma TwoPressesRestart()
    ensures AfterPress(GameOver) == Opening && AfterPress(AfterPress(GameOver)) == Playing
  {
  }

  /** The high score after a round that ended with the given score: the larger of the two. */
  function BestScore(highScore: int, score: int): (r: int)
    ensures r >= highScore && r >= score
    ensures r == highScore || r == score
  {
    if score > highScore then score else highScore
  }

  /** The stored high score is written exactly when the round beat it. */
  predicate SavesHighScore(highScore: int, score: int)
  {
    score > highScore
  }

  /** A write happens exactly when the high score changes. */
  lemma SavedExactlyWhenImproved(highScore: int, score: int)
    ensures SavesHighScore(highScore, score) <==> BestScore(highScore, score) != highScore
  {
  }
}
