/** Values shared by the shootout engine: directions, kick results, the
    ledger record of one kick, the screen states and the final verdict. */
module GameTypes {

  /** A value that may be missing; `None` stands for JavaScript's `undefined`. */
  datatype Option<+T> = None | Some(value: T)

  /** The three goal sections a kick or a dive can target. */
  datatype Direction = Left | Center | Right

  /** What `calculatePenaltyResult` can produce. */
  datatype Outcome = Goal | Saved

  /** One entry of `kicks.history`. The computer's choice is `None` when
      the opponent rule produced no direction (an unlisted difficulty). */
  datatype KickRecord = KickRecord(
    playerChoice: Direction,
    computerChoice: Option<Direction>,
    result: Outcome)

  /** The six values of `GAME_STATES`. `KickSelection` and `GameOver` are
      declared by the program but never entered. */
  datatype GameState = Start | KickPreparation | KickSelection | Animation | ResultScreen | GameOver

  /** The three texts `endGame` can announce. */
  datatype Verdict = Win | Lose | Draw

  /** A stream of `Math.random()` results: the `i`-th call returns `rand(i)`. */
  type DrawStream = nat -> real

  /** Number of kicks in a match (`kicks.total`). */
  const TotalKicks: nat := 5

  /** The difficulty a fresh page starts with. */
  const DefaultDifficulty: string := "normal"

  /** The difficulty names the opponent rule knows. */
  predicate Listed(difficulty: string) {
    difficulty == "easy" || difficulty == "normal" || difficulty == "hard"
  }
}
