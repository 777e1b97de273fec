/** Deciding one kick (`calculatePenaltyResult`), tallying the ledger and
    announcing the final verdict (`endGame`). */
module Referee {
  import opened GameTypes
  import opened Opponent

  /** A kick is saved exactly when the keeper dived the way the ball went;
      a missing keeper direction never equals a player direction. */
  function CalculatePenaltyResult(playerChoice: Direction, computerChoice: Option<Direction>): (r: Outcome)
    ensures r == Saved <==> computerChoice == Some(playerChoice)
    ensures r == Goal <==> computerChoice != Some(playerChoice)
  {
    if computerChoice == Some(playerChoice) then Saved else Goal
  }

  /** The verdict branch of `endGame`. */
  function FinalVerdict(playerScore: int, computerScore: int): (v: Verdict)
    ensures v == Win <==> playerScore > computerScore
    ensures v == Lose <==> playerScore < computerScore
    ensures v == Draw <==> playerScore == computerScore
  {
    if playerScore > computerScore then Win
    else if playerScore < computerScore then Lose
    else Draw
  }

  /** Number of ledger records whose result is a goal: the player's score
      recomputed from scratch. */
  function CountGoals(history: seq<KickRecord>): (n: nat)
    ensures n <= |history|
    ensures n == |history| <==> forall i :: 0 <= i < |history| ==> history[i].result == Goal
  {
    if history == [] then 0
    else (if history[0].result == Goal then 1 else 0) + CountGoals(history[1..])
  }

  /** Number of ledger records that are not goals: the computer's score
      recomputed from scratch. */
  function CountSaves(history: seq<KickRecord>): (n: nat)
    ensures n + CountGoals(history) == |history|
  {
    if history == [] then 0
    else (if history[0].result == Goal then 0 else 1) + CountSaves(history[1..])
  }

  /** Appending a record adds one to the goal tally exactly when it is a goal,
      and one to the save tally otherwise. */
  lemma {:induction false} CountAppend(history: seq<KickRecord>, rec: KickRecord)
    ensures CountGoals(history + [rec]) == CountGoals(history) + (if rec.result == Goal then 1 else 0)
    ensures CountSaves(history + [rec]) == CountSaves(history) + (if rec.result == Goal then 0 else 1)
  {
    if history == [] {
      assert [rec][1..] == [];
    } else {
      assert (history + [rec])[1..] == history[1..] + [rec];
      CountAppend(history[1..], rec);
    }
  }

  /** With a difficulty the opponent rule does not know, the keeper never
      dives, so every kick is a goal. */
  lemma UnlistedDifficultyKickIsGoal(playerChoice: Direction, difficulty: string, history: seq<KickRecord>, rand: DrawStream, pos: nat)
    requires !Listed(difficulty)
    ensures CalculatePenaltyResult(playerChoice, AIDirection(difficulty, history, rand, pos).choice) == Goal
  {
  }

  /** After a full match of an odd number of kicks the scores cannot be
      level, so `endGame`'s draw branch is never taken with five kicks; the
      player wins exactly when at least three kicks went in. */
  lemma FullMatchVerdict(history: seq<KickRecord>)
    requires |history| == TotalKicks
    ensures FinalVerdict(CountGoals(history), CountSaves(history)) != Draw
    ensures FinalVerdict(CountGoals(history), CountSaves(history)) == Win <==> CountGoals(history) >= 3
  {
  }
}
