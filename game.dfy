/** The match state machine over `gameData`: resetting a match, accepting a
    kick only while the game waits for one, scoring it into the ledger and
    ending the match when no kicks remain. The program's timers are
    collapsed: what it does after a delay happens at once. */
module Match {
  import opened GameTypes
  import opened Opponent
  import opened Referee

  /** A ledger record as the kick handler builds it: the result follows from
      the two directions, and the keeper has a direction exactly when the
      difficulty is one the opponent rule knows. */
  predicate RecordFits(rec: KickRecord, difficulty: string) {
    rec.result == CalculatePenaltyResult(rec.playerChoice, rec.computerChoice) &&
    (rec.computerChoice.Some? <==> Listed(difficulty))
  }

  /** Some record of the ledger has no keeper direction; rendering that
      record's keeper direction at the end of the match throws. */
  predicate HasUndefinedKeeper(history: seq<KickRecord>) {
    exists i :: 0 <= i < |history| && history[i].computerChoice.None?
  }

  /** A match played under a difficulty the opponent rule does not know is
      all goals: the player's score is the number of kicks taken, and the
      verdict worked out for a completed match is a win (which, by
      `EndReachedIffListed`, is never shown). */
  lemma UnlistedMatchIsAllGoals(history: seq<KickRecord>, difficulty: string)
    requires !Listed(difficulty)
    requires forall i :: 0 <= i < |history| ==> RecordFits(history[i], difficulty)
    ensures CountGoals(history) == |history| && CountSaves(history) == 0
    ensures |history| == TotalKicks ==> FinalVerdict(CountGoals(history), CountSaves(history)) == Win
  {
  }

  /** On a non-empty ledger built under one difficulty, some record lacks a
      keeper direction exactly when the difficulty is unknown to the
      opponent rule: the result screen is reached iff the difficulty is
      easy, normal or hard. */
  lemma EndReachedIffListed(history: seq<KickRecord>, difficulty: string)
    requires |history| > 0
    requires forall i :: 0 <= i < |history| ==> RecordFits(history[i], difficulty)
    ensures HasUndefinedKeeper(history) <==> !Listed(difficulty)
  {
    assert RecordFits(history[0], difficulty);
    if !Listed(difficulty) {
      assert history[0].computerChoice.None?;
    }
  }

  class GameData {
    var currentState: GameState
    var playerScore: nat
    var computerScore: nat
    const total: nat := TotalKicks
    var remaining: int
    var history: seq<KickRecord>
    var difficulty: string

    /** The scores always agree with a recount of the ledger, every kick
        taken is one kick fewer remaining, the result screen is shown only
        when none remain, and once none remain the game is either on the
        result screen or stuck in the animation state because showing the
        result threw; the two unused screen states are never entered. */
    ghost predicate Valid()
      reads this
    {
      playerScore == CountGoals(history) &&
      computerScore == CountSaves(history) &&
      0 <= remaining && remaining + |history| == total &&
      (currentState == ResultScreen ==> remaining == 0) &&
      (remaining == 0 ==>
        currentState == ResultScreen || (currentState == Animation && HasUndefinedKeeper(history))) &&
      currentState != KickSelection && currentState != GameOver
    }

    /** Every ledger record was produced by the kick handler under the
        current difficulty. */
    ghost predicate LedgerConsistent()
      reads this
    {
      forall i :: 0 <= i < |history| ==> RecordFits(history[i], difficulty)
    }

    /** The initial value of `gameData`. */
    constructor ()
      ensures Valid() && LedgerConsistent()
      ensures currentState == Start && difficulty == DefaultDifficulty
      ensures playerScore == 0 && computerScore == 0
      ensures remaining == TotalKicks && history == []
    {
      currentState := Start;
      playerScore, computerScore := 0, 0;
      remaining := TotalKicks;
      history := [];
      difficulty := DefaultDifficulty;
    }

    /** `initGame`: a fresh match with the selected difficulty, shown on the
        start screen. */
    method InitGame(selected: string)
      modifies this
      ensures Valid() && LedgerConsistent()
      ensures playerScore == 0 && computerScore == 0
      ensures remaining == total && history == []
      ensures difficulty == selected && currentState == Start
    {
      playerScore := 0;
      computerScore := 0;
      remaining := total;
      history := [];
      difficulty := selected;
      currentState := Start;
    }

    /** The start and restart buttons: reset the match and wait for the
        first kick. */
    method StartMatch(selected: string)
      modifies this
      ensures Valid() && LedgerConsistent()
      ensures playerScore == 0 && computerScore == 0
      ensures remaining == total && history == []
      ensures difficulty == selected && currentState == KickPreparation
    {
      InitGame(selected);
      currentState := KickPreparation;
    }

    /** The guard and first half of the kick handler: outside kick
        preparation the click is ignored; otherwise the keeper's direction
        is drawn, the kick is decided and the game enters the animation
        state before anything is scored. */
    method BeginKick(playerChoice: Direction, rand: DrawStream, pos: nat) returns (pending: Option<KickRecord>, next: nat)
      requires Valid()
      modifies this`currentState
      ensures Valid()
      ensures old(currentState) != KickPreparation ==>
        pending == None && next == pos && currentState == old(currentState)
      ensures old(currentState) == KickPreparation ==>
        var p := AIDirection(difficulty, history, rand, pos);
        currentState == Animation && next == p.next &&
        pending == Some(KickRecord(playerChoice, p.choice, CalculatePenaltyResult(playerChoice, p.choice)))
      ensures LedgerConsistent() && pending.Some? ==> RecordFits(pending.value, difficulty)
    {
      if currentState != KickPreparation {
        return None, pos;
      }
      var p := AIDirection(difficulty, history, rand, pos);
      var result := CalculatePenaltyResult(playerChoice, p.choice);
      currentState := Animation;
      pending, next := Some(KickRecord(playerChoice, p.choice, result)), p.next;
      if LedgerConsistent() && Listed(difficulty) {
        ChoiceDefinedIffListed(difficulty, history, rand, pos);
      }
    }

    /** `processKickResult`: a goal scores for the player and anything else
        for the computer, the record is appended to the ledger, one kick
        fewer remains, and the game either waits for the next kick or runs
        `endGame`. The verdict is returned only when the result screen is
        reached. */
    method ProcessKickResult(rec: KickRecord) returns (verdict: Option<Verdict>)
      requires Valid() && currentState == Animation && remaining > 0
      modifies this
      ensures Valid()
      ensures difficulty == old(difficulty)
      ensures history == old(history) + [rec]
      ensures remaining == old(remaining) - 1
      ensures playerScore == old(playerScore) + (if rec.result == Goal then 1 else 0)
      ensures computerScore == old(computerScore) + (if rec.result == Goal then 0 else 1)
      ensures remaining > 0 ==> currentState == KickPreparation && verdict == None
      ensures remaining == 0 && !HasUndefinedKeeper(history) ==>
        currentState == ResultScreen && verdict == Some(FinalVerdict(playerScore, computerScore))
      ensures remaining == 0 && HasUndefinedKeeper(history) ==> currentState == Animation && verdict == None
      ensures old(LedgerConsistent()) && RecordFits(rec, difficulty) ==> LedgerConsistent()
    {
      if rec.result == Goal {
        playerScore := playerScore + 1;
      } else {
        computerScore := computerScore + 1;
      }
      CountAppend(history, rec);
      history := history + [rec];
      remaining := remaining - 1;
      if remaining > 0 {
        currentState := KickPreparation;
        verdict := None;
      } else {
        var v, shown := EndGame();
        verdict := if shown then Some(v) else None;
      }
    }

    /** `endGame`, reached from the animation state once no kicks remain:
        the verdict is worked out on the current scores, then the ledger is
        rendered record by record. Rendering a record without a keeper
        direction throws, so the result screen is not shown and the state
        stays in animation; otherwise the result screen is shown. */
    method EndGame() returns (v: Verdict, shown: bool)
      requires remaining == 0 && |history| == total && currentState == Animation
      requires playerScore == CountGoals(history) && computerScore == CountSaves(history)
      modifies this`currentState
      ensures Valid()
      ensures v == FinalVerdict(playerScore, computerScore)
      ensures shown <==> !HasUndefinedKeeper(history)
      ensures currentState == if shown then ResultScreen else Animation
    {
      v := FinalVerdict(playerScore, computerScore);
      var i := 0;
      while i < |history|
        invariant 0 <= i <= |history|
        invariant forall j :: 0 <= j < i ==> history[j].computerChoice.Some?
      {
        if history[i].computerChoice.None? {
          return v, false;
        }
        i := i + 1;
      }
      shown := true;
      currentState := ResultScreen;
    }

    /** A click on a kick button, with every delay collapsed: ignored
        outside kick preparation (and so for good once a match is stuck in
        animation); otherwise exactly one record is appended, exactly one
        score rises by one and one kick fewer remains. */
    method Kick(playerChoice: Direction, rand: DrawStream, pos: nat) returns (accepted: bool, next: nat, verdict: Option<Verdict>)
      requires Valid() && LedgerConsistent()
      modifies this
      ensures Valid() && LedgerConsistent()
      ensures accepted <==> old(currentState) == KickPreparation
      ensures !accepted ==> unchanged(this) && next == pos && verdict == None
      ensures accepted ==>
        var p := AIDirection(old(difficulty), old(history), rand, pos);
        var rec := KickRecord(playerChoice, p.choice, CalculatePenaltyResult(playerChoice, p.choice));
        next == p.next && difficulty == old(difficulty) &&
        history == old(history) + [rec] && remaining == old(remaining) - 1 &&
        playerScore == old(playerScore) + (if rec.result == Goal then 1 else 0) &&
        computerScore == old(computerScore) + (if rec.result == Goal then 0 else 1) &&
        (remaining > 0 ==> currentState == KickPreparation && verdict == None) &&
        (remaining == 0 && !HasUndefinedKeeper(history) ==>
          currentState == ResultScreen && verdict == Some(FinalVerdict(playerScore, computerScore))) &&
        (remaining == 0 && HasUndefinedKeeper(history) ==> currentState == Animation && verdict == None)
    {
      var pending;
      pending, next := BeginKick(playerChoice, rand, pos);
      if pending.None? {
        return false, next, None;
      }
      accepted := true;
      verdict := ProcessKickResult(pending.value);
    }
  }

  /** A client of `GameData`: a match started under a difficulty the
      opponent rule does not know scores five goals, works out a win, never
      reaches the result screen, and ignores every later click. */
  method UnknownDifficultyMatch(rand: DrawStream)
  {
    var g := new GameData();
    g.StartMatch("expert");
    var pos := 0;
    var accepted: bool, verdict: Option<Verdict> := false, None;
    var k := 0;
    while k < TotalKicks
      invariant 0 <= k <= TotalKicks
      invariant g.Valid() && g.LedgerConsistent() && g.difficulty == "expert"
      invariant |g.history| == k && g.remaining == TotalKicks - k
      invariant k < TotalKicks ==> g.currentState == KickPreparation
      invariant k == TotalKicks && HasUndefinedKeeper(g.history) ==> g.currentState == Animation && verdict == None
    {
      accepted, pos, verdict := g.Kick(Left, rand, pos);
      assert accepted;
      k := k + 1;
    }
    UnlistedMatchIsAllGoals(g.history, g.difficulty);
    EndReachedIffListed(g.history, g.difficulty);
    assert g.playerScore == 5 && g.computerScore == 0;
    assert FinalVerdict(g.playerScore, g.computerScore) == Win;
    assert g.currentState == Animation && verdict == None;
    accepted, pos, verdict := g.Kick(Right, rand, pos);
    assert !accepted && g.playerScore == 5 && |g.history| == 5;
  }
}
