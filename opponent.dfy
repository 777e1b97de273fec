/** The computer goalkeeper's decision rule (`getAIDirection` and
    `analyzePlayerPattern`). Each `Math.random()` call reads the next value
    of a draw stream; every function returns the chosen direction together
    with the position of the first draw it did not use. */
module Opponent {
  import opened GameTypes

  const EasyLeftBelow: real := 0.3
  const EasyCenterBelow: real := 0.6
  const NormalLeftBelow: real := 0.33
  const NormalCenterBelow: real := 0.66
  /** Chance, on the hard tier, of diving where the keeper dived last time. */
  const SameDirectionChance: real := 0.4

  /** A decision and the stream position after the draws it consumed. */
  datatype Pick = Pick(choice: Option<Direction>, next: nat)

  /** One draw split into three bands: below `leftBelow` is left, below
      `centerBelow` is center, the rest is right. */
  function Bands(x: real, leftBelow: real, centerBelow: real): (d: Direction)
    requires leftBelow <= centerBelow
    ensures d == Left <==> x < leftBelow
    ensures d == Center <==> leftBelow <= x < centerBelow
    ensures d == Right <==> centerBelow <= x
  {
    if x < leftBelow then Left else if x < centerBelow then Center else Right
  }

  /** The hard tier's "random" direction: a nested conditional whose two
      comparisons each call `Math.random()` afresh, so the second draw is
      taken only when the first is not below 0.33. */
  function TwoDrawRandom(rand: DrawStream, pos: nat): (p: Pick)
    ensures p.choice == Some(Left) <==> rand(pos) < NormalLeftBelow
    ensures p.choice == Some(Center) <==> NormalLeftBelow <= rand(pos) && rand(pos + 1) < NormalCenterBelow
    ensures p.choice == Some(Right) <==> NormalLeftBelow <= rand(pos) && NormalCenterBelow <= rand(pos + 1)
    ensures p.next == if rand(pos) < NormalLeftBelow then pos + 1 else pos + 2
  {
    if rand(pos) < NormalLeftBelow then Pick(Some(Left), pos + 1)
    else if rand(pos + 1) < NormalCenterBelow then Pick(Some(Center), pos + 2)
    else Pick(Some(Right), pos + 2)
  }

  /** `analyzePlayerPattern`: with an empty ledger a two-draw random
      direction; otherwise, with chance 0.4, the keeper's own previous
      direction, and else a two-draw random direction. */
  function AnalyzePlayerPattern(history: seq<KickRecord>, rand: DrawStream, pos: nat): (p: Pick)
    ensures pos < p.next <= pos + 3
    ensures |history| == 0 ==> p.choice.Some? && p.next <= pos + 2
    ensures p.choice.None? ==> |history| > 0 && history[|history| - 1].computerChoice.None?
  {
    if |history| == 0 then TwoDrawRandom(rand, pos)
    else if rand(pos) < SameDirectionChance then Pick(history[|history| - 1].computerChoice, pos + 1)
    else TwoDrawRandom(rand, pos + 1)
  }

  /** `getAIDirection`: one draw is taken first whatever the difficulty;
      easy and normal split it into bands, hard delegates to the pattern
      rule, and any other difficulty falls out of the `switch` with no
      direction. */
  function AIDirection(difficulty: string, history: seq<KickRecord>, rand: DrawStream, pos: nat): (p: Pick)
    ensures pos < p.next <= pos + 4
    ensures !Listed(difficulty) ==> p == Pick(None, pos + 1)
    ensures p.choice.None? ==> !Listed(difficulty) || (|history| > 0 && history[|history| - 1].computerChoice.None?)
  {
    var random := rand(pos);
    if difficulty == "easy" then Pick(Some(Bands(random, EasyLeftBelow, EasyCenterBelow)), pos + 1)
    else if difficulty == "normal" then Pick(Some(Bands(random, NormalLeftBelow, NormalCenterBelow)), pos + 1)
    else if difficulty == "hard" then AnalyzePlayerPattern(history, rand, pos + 1)
    else Pick(None, pos + 1)
  }

  /** Easy tier: left below 0.3, center below 0.6, right otherwise, one draw. */
  lemma EasyThresholds(history: seq<KickRecord>, rand: DrawStream, pos: nat)
    ensures var p := AIDirection("easy", history, rand, pos);
      p.next == pos + 1 &&
      (p.choice == Some(Left) <==> rand(pos) < 0.3) &&
      (p.choice == Some(Center) <==> 0.3 <= rand(pos) < 0.6) &&
      (p.choice == Some(Right) <==> 0.6 <= rand(pos))
  {
  }

  /** Normal tier: left below 0.33, center below 0.66, right otherwise, one draw. */
  lemma NormalThresholds(history: seq<KickRecord>, rand: DrawStream, pos: nat)
    ensures var p := AIDirection("normal", history, rand, pos);
      p.next == pos + 1 &&
      (p.choice == Some(Left) <==> rand(pos) < 0.33) &&
      (p.choice == Some(Center) <==> 0.33 <= rand(pos) < 0.66) &&
      (p.choice == Some(Right) <==> 0.66 <= rand(pos))
  {
  }

  /** Hard tier, non-empty ledger, pattern draw below 0.4: the keeper repeats
      its own last direction (not the player's most frequent one). */
  lemma HardRepeatsLastComputerChoice(history: seq<KickRecord>, rand: DrawStream, pos: nat)
    requires |history| > 0
    requires rand(pos + 1) < SameDirectionChance
    ensures AIDirection("hard", history, rand, pos) == Pick(history[|history| - 1].computerChoice, pos + 2)
  {
  }

  /** Hard tier, otherwise: a two-draw random direction read after the draws
      already spent (one with an empty ledger, two with a non-empty one). */
  lemma HardFallsBackToRandom(history: seq<KickRecord>, rand: DrawStream, pos: nat)
    requires |history| > 0 ==> SameDirectionChance <= rand(pos + 1)
    ensures var start := if |history| == 0 then pos + 1 else pos + 2;
      AIDirection("hard", history, rand, pos) == TwoDrawRandom(rand, start)
  {
  }

  /** On a ledger in which every keeper direction is defined, the opponent
      produces a direction exactly when the difficulty is one it knows. */
  lemma ChoiceDefinedIffListed(difficulty: string, history: seq<KickRecord>, rand: DrawStream, pos: nat)
    requires forall i :: 0 <= i < |history| ==> history[i].computerChoice.Some?
    ensures AIDirection(difficulty, history, rand, pos).choice.Some? <==> Listed(difficulty)
  {
  }
}
