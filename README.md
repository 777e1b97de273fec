# Penalty shootout simulator — game logic model

A Dafny model of the game logic of the browser penalty-shootout game
(`script.js`). The player picks a direction for each of five kicks; a
computer goalkeeper picks a direction by a difficulty-dependent rule; a kick
is saved exactly when the two directions agree and is a goal otherwise. The
match keeps a score for each side, a ledger (`kicks.history`) of every kick
and a count of kicks remaining, and announces win, lose or draw when no
kicks remain. A kick is only ever a goal or a save, a match is always
exactly five kicks, and there is no tie-break.

Modules:

- `GameTypes` (`types.dfy`): directions, results, the ledger record, the
  screen states, the verdict, the draw stream and the constants.
- `Opponent` (`opponent.dfy`): `getAIDirection` and `analyzePlayerPattern`
  as functions of the difficulty, the ledger and a stream of random draws.
  Every `Math.random()` call reads the next draw, in the order the program
  makes them: the draw of line 88 is always taken, even on the hard tier
  where it is not used; the nested conditionals of lines 105 and 117 call
  `Math.random()` once per comparison, so the center/right decision uses a
  second, fresh draw. The hard tier's "pattern" branch repeats the keeper's
  own previous direction, not the player's most frequent one.
- `Referee` (`referee.dfy`): `calculatePenaltyResult`, the verdict of
  `endGame`, and the goal/save tallies that recount the scores from the
  ledger.
- `Match` (`game.dfy`): `gameData` as the class `GameData`, with
  `initGame`, the start/restart buttons, the kick handler (split into its
  guard-and-resolve half and `processKickResult`) and the state change of
  `endGame`. The invariant `Valid()` ties the scores to a recount of the
  ledger and the remaining kicks to the ledger's length, and says that once
  no kicks remain the game is on the result screen or stuck in animation;
  every method that changes the match keeps it. `EndGame` renders the
  ledger record by record, as the program's `forEach` does, and stops where
  the program throws. The client `UnknownDifficultyMatch` plays a whole
  match under an unknown difficulty against these contracts.

Behaviour of the code worth knowing, proved here:

- A difficulty string other than `easy`, `normal` or `hard` makes
  `getAIDirection` return nothing, and then every kick is a goal. After the
  fifth kick `endGame` works out a win, but rendering the kick history
  calls `toUpperCase()` on the missing keeper direction (script.js:249) and
  throws before the result screen is shown (script.js:255): the game stays
  in the animation state and ignores every further kick until it is
  restarted. With easy, normal or hard the result screen is always reached.
- With five kicks (an odd number) a completed match can never end level, so
  the draw branch of `endGame` is unreachable; the player wins exactly when
  three or more kicks went in.

## Model

| member | source | states |
|---|---|---|
| `Opponent.Bands` | script.js:91-94 | one draw maps to left below the first threshold, center below the second, right otherwise, each as an if-and-only-if |
| `Opponent.TwoDrawRandom` | script.js:105 | left iff the first draw is below 0.33; center iff it is not and a second draw is below 0.66; right iff neither; one draw is consumed for left and two otherwise |
| `Opponent.AnalyzePlayerPattern` | script.js:102-118 | consumes one to three draws; always gives a direction on an empty ledger; gives none only when the last record's keeper direction was missing |
| `Opponent.AIDirection` | script.js:87-99 | consumes one to four draws; an unknown difficulty gives no direction after one draw; a missing direction otherwise comes only from a missing last keeper direction |
| `Opponent.EasyThresholds` | script.js:91-92 | easy: one draw, left below 0.3, center in [0.3, 0.6), right from 0.6 |
| `Opponent.NormalThresholds` | script.js:93-94 | normal: one draw, left below 0.33, center in [0.33, 0.66), right from 0.66 |
| `Opponent.HardRepeatsLastComputerChoice` | script.js:109-114 | hard, non-empty ledger, pattern draw below 0.4: the keeper's previous direction, after two draws |
| `Opponent.HardFallsBackToRandom` | script.js:103-117 | hard, empty ledger or pattern draw at least 0.4: the two-draw random rule read from the next unused draw |
| `Opponent.ChoiceDefinedIffListed` | script.js:87-99 | on a ledger with defined keeper directions, a direction is produced iff the difficulty is easy, normal or hard |
| `Referee.CalculatePenaltyResult` | script.js:121-123 | saved iff the keeper's direction equals the player's, goal iff it does not (a missing keeper direction is a goal) |
| `Referee.FinalVerdict` | script.js:223-234 | win iff player > computer, lose iff player < computer, draw iff equal |
| `Referee.CountGoals` | script.js:194-195 | the goal tally of a ledger is at most its length, and equals it iff every record is a goal |
| `Referee.CountSaves` | script.js:197-198 | the non-goal tally plus the goal tally is the ledger's length |
| `Referee.CountAppend` | script.js:192-207 | appending one record raises the goal tally by one iff it is a goal and the non-goal tally by one iff it is not |
| `Referee.UnlistedDifficultyKickIsGoal` | script.js:87-123 | under an unknown difficulty every kick is a goal |
| `Referee.FullMatchVerdict` | script.js:223-234 | after five kicks the verdict is never a draw, and is a win iff at least three goals were scored |
| `Match.UnlistedMatchIsAllGoals` | script.js:192-207 | a ledger built under an unknown difficulty is all goals, and the verdict worked out for a completed one is a win |
| `Match.EndReachedIffListed` | script.js:244-255 | on a non-empty ledger built under one difficulty, some record lacks a keeper direction (so rendering the history throws) iff the difficulty is not easy, normal or hard |
| `Match.GameData.constructor` | script.js:12-27 | start state, both scores 0, five kicks remaining, empty ledger, difficulty normal; the invariant holds |
| `Match.GameData.InitGame` | script.js:54-64 | both scores 0, remaining reset to the total, empty ledger, the selected difficulty, start state; the invariant holds |
| `Match.GameData.StartMatch` | script.js:277-289 | as `InitGame`, then waiting for the first kick |
| `Match.GameData.BeginKick` | script.js:302-309 | outside kick preparation nothing changes; otherwise the opponent's direction and the result are computed and the state becomes animation, with scores, ledger and remaining untouched |
| `Match.GameData.ProcessKickResult` | script.js:192-220 | exactly one score rises by one (the player's iff goal), exactly one record is appended with earlier records unchanged, remaining drops by one, and the game waits for the next kick iff kicks remain; with none remaining it shows the result screen and returns the verdict iff no record lacks a keeper direction, and otherwise stays in animation with no verdict; the invariant is kept |
| `Match.GameData.EndGame` | script.js:223-257 | called from animation once no kicks remain: the verdict on the current scores; the result screen is shown iff no record lacks a keeper direction, otherwise the state stays in animation; the invariant holds afterwards |
| `Match.GameData.Kick` | script.js:301-318 | a click outside kick preparation changes nothing; an accepted one appends the record for the drawn keeper direction, scores it, uses one kick and either returns to kick preparation or runs `endGame` (result screen and verdict, or stuck in animation when a keeper direction is missing); invariant and ledger consistency are kept |

## Left out

- The DOM, screen switching, score display and the HTML built by
  `updateUI`, `showScreen`, `showResultMessage`, `hideResultMessage` and
  `endGame`: presentation only. The state change of `showScreen` is kept
  (start screen in `InitGame`, result screen in `EndGame`), and so is the
  one way the history rendering fails (a missing keeper direction).
- `showScreen('game')` sets the state to `undefined` for an instant (there
  is no `GAME` state); the start and restart buttons overwrite it at once, so
  the model goes straight to kick preparation.
- `animateKick` and every delay: the model moves to the next state at once.
  In the program the state stays in animation for two seconds after the last
  kick before `endGame` runs; in the model `endGame` runs in the same step,
  which is why `Valid()` can say that once no kicks remain the game is on
  the result screen or stuck in animation after the throw.
- `playSound`, `console.log`, the sound setting and the mute button: output
  only.
- `Math.random()` itself: its results are a parameter (the draw stream).
  Nothing is assumed about the draws being in [0, 1) because no comparison
  needs it.
- The thresholds (0.3, 0.6, 0.33, 0.66, 0.4) are compared as exact reals,
  not as the nearest double-precision values the program uses; a draw lying
  exactly on a threshold's double (for example the double nearest 0.3 on the
  easy tier) can fall in the neighbouring band in the program.
- The button's `data-direction` text is taken to be one of the three
  directions; a button with another value is not modelled.
- The event-listener wiring and the `window.gameData` export, through which
  a console user could change the state directly.
- Results other than goal and saved: `calculatePenaltyResult` produces only
  these two, so the "anything else" branch of `processKickResult` is the
  saved case.
- Scores and `remaining` are JavaScript numbers; with five kicks they stay
  far below any precision limit, so they are modelled as integers.
