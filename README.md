# Dice game round engine — a Dafny model

This project models the round-resolution logic of the DiceGameCW Android game.
A human plays the computer. Each throw gives both sides five dice. The player may
keep up to four dice and re-throw the rest, at most twice, and then banks the total
of the hand. The computer re-rolls by coin flips. The first side to reach the target
score wins the game. Equal scores at or above the target lead to a tie-break throw.

In the source, all of this lives in the button callbacks of the `GameGUI`
composable in `Game.kt`. Those callbacks assign twelve state variables in place.
The model follows the source's own structure:

- `Dice` (`dice.dfy`): `generateDiceNumbers`, a `while` loop that grows a list to five
  dice. Also `generateUnselectedDiceNumbers`, a `mapIndexed` expression (modelled as a
  function), and the sum of a hand.
- `ComputerPolicy` (`policy.dfy`): the computer's re-roll loop. Each round flips a coin
  and stops for good on tails. On heads, one keep coin per die picks the dice to keep,
  and the others are re-thrown. There are at most `budget` rounds. The source inlines
  this loop in two callbacks; here it is the method `ComputerTurn`. It is proved against
  a step-by-step function `ComputerPlay`. That function is in turn proved equal to an
  independent description: apply the first `RoundsTaken` rounds, where `RoundsTaken` is
  the run of leading heads cut off at the budget.
- `WinRules` (`winrules.dfy`): the win/tie block that three callbacks repeat, and the
  "You Lost!" condition of the result dialog.
- `Game` (`game.dfy`): the class `GameGUI`. Its fields are the screen's state variables.
  It has one method per user action: Throw, die toggle, Re-Throw, Score, Throw Again
  and New Game. Each method requires the guard under which the source offers its
  button. Each preserves the invariant `Valid()` and states the whole new state in
  terms of the old state and the draws.
- `Scenarios` (`scenarios.dfy`): two button sequences with fixed draws. Their outcomes
  follow from the method contracts alone.

Randomness is injected. A `Roll` is one result of `Random.nextInt(6)`, and the die it
gives shows `1 + roll`. A `CoinRound` holds the draws of one computer round: the
re-roll coin, one keep coin per die, and one roll per die. Each method takes the draws
it consumes as parameters.

Invariants proved for every reachable state (`GameGUI.Valid`):

- Both hands are empty or hold five dice in 1..6.
- At most four dice are selected.
- The re-throw counter is 0 or 1 between actions.
- Scores and win counters are non-negative.
- The tie dialog is up exactly when the current scores are a tie.
- The game-finished dialog is up exactly when they are a win.

Facts of the code that the model keeps as they are:

- Throw does not reset the re-throw counter (`Game.kt:335-345`). It is set back to 0
  only after the second re-throw (`Game.kt:317`). So a re-throw used before Score still
  counts on the next throw, which then allows only one re-throw before auto-scoring.
- Auto-scoring on the second re-throw gives the computer a budget of 2
  (`Game.kt:282`). Score gives `2 - reThrowNo` (`Game.kt:363`).
- New Game (`Game.kt:852-859`) leaves the scored flag, the re-throw counter and the
  selection as they are.
- The code has no error results for an action taken in the wrong state. The buttons
  are just not offered (`Game.kt:273`, `Game.kt:335`, `Game.kt:396`), so the guards are
  preconditions.
- `Game.kt` does not check the target score. Its caller only passes values of at
  least 50.

## Model

| member | source | states |
|---|---|---|
| `Dice.GenerateDiceNumbers` | app/src/main/java/com/lkavi/dicegamecw/Game.kt:942-949 | returns exactly five dice, each in 1..6, the i-th showing one more than the i-th draw |
| `Dice.RolledDice` | app/src/main/java/com/lkavi/dicegamecw/Game.kt:945 | `1 + Random.nextInt(6)` always gives a die face 1..6, one per draw |
| `Dice.GenerateUnselectedDiceNumbers` | app/src/main/java/com/lkavi/dicegamecw/Game.kt:929-940 | the length is preserved; every selected position keeps its old value; every other position gets its own fresh draw, a value in 1..6 |
| `Dice.RethrowKeepsDiceValid` | app/src/main/java/com/lkavi/dicegamecw/Game.kt:929-940 | re-throwing a valid hand of five gives a valid hand of five |
| `Dice.OutOfRangeSelectionIgnored` | app/src/main/java/com/lkavi/dicegamecw/Game.kt:933-939 | selection entries outside the hand's positions have no effect: the result equals the re-throw with only the in-range entries |
| `Dice.KeepAllIsIdentity` | app/src/main/java/com/lkavi/dicegamecw/Game.kt:933-939 | keeping every position returns the hand unchanged |
| `Dice.KeepNoneIsFreshThrow` | app/src/main/java/com/lkavi/dicegamecw/Game.kt:929-949 | keeping nothing gives the same hand as a fresh `generateDiceNumbers` with the same draws |
| `Dice.SumBounds` | app/src/main/java/com/lkavi/dicegamecw/Game.kt:281 | a hand of n dice totals between n and 6n, so banking a hand of five adds 5..30 |
| `ComputerPolicy.KeptIndicesSize` | app/src/main/java/com/lkavi/dicegamecw/Game.kt:285-291 | the computer keeps at most one die per position; when every keep coin is heads it keeps every die, so unlike the player it has no cap of four |
| `ComputerPolicy.SelectComputerDice` | app/src/main/java/com/lkavi/dicegamecw/Game.kt:285-291 | the loop that fills the computer's keep set builds exactly the heads positions, all within the hand |
| `ComputerPolicy.RerollRound` | app/src/main/java/com/lkavi/dicegamecw/Game.kt:293-299 | one computer re-roll preserves the hand's length and keeps every die within 1..6 |
| `ComputerPolicy.ComputerPlay` | app/src/main/java/com/lkavi/dicegamecw/Game.kt:364-382 | the policy played round by round keeps the hand's length and keeps a valid hand valid |
| `ComputerPolicy.ApplyRounds` | app/src/main/java/com/lkavi/dicegamecw/Game.kt:372-378 | applying the first k rounds, oldest first, keeps the hand's length and validity |
| `ComputerPolicy.RoundsTaken` | app/src/main/java/com/lkavi/dicegamecw/Game.kt:364-381 | the computer re-rolls at most `budget` rounds (none for a budget of 0 or less); every round before the stop has heads; when it stops early, that round's coin is tails |
| `ComputerPolicy.RoundsTakenUnique` | app/src/main/java/com/lkavi/dicegamecw/Game.kt:364-381 | those three properties determine the number of rounds taken |
| `ComputerPolicy.ComputerPlayIsFirstRounds` | app/src/main/java/com/lkavi/dicegamecw/Game.kt:364-382 | the step-by-step policy equals applying exactly the first `RoundsTaken` rounds, so it stops at the first tails and never exceeds the budget |
| `ComputerPolicy.KeepingAllLeavesHand` | app/src/main/java/com/lkavi/dicegamecw/Game.kt:287-299 | if every keep coin is heads, the computer keeps all five dice and its hand is unchanged |
| `ComputerPolicy.ComputerTurn` | app/src/main/java/com/lkavi/dicegamecw/Game.kt:283-303 | the `for`/`break` loop returns exactly the step-by-step policy's hand, `ComputerPlay`; by `ComputerPlayIsFirstRounds` that is the hand after the first `RoundsTaken` rounds |
| `WinRules.Evaluate` | app/src/main/java/com/lkavi/dicegamecw/Game.kt:307-314 | a computer win means a strictly higher score at or above the target; a human win means the same for the player, so equal scores never give a win; a tie means equal scores at or above the target; in progress means both below |
| `WinRules.InProgressIffBelowThreshold` | app/src/main/java/com/lkavi/dicegamecw/Game.kt:386-393 | no dialog and no win counter change exactly when both scores are below the target |
| `WinRules.TieIffEqualAtThreshold` | app/src/main/java/com/lkavi/dicegamecw/Game.kt:386-388 | a tie exactly when the scores are equal and at or above the target |
| `WinRules.HigherScoreWins` | app/src/main/java/com/lkavi/dicegamecw/Game.kt:389-392 | once a side reached the target and the scores differ, the higher score wins |
| `WinRules.LostTextMatchesWinner` | app/src/main/java/com/lkavi/dicegamecw/Game.kt:727 | on a win, the "You Lost!" condition holds exactly when the verdict is a computer win |
| `Game.Toggled` | app/src/main/java/com/lkavi/dicegamecw/Game.kt:113-121 | the clicked die becomes kept exactly when it was free and fewer than four were kept; every other die keeps its status; at most four stay kept |
| `Game.GameGUI.constructor` | app/src/main/java/com/lkavi/dicegamecw/Game.kt:67-78 | the initial state: empty hands, zero scores, counters and wins, no dialog, an empty selection; the state is valid and only Throw is offered |
| `Game.GameGUI.Throw` | app/src/main/java/com/lkavi/dicegamecw/Game.kt:335-345 | both hands become fresh throws; the selection is cleared; the scored flag is reset; the throw count goes up by one; scores, wins and the re-throw counter are untouched; Re-Throw and Score are then offered |
| `Game.GameGUI.ToggleDie` | app/src/main/java/com/lkavi/dicegamecw/Game.kt:113-121 | a click, possible only while no dialog is up, changes only the selection, as `Toggled` says; the state stays valid, so at most four dice are kept |
| `Game.GameGUI.EvaluateOutcome` | app/src/main/java/com/lkavi/dicegamecw/Game.kt:908-916 | raises the tie flag on a tie and the finished flag on a win; moves exactly the winner's counter by one on a win and neither counter otherwise |
| `Game.GameGUI.ResolveScores` | app/src/main/java/com/lkavi/dicegamecw/Game.kt:281-314 | adds the player's hand total; plays the computer policy within the budget; adds the computer's final hand total; sets the scored flag; dialogs and win counters then follow the verdict |
| `Game.GameGUI.ReThrow` | app/src/main/java/com/lkavi/dicegamecw/Game.kt:273-318 | re-throws the unselected dice; the first re-throw only bumps the counter and keeps the selection; the second scores the round with a computer budget of 2, then clears the selection and resets the counter to 0; the counter stays below 2 afterwards |
| `Game.GameGUI.Score` | app/src/main/java/com/lkavi/dicegamecw/Game.kt:360-396 | both scores rise by their hand totals; the computer plays with a budget of 2 minus the re-throws used; wins follow the verdict; the scored flag is set and the selection cleared; after it only Throw is offered, so Score runs once per throw |
| `Game.GameGUI.ThrowAgain` | app/src/main/java/com/lkavi/dicegamecw/Game.kt:899-918 | fresh hands for both sides are banked at once with no re-rolls; it ties again exactly when the two totals are equal; otherwise exactly one side wins; the game never returns to play |
| `Game.GameGUI.NewGame` | app/src/main/java/com/lkavi/dicegamecw/Game.kt:852-859 | scores reset to 0, hands are emptied, the throw count is reset and the dialog closes; win counters, the re-throw counter, the scored flag and the selection are untouched; Throw is offered |
| `Game.GameGUI.ResultText` | app/src/main/java/com/lkavi/dicegamecw/Game.kt:727 | the headline is "You Lost!" or "You Won!"; while the game-finished dialog is up it is "You Lost!" exactly when the computer won, that is, when the computer's win counter was the one moved |

## Left out

- Compose layout and styling are not modelled: rows, columns, texts, colours and the orientation test. The portrait and landscape branches hold identical copies of each callback, and each callback is modelled once.
- `DieImage` is not modelled. It only looks up a drawable resource.
- Dialog chrome is not modelled. The dismiss handlers only set a flag back to true. The two dialog flags are kept as booleans. The dialogs are modal, so Throw and the die toggle require that neither dialog is up; the guards of Re-Throw and Score already exclude them.
- `rememberSaveable` persistence and reading the target from the `Intent` are not modelled. The target is a constructor parameter that must be positive; the settings screen only ever passes 50 or more.
- `MainActivity.kt` (navigation, the About dialog, the settings input) is not part of this model.
- The distribution of `kotlin.random.Random` is not modelled. Draws are parameters with only their ranges fixed. A re-throw takes one draw per die position rather than one draw per re-thrown die in call order. Since draws are arbitrary, the reachable states are the same.
- Kotlin's 32-bit `Int` wrap-around is not modelled. Scores, counters and throw numbers are unbounded integers. Scores overflow only for a target within 30 of `Int.MAX_VALUE`, which the settings screen accepts, or after tens of millions of consecutive tied tie-break throws. Win counters and `throwNo` would need 2^31 games or throws.
