// The game screen's state and the callbacks of its buttons: Throw, the die
// selection toggle, Re-Throw (with auto-scoring on the second re-throw),
// Score, the tie-break "Throw Again" and the game-finished "New Game".
//
// The screen keeps its state in twelve mutable variables that the callbacks
// assign in place; here they are the fields of one object. Every random draw a
// callback makes is passed in as a parameter.
module Game {
  import opened Dice
  import opened ComputerPolicy
  import opened WinRules

  /** At most this many of the player's dice may be kept for a re-throw. */
  const MaxKept: nat := 4

  /** Re-throws per throw; the computer's re-roll budget at auto-score. */
  const MaxReThrows: nat := 2

  /** The selection toggle of one die: a kept die is released, and a free die
      is kept only while fewer than four are kept. */
  function Toggled(selected: set<int>, index: int): (r: set<int>)
    ensures index in r <==> index !in selected && |selected| < MaxKept
    ensures forall j :: j != index ==> (j in r <==> j in selected)
    ensures |selected| <= MaxKept ==> |r| <= MaxKept
  {
    if index in selected then selected - {index}
    else if |selected| < MaxKept then selected + {index}
    else selected
  }

  class GameGUI {
    var playerDiceValues: seq<int>
    var computerDiceValues: seq<int>
    var playerScore: int
    var computerScore: int
    var computerWins: int
    var humanWins: int
    var throwNo: int
    var reThrowNo: int
    var gameFinishedDialog: bool
    var tieBreakDialog: bool
    var hasScored: bool
    var selectedDiceIndices: set<int>
    const winThreshold: int

    /** The verdict of the shared win/tie block on the current scores. */
    function CurrentVerdict(): Verdict
      reads this
    {
      Evaluate(playerScore, computerScore, winThreshold)
    }

    /** The state every sequence of button presses keeps. The two dialogs
        show exactly what the verdict on the current scores is, so the game
        is in progress exactly while both scores are below the threshold. */
    ghost predicate Valid()
      reads this
    {
      winThreshold > 0 &&
      (playerDiceValues == [] || ValidDice(playerDiceValues)) &&
      (computerDiceValues == [] || ValidDice(computerDiceValues)) &&
      |playerDiceValues| == |computerDiceValues| &&
      0 <= throwNo && (throwNo == 0 <==> playerDiceValues == []) &&
      0 <= reThrowNo < MaxReThrows &&
      |selectedDiceIndices| <= MaxKept &&
      (forall i :: i in selectedDiceIndices ==> 0 <= i < DiceCount) &&
      0 <= playerScore && 0 <= computerScore &&
      0 <= humanWins && 0 <= computerWins &&
      tieBreakDialog == (CurrentVerdict() == Tie) &&
      gameFinishedDialog == CurrentVerdict().IsWin() &&
      (tieBreakDialog || gameFinishedDialog ==> hasScored)
    }

    /** Neither dialog is up; both are modal, so while one is shown only
        its own button can be pressed. */
    predicate NoDialog()
      reads this
    {
      !gameFinishedDialog && !tieBreakDialog
    }

    /** When the Throw button is shown. */
    predicate ThrowEnabled()
      reads this
    {
      throwNo == 0 || hasScored
    }

    /** When the Re-Throw button is shown. */
    predicate ReThrowEnabled()
      reads this
    {
      throwNo > 0 && reThrowNo < MaxReThrows && !hasScored
    }

    /** When the Score button is enabled. */
    predicate ScoreEnabled()
      reads this
    {
      |playerDiceValues| > 0 && !hasScored
    }

    /** The win counters moved by exactly what the current verdict says:
        one of them by one on a win, neither otherwise. */
    ghost predicate WinsCounted(humanWins0: int, computerWins0: int)
      reads this
    {
      var v := CurrentVerdict();
      humanWins == humanWins0 + (if v == HumanWon then 1 else 0) &&
      computerWins == computerWins0 + (if v == ComputerWon then 1 else 0)
    }

    /** The screen as first composed, for a given target score. */
    constructor (winThreshold: int)
      requires winThreshold > 0
      ensures Valid() && this.winThreshold == winThreshold
      ensures playerDiceValues == [] && computerDiceValues == []
      ensures playerScore == 0 && computerScore == 0
      ensures computerWins == 0 && humanWins == 0
      ensures throwNo == 0 && reThrowNo == 0 && !hasScored && NoDialog()
      ensures selectedDiceIndices == {}
      ensures ThrowEnabled() && !ReThrowEnabled() && !ScoreEnabled()
    {
      playerDiceValues := [];
      computerDiceValues := [];
      playerScore := 0;
      computerScore := 0;
      computerWins := 0;
      humanWins := 0;
      throwNo := 0;
      reThrowNo := 0;
      gameFinishedDialog := false;
      tieBreakDialog := false;
      hasScored := false;
      selectedDiceIndices := {};
      this.winThreshold := winThreshold;
    }

    /** Throw: five fresh dice for each side. The re-throw counter is left as
        it is: a re-throw used before Score still counts on the next throw,
        which then allows only one re-throw before auto-scoring. */
    method Throw(playerRolls: seq<Roll>, computerRolls: seq<Roll>)
      requires Valid() && NoDialog() && ThrowEnabled()
      requires |playerRolls| == DiceCount && |computerRolls| == DiceCount
      modifies this`playerDiceValues, this`computerDiceValues, this`selectedDiceIndices,
               this`hasScored, this`throwNo
      ensures Valid() && NoDialog()
      ensures playerDiceValues == RolledDice(playerRolls)
      ensures computerDiceValues == RolledDice(computerRolls)
      ensures selectedDiceIndices == {} && !hasScored && throwNo == old(throwNo) + 1
      ensures ReThrowEnabled() && ScoreEnabled() && !ThrowEnabled()
    {
      playerDiceValues := [];
      computerDiceValues := [];
      selectedDiceIndices := {};
      playerDiceValues := GenerateDiceNumbers(playerRolls);
      computerDiceValues := GenerateDiceNumbers(computerRolls);
      hasScored := false;
      throwNo := throwNo + 1;
    }

    /** A click on one of the player's dice; a modal dialog blocks it. */
    method ToggleDie(index: int)
      requires Valid() && NoDialog()
      requires 0 <= index < |playerDiceValues|
      modifies this`selectedDiceIndices
      ensures Valid()
      ensures selectedDiceIndices == Toggled(old(selectedDiceIndices), index)
    {
      selectedDiceIndices := Toggled(selectedDiceIndices, index);
    }

    /** The win/tie block shared by auto-score, Score and Throw Again: it only
        ever raises a dialog flag and moves at most one win counter. */
    method EvaluateOutcome()
      modifies this`tieBreakDialog, this`gameFinishedDialog, this`humanWins, this`computerWins
      ensures tieBreakDialog == (old(tieBreakDialog) || CurrentVerdict() == Tie)
      ensures gameFinishedDialog == (old(gameFinishedDialog) || CurrentVerdict().IsWin())
      ensures WinsCounted(old(humanWins), old(computerWins))
    {
      if computerScore >= winThreshold && playerScore >= winThreshold && computerScore == playerScore {
        tieBreakDialog := true;
      } else {
        if computerScore >= winThreshold || playerScore >= winThreshold {
          if computerScore > playerScore {
            computerWins := computerWins + 1;
          } else {
            humanWins := humanWins + 1;
          }
          gameFinishedDialog := true;
        }
      }
    }

    /** The scoring block shared by auto-score and Score: bank the player's
        hand, let the computer re-roll within its budget, bank its hand, then
        evaluate the scores. */
    method ResolveScores(budget: int, rounds: seq<CoinRound>)
      requires ValidDice(playerDiceValues) && ValidDice(computerDiceValues)
      requires RoundsFit(rounds, budget, DiceCount)
      requires NoDialog()
      modifies this`playerScore, this`computerScore, this`computerDiceValues, this`hasScored,
               this`tieBreakDialog, this`gameFinishedDialog, this`humanWins, this`computerWins
      ensures ValidDice(computerDiceValues)
      ensures playerScore == old(playerScore) + Sum(playerDiceValues)
      ensures computerDiceValues == ComputerPlay(old(computerDiceValues), budget, rounds)
      ensures computerScore == old(computerScore) + Sum(computerDiceValues)
      ensures old(playerScore) < playerScore && old(computerScore) < computerScore
      ensures hasScored
      ensures tieBreakDialog == (CurrentVerdict() == Tie)
      ensures gameFinishedDialog == CurrentVerdict().IsWin()
      ensures WinsCounted(old(humanWins), old(computerWins))
    {
      SumBounds(playerDiceValues);
      playerScore := playerScore + Sum(playerDiceValues);
      computerDiceValues := ComputerTurn(computerDiceValues, budget, rounds);
      SumBounds(computerDiceValues);
      computerScore := computerScore + Sum(computerDiceValues);
      hasScored := true;
      EvaluateOutcome();
    }

    /** Re-Throw: re-throw the dice not kept. The second re-throw scores the
        round at once, giving the computer a budget of two re-rolls, then
        clears the selection and the counter. The selection survives the
        first re-throw. */
    method ReThrow(playerRolls: seq<Roll>, rounds: seq<CoinRound>)
      requires Valid() && ReThrowEnabled()
      requires |playerRolls| == DiceCount && RoundsFit(rounds, MaxReThrows, DiceCount)
      modifies this
      ensures Valid()
      ensures playerDiceValues
           == GenerateUnselectedDiceNumbers(old(playerDiceValues), old(selectedDiceIndices), playerRolls)
      ensures throwNo == old(throwNo)
      ensures old(reThrowNo) + 1 < MaxReThrows ==>
                reThrowNo == old(reThrowNo) + 1 && !hasScored && NoDialog() &&
                selectedDiceIndices == old(selectedDiceIndices) &&
                computerDiceValues == old(computerDiceValues) &&
                playerScore == old(playerScore) && computerScore == old(computerScore) &&
                humanWins == old(humanWins) && computerWins == old(computerWins)
      ensures old(reThrowNo) + 1 == MaxReThrows ==>
                reThrowNo == 0 && hasScored && selectedDiceIndices == {} &&
                playerScore == old(playerScore) + Sum(playerDiceValues) &&
                computerDiceValues == ComputerPlay(old(computerDiceValues), MaxReThrows, rounds) &&
                computerScore == old(computerScore) + Sum(computerDiceValues) &&
                WinsCounted(old(humanWins), old(computerWins))
    {
      if reThrowNo < MaxReThrows && !gameFinishedDialog {
        playerDiceValues := GenerateUnselectedDiceNumbers(playerDiceValues, selectedDiceIndices, playerRolls);
        reThrowNo := reThrowNo + 1;
        if reThrowNo == MaxReThrows {
          ResolveScores(MaxReThrows, rounds);
          selectedDiceIndices := {};
          reThrowNo := 0;
        }
      }
    }

    /** Score: bank the round; the computer may re-roll as often as the player
        has re-throws left on this throw. */
    method Score(rounds: seq<CoinRound>)
      requires Valid() && ScoreEnabled()
      requires RoundsFit(rounds, MaxReThrows - reThrowNo, DiceCount)
      modifies this`playerScore, this`computerScore, this`computerDiceValues, this`hasScored,
               this`tieBreakDialog, this`gameFinishedDialog, this`humanWins, this`computerWins,
               this`selectedDiceIndices
      ensures Valid()
      ensures playerScore == old(playerScore) + Sum(playerDiceValues)
      ensures computerDiceValues == ComputerPlay(old(computerDiceValues), MaxReThrows - reThrowNo, rounds)
      ensures computerScore == old(computerScore) + Sum(computerDiceValues)
      ensures old(playerScore) < playerScore && old(computerScore) < computerScore
      ensures WinsCounted(old(humanWins), old(computerWins))
      ensures hasScored && selectedDiceIndices == {}
      ensures ThrowEnabled() && !ReThrowEnabled() && !ScoreEnabled()
    {
      ResolveScores(MaxReThrows - reThrowNo, rounds);
      selectedDiceIndices := {};
    }

    /** Throw Again under the tie dialog: a fresh hand for each side, banked at
        once with no re-rolls. It ties again exactly when the two hands total
        the same, and never returns the game to play. */
    method ThrowAgain(playerRolls: seq<Roll>, computerRolls: seq<Roll>)
      requires Valid() && tieBreakDialog
      requires |playerRolls| == DiceCount && |computerRolls| == DiceCount
      modifies this`tieBreakDialog, this`selectedDiceIndices, this`playerDiceValues,
               this`computerDiceValues, this`playerScore, this`computerScore, this`hasScored,
               this`gameFinishedDialog, this`humanWins, this`computerWins, this`throwNo
      ensures Valid()
      ensures playerDiceValues == RolledDice(playerRolls)
      ensures computerDiceValues == RolledDice(computerRolls)
      ensures playerScore == old(playerScore) + Sum(playerDiceValues)
      ensures computerScore == old(computerScore) + Sum(computerDiceValues)
      ensures WinsCounted(old(humanWins), old(computerWins))
      ensures tieBreakDialog <==> Sum(playerDiceValues) == Sum(computerDiceValues)
      ensures tieBreakDialog || gameFinishedDialog
      ensures hasScored && selectedDiceIndices == {} && throwNo == old(throwNo) + 1
    {
      assert playerScore == computerScore >= winThreshold;
      tieBreakDialog := false;
      selectedDiceIndices := {};
      playerDiceValues := GenerateDiceNumbers(playerRolls);
      computerDiceValues := GenerateDiceNumbers(computerRolls);
      SumBounds(playerDiceValues);
      SumBounds(computerDiceValues);
      playerScore := playerScore + Sum(playerDiceValues);
      computerScore := computerScore + Sum(computerDiceValues);
      hasScored := true;
      TieIffEqualAtThreshold(playerScore, computerScore, winThreshold);
      InProgressIffBelowThreshold(playerScore, computerScore, winThreshold);
      EvaluateOutcome();
      throwNo := throwNo + 1;
    }

    /** New Game under the game-finished dialog: scores and hands are cleared
        and a throw is offered; the win counters, the re-throw counter, the
        scored flag and the selection are left as they are. */
    method NewGame()
      requires Valid() && gameFinishedDialog
      modifies this`gameFinishedDialog, this`playerScore, this`computerScore,
               this`computerDiceValues, this`playerDiceValues, this`throwNo
      ensures Valid() && NoDialog()
      ensures playerScore == 0 && computerScore == 0
      ensures playerDiceValues == [] && computerDiceValues == [] && throwNo == 0
      ensures ThrowEnabled() && !ReThrowEnabled() && !ScoreEnabled()
    {
      gameFinishedDialog := false;
      playerScore := 0;
      computerScore := 0;
      computerDiceValues := [];
      playerDiceValues := [];
      throwNo := 0;
    }

    /** The headline of the game-finished dialog. While the dialog is up it
        says "You Lost!" exactly when the computer won, that is, when the
        computer's win counter was the one the last score moved. */
    function ResultText(): (text: string)
      reads this
      requires Valid()
      ensures text == "You Lost!" || text == "You Won!"
      ensures gameFinishedDialog ==> (text == "You Lost!" <==> CurrentVerdict() == ComputerWon)
    {
      if YouLost(playerScore, computerScore, winThreshold) then "You Lost!" else "You Won!"
    }
  }
}
