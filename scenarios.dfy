// Clients of the game screen: short button sequences with fixed draws, whose
// outcomes follow from the contracts of `GameGUI` alone.
module Scenarios {
  import opened Dice
  import opened ComputerPolicy
  import opened WinRules
  import opened Game

  /** Two rounds of draws in which the computer declines at once. */
  function Declined(): (rounds: seq<CoinRound>)
    ensures RoundsFit(rounds, MaxReThrows, DiceCount)
  {
    [CoinRound(false, [true, true, true, true, true], [0, 0, 0, 0, 0]),
     CoinRound(false, [true, true, true, true, true], [0, 0, 0, 0, 0])]
  }

  /** Five equal dice total five times their face. */
  lemma SumOfEqualDice(v: int)
    ensures Sum([v, v, v, v, v]) == 5 * v
  {
    assert [v][..0] == [];
    assert Sum([v]) == v;
    assert [v, v][..1] == [v];
    assert Sum([v, v]) == 2 * v;
    assert [v, v, v][..2] == [v, v];
    assert Sum([v, v, v]) == 3 * v;
    assert [v, v, v, v][..3] == [v, v, v];
    assert Sum([v, v, v, v]) == 4 * v;
    assert [v, v, v, v, v][..4] == [v, v, v, v];
  }

  /** Target 20: the player banks five threes, the computer keeps five ones;
      15 against 5 leaves the game in progress. */
  method BelowTargetNoWinner() {
    var g := new GameGUI(20);
    g.Throw([2, 2, 2, 2, 2], [0, 0, 0, 0, 0]);
    assert g.playerDiceValues == [3, 3, 3, 3, 3];
    assert g.computerDiceValues == [1, 1, 1, 1, 1];
    g.Score(Declined());
    assert g.computerDiceValues == [1, 1, 1, 1, 1];
    SumOfEqualDice(3);
    SumOfEqualDice(1);
    assert g.playerScore == 15 && g.computerScore == 5;
    assert g.CurrentVerdict() == InProgress;
    assert g.humanWins == 0 && g.computerWins == 0;
  }

  /** Target 20: both sides bank 25, which is a tie; the tie-break throw
      gives the player 30 more and the computer 5, and the human wins once. */
  method TieThenHumanWins() {
    var g := new GameGUI(20);
    g.Throw([4, 4, 4, 4, 4], [4, 4, 4, 4, 4]);
    g.Score(Declined());
    assert g.computerDiceValues == [5, 5, 5, 5, 5];
    SumOfEqualDice(5);
    assert g.playerScore == 25 && g.computerScore == 25;
    assert g.tieBreakDialog && g.humanWins == 0 && g.computerWins == 0;
    g.ThrowAgain([5, 5, 5, 5, 5], [0, 0, 0, 0, 0]);
    assert g.playerDiceValues == [6, 6, 6, 6, 6];
    assert g.computerDiceValues == [1, 1, 1, 1, 1];
    SumOfEqualDice(6);
    SumOfEqualDice(1);
    assert g.playerScore == 55 && g.computerScore == 30;
    assert g.gameFinishedDialog && !g.tieBreakDialog;
    assert g.humanWins == 1 && g.computerWins == 0;
    assert g.ResultText() == "You Won!";
    g.NewGame();
    assert g.humanWins == 1 && g.playerScore == 0 && g.ThrowEnabled();
  }
}
