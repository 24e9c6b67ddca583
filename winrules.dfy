// The win/tie evaluation that runs after every score-producing action
// (auto-score on the second re-throw, Score, and the tie-break throw), and the
// "You Lost!" / "You Won!" text of the game-finished dialog.
module WinRules {

  /** What the scores say after a score-producing action. */
  datatype Verdict = InProgress | Tie | ComputerWon | HumanWon {
    predicate IsWin() {
      ComputerWon? || HumanWon?
    }
  }

  /** The shared block: a tie when both reached the threshold with equal
      scores; otherwise, once either side reached it, the computer wins on a
      strictly greater score and the human wins in every other case. */
  function Evaluate(playerScore: int, computerScore: int, winThreshold: int): (v: Verdict)
    ensures v.ComputerWon? ==> computerScore > playerScore && computerScore >= winThreshold
    ensures v.HumanWon? ==> playerScore > computerScore && playerScore >= winThreshold
    ensures v.Tie? ==> playerScore == computerScore >= winThreshold
    ensures v.InProgress? ==> playerScore < winThreshold && computerScore < winThreshold
  {
    if computerScore >= winThreshold && playerScore >= winThreshold && computerScore == playerScore then
      Tie
    else if computerScore >= winThreshold || playerScore >= winThreshold then
      if computerScore > playerScore then ComputerWon else HumanWon
    else
      InProgress
  }

  /** The game goes on exactly while both scores are below the threshold. */
  lemma InProgressIffBelowThreshold(playerScore: int, computerScore: int, winThreshold: int)
    ensures Evaluate(playerScore, computerScore, winThreshold) == InProgress
        <==> playerScore < winThreshold && computerScore < winThreshold
  {
  }

  /** A tie exactly when the scores are equal and at or above the threshold. */
  lemma TieIffEqualAtThreshold(playerScore: int, computerScore: int, winThreshold: int)
    ensures Evaluate(playerScore, computerScore, winThreshold) == Tie
        <==> playerScore == computerScore && playerScore >= winThreshold
  {
  }

  /** Once a side has reached the threshold and the scores differ, the side
      with the higher score wins. */
  lemma HigherScoreWins(playerScore: int, computerScore: int, winThreshold: int)
    requires playerScore >= winThreshold || computerScore >= winThreshold
    requires playerScore != computerScore
    ensures Evaluate(playerScore, computerScore, winThreshold)
        == if computerScore > playerScore then ComputerWon else HumanWon
  {
  }

  /** The condition under which the dialog says "You Lost!". */
  predicate YouLost(playerScore: int, computerScore: int, winThreshold: int) {
    computerScore > playerScore && computerScore >= winThreshold
  }

  /** Whenever the verdict is a win, the dialog says "You Lost!" exactly when
      the computer's win counter is the one that moves. */
  lemma LostTextMatchesWinner(playerScore: int, computerScore: int, winThreshold: int)
    requires Evaluate(playerScore, computerScore, winThreshold).IsWin()
    ensures YouLost(playerScore, computerScore, winThreshold)
        <==> Evaluate(playerScore, computerScore, winThreshold) == ComputerWon
  {
  }
}
