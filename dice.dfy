// The dice helpers of the game screen: a fresh throw of five dice, a partial
// re-throw that keeps the selected positions, and the sum of a hand.
//
// Randomness is injected: a `Roll` is one result of `Random.nextInt(6)`, and
// the die it produces shows `1 + roll`.
module Dice {

  /** Number of dice in a hand. */
  const DiceCount: nat := 5

  /** Faces on one die. */
  const Sides: nat := 6

  /** One draw of `Random.nextInt(6)`. */
  type Roll = x: int | 0 <= x < Sides

  predicate IsDie(v: int) {
    1 <= v <= Sides
  }

  /** Every value of the list is a face of a die. */
  predicate AllDice(s: seq<int>) {
    forall i :: 0 <= i < |s| ==> IsDie(s[i])
  }

  /** A full hand: exactly five dice, each showing 1 to 6. */
  predicate ValidDice(s: seq<int>) {
    |s| == DiceCount && AllDice(s)
  }

  /** The dice that a list of draws shows, position by position. */
  function RolledDice(rolls: seq<Roll>): (r: seq<int>)
    ensures |r| == |rolls|
    ensures AllDice(r)
  {
    seq(|rolls|, i requires 0 <= i < |rolls| => 1 + rolls[i] as int)
  }

  /** The total of a hand (Kotlin's `List<Int>.sum()`). */
  function Sum(s: seq<int>): int {
    if s == [] then 0 else Sum(s[..|s| - 1]) + s[|s| - 1]
  }

  /** A hand of n dice totals between n and 6n. */
  lemma {:induction false} SumBounds(s: seq<int>)
    requires AllDice(s)
    ensures |s| <= Sum(s) <= Sides * |s|
  {
    if s != [] {
      SumBounds(s[..|s| - 1]);
    }
  }

  /** `generateDiceNumbers`: grows a list by one fresh die until it holds five. */
  method GenerateDiceNumbers(rolls: seq<Roll>) returns (numbers: seq<int>)
    requires |rolls| == DiceCount
    ensures ValidDice(numbers)
    ensures numbers == RolledDice(rolls)
  {
    numbers := [];
    while |numbers| < DiceCount
      invariant |numbers| <= DiceCount
      invariant numbers == RolledDice(rolls[..|numbers|])
    {
      var newNumber: int := 1 + rolls[|numbers|] as int;
      numbers := numbers + [newNumber];
    }
    assert rolls[..|numbers|] == rolls;
  }

  /** `generateUnselectedDiceNumbers`: every selected position keeps its die,
      every other position shows the die of its own draw. */
  function GenerateUnselectedDiceNumbers(currentDice: seq<int>, selectedIndices: set<int>,
                                         rolls: seq<Roll>): (r: seq<int>)
    requires |rolls| == |currentDice|
    ensures |r| == |currentDice|
    ensures forall i :: 0 <= i < |r| && i in selectedIndices ==> r[i] == currentDice[i]
    ensures forall i :: 0 <= i < |r| && i !in selectedIndices ==> IsDie(r[i]) && r[i] == RolledDice(rolls)[i]
  {
    seq(|currentDice|, i requires 0 <= i < |currentDice| =>
      if i in selectedIndices then currentDice[i] else 1 + rolls[i] as int)
  }

  /** A re-throw of a valid hand is again a valid hand. */
  lemma RethrowKeepsDiceValid(currentDice: seq<int>, selectedIndices: set<int>, rolls: seq<Roll>)
    requires |rolls| == |currentDice|
    requires ValidDice(currentDice)
    ensures ValidDice(GenerateUnselectedDiceNumbers(currentDice, selectedIndices, rolls))
  {
  }

  /** Selection entries outside the hand's positions have no effect. */
  lemma OutOfRangeSelectionIgnored(currentDice: seq<int>, selectedIndices: set<int>, rolls: seq<Roll>)
    requires |rolls| == |currentDice|
    ensures var inRange := set i | i in selectedIndices && 0 <= i < |currentDice|;
      GenerateUnselectedDiceNumbers(currentDice, selectedIndices, rolls)
        == GenerateUnselectedDiceNumbers(currentDice, inRange, rolls)
  {
  }

  /** Keeping every position leaves the hand as it was. */
  lemma KeepAllIsIdentity(currentDice: seq<int>, selectedIndices: set<int>, rolls: seq<Roll>)
    requires |rolls| == |currentDice|
    requires forall i :: 0 <= i < |currentDice| ==> i in selectedIndices
    ensures GenerateUnselectedDiceNumbers(currentDice, selectedIndices, rolls) == currentDice
  {
  }

  /** Keeping no position is the same as a fresh throw with the same draws. */
  lemma KeepNoneIsFreshThrow(currentDice: seq<int>, rolls: seq<Roll>)
    requires |rolls| == |currentDice|
    ensures GenerateUnselectedDiceNumbers(currentDice, {}, rolls) == RolledDice(rolls)
  {
  }
}
