// The computer's re-roll policy, inlined in the Re-Throw and Score callbacks:
// up to `budget` rounds; each round first flips a coin and stops for good on
// tails; on heads it flips one coin per die to decide which dice to keep and
// re-throws the others.
module ComputerPolicy {
  import opened Dice

  /** The draws of one round: the "re-roll at all?" coin, one keep coin per
      die, and one `Random.nextInt(6)` per die for the positions not kept. */
  datatype CoinRound = CoinRound(reroll: bool, keepCoins: seq<bool>, rolls: seq<Roll>)

  /** Every round carries draws for a hand of n dice, and there are enough
      rounds for the budget. */
  predicate RoundsFit(rounds: seq<CoinRound>, budget: int, n: nat) {
    budget <= |rounds| &&
    forall j :: 0 <= j < |rounds| ==> |rounds[j].keepCoins| == n && |rounds[j].rolls| == n
  }

  /** The positions whose keep coin came up heads. No cap: all of them may be kept. */
  function KeptIndices(keepCoins: seq<bool>): set<int> {
    set i | 0 <= i < |keepCoins| && keepCoins[i]
  }

  /** The computer keeps at most one die per keep coin, and when every keep
      coin is heads it keeps every die: unlike the player, it has no cap. */
  lemma {:induction false} KeptIndicesSize(keepCoins: seq<bool>)
    ensures |KeptIndices(keepCoins)| <= |keepCoins|
    ensures (forall i | 0 <= i < |keepCoins| :: keepCoins[i]) ==> |KeptIndices(keepCoins)| == |keepCoins|
  {
    if keepCoins != [] {
      var n := |keepCoins| - 1;
      var front := keepCoins[..n];
      KeptIndicesSize(front);
      assert n !in KeptIndices(front);
      assert KeptIndices(keepCoins) == KeptIndices(front) + (if keepCoins[n] then {n} else {});
    }
  }

  /** The loop that fills `computerSelectedDiceIndices`, one coin per die. */
  method SelectComputerDice(dice: seq<int>, keepCoins: seq<bool>) returns (kept: set<int>)
    requires |keepCoins| == |dice|
    ensures kept == KeptIndices(keepCoins)
    ensures forall i :: i in kept ==> 0 <= i < |dice|
  {
    kept := {};
    for diceIndex := 0 to |dice|
      invariant kept == KeptIndices(keepCoins[..diceIndex])
    {
      if keepCoins[diceIndex] {
        kept := kept + {diceIndex};
      }
    }
    assert keepCoins[..|dice|] == keepCoins;
  }

  /** One round that the coin allowed: keep the chosen dice, re-throw the rest. */
  function RerollRound(dice: seq<int>, round: CoinRound): (r: seq<int>)
    requires |round.keepCoins| == |dice| && |round.rolls| == |dice|
    ensures |r| == |dice|
    ensures AllDice(dice) ==> AllDice(r)
  {
    GenerateUnselectedDiceNumbers(dice, KeptIndices(round.keepCoins), round.rolls)
  }

  /** The policy step by step, as the loop runs it: while budget remains,
      flip the coin; tails ends the turn, heads re-rolls and goes on. */
  function ComputerPlay(dice: seq<int>, budget: int, rounds: seq<CoinRound>): (r: seq<int>)
    requires RoundsFit(rounds, budget, |dice|)
    ensures |r| == |dice|
    ensures AllDice(dice) ==> AllDice(r)
    decreases |rounds|
  {
    if budget <= 0 || !rounds[0].reroll then dice
    else ComputerPlay(RerollRound(dice, rounds[0]), budget - 1, rounds[1..])
  }

  /** The first k rounds applied unconditionally, oldest first. */
  function ApplyRounds(dice: seq<int>, rounds: seq<CoinRound>, k: nat): (r: seq<int>)
    requires k <= |rounds| && RoundsFit(rounds, 0, |dice|)
    ensures |r| == |dice|
    ensures AllDice(dice) ==> AllDice(r)
  {
    if k == 0 then dice else RerollRound(ApplyRounds(dice, rounds, k - 1), rounds[k - 1])
  }

  /** How many rounds the computer re-rolls: the run of leading heads, cut at the budget. */
  function RoundsTaken(budget: int, rounds: seq<CoinRound>): (k: nat)
    requires budget <= |rounds|
    ensures k <= |rounds| && (k == 0 || k <= budget)
    ensures forall j :: 0 <= j < k ==> rounds[j].reroll
    ensures k < budget ==> !rounds[k].reroll
    decreases |rounds|
  {
    if budget <= 0 || !rounds[0].reroll then 0 else 1 + RoundsTaken(budget - 1, rounds[1..])
  }

  /** The three properties of RoundsTaken determine it: at most the budget,
      all heads before it, tails at it unless the budget ran out. */
  lemma RoundsTakenUnique(budget: int, rounds: seq<CoinRound>, k: nat)
    requires budget <= |rounds|
    requires k == 0 || k <= budget
    requires forall j :: 0 <= j < k ==> rounds[j].reroll
    requires k < budget ==> !rounds[k].reroll
    ensures k == RoundsTaken(budget, rounds)
  {
  }

  /** Applying one more round on the left: the first round, then the next k. */
  lemma {:induction false} ApplyRoundsShift(dice: seq<int>, rounds: seq<CoinRound>, k: nat)
    requires k + 1 <= |rounds| && RoundsFit(rounds, 0, |dice|)
    ensures ApplyRounds(RerollRound(dice, rounds[0]), rounds[1..], k) == ApplyRounds(dice, rounds, k + 1)
  {
    if k > 0 {
      ApplyRoundsShift(dice, rounds, k - 1);
    }
  }

  /** The step-by-step policy re-rolls exactly the first RoundsTaken rounds. */
  lemma {:induction false} ComputerPlayIsFirstRounds(dice: seq<int>, budget: int, rounds: seq<CoinRound>)
    requires RoundsFit(rounds, budget, |dice|)
    ensures ComputerPlay(dice, budget, rounds) == ApplyRounds(dice, rounds, RoundsTaken(budget, rounds))
    decreases |rounds|
  {
    if budget > 0 && rounds[0].reroll {
      var next := RerollRound(dice, rounds[0]);
      var rest := rounds[1..];
      var k := RoundsTaken(budget - 1, rest);
      assert RoundsTaken(budget, rounds) == k + 1;
      assert RoundsFit(rest, budget - 1, |next|) by {
        forall j | 0 <= j < |rest|
          ensures |rest[j].keepCoins| == |next| && |rest[j].rolls| == |next|
        {
          assert rest[j] == rounds[j + 1];
        }
      }
      // The two equalities below spell out the chain the solver needs;
      // the proof is not stable without them.
      ComputerPlayIsFirstRounds(next, budget - 1, rest);
      assert ComputerPlay(next, budget - 1, rest) == ApplyRounds(next, rest, k);
      ApplyRoundsShift(dice, rounds, k);
      assert ApplyRounds(next, rest, k) == ApplyRounds(dice, rounds, k + 1);
    }
  }

  /** Every keep coin heads in every round taken: the computer keeps all five
      dice and its hand is unchanged. */
  lemma {:induction false} KeepingAllLeavesHand(dice: seq<int>, rounds: seq<CoinRound>, k: nat)
    requires k <= |rounds| && RoundsFit(rounds, 0, |dice|)
    requires forall j, i :: 0 <= j < k && 0 <= i < |dice| ==> rounds[j].keepCoins[i]
    ensures ApplyRounds(dice, rounds, k) == dice
  {
    if k > 0 {
      KeepingAllLeavesHand(dice, rounds, k - 1);
      KeepAllIsIdentity(dice, KeptIndices(rounds[k - 1].keepCoins), rounds[k - 1].rolls);
    }
  }

  /** The inlined `for (i in 0 until remainingRerolls)` loop with its `break`. */
  method ComputerTurn(dice: seq<int>, budget: int, rounds: seq<CoinRound>) returns (result: seq<int>)
    requires RoundsFit(rounds, budget, |dice|)
    ensures result == ComputerPlay(dice, budget, rounds)
  {
    result := dice;
    var i := 0;
    while i < budget
      invariant 0 <= i <= |rounds| && (i == 0 || i <= budget)
      invariant |result| == |dice|
      invariant ComputerPlay(dice, budget, rounds) == ComputerPlay(result, budget - i, rounds[i..])
    {
      if rounds[i].reroll {
        var computerSelectedDiceIndices := SelectComputerDice(result, rounds[i].keepCoins);
        result := GenerateUnselectedDiceNumbers(result, computerSelectedDiceIndices, rounds[i].rolls);
        assert rounds[i..][1..] == rounds[i + 1..];
        i := i + 1;
      } else {
        break;
      }
    }
  }
}
