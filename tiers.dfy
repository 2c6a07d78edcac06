/**
 * Chest tiers of the UHC game: for each tier, the percentage chances of a bad,
 * an average and a good item, and how many items of a kind a chest receives.
 */
module Tiers {

  datatype Tier = BAD | LOW | HIGH

  /** The kind of item a chest is filled with. */
  datatype Chance = BAD | AVERAGE | GOOD

  function BadChance(t: Tier): int {
    match t
    case BAD => 90
    case LOW => 95
    case HIGH => 100
  }

  function AverageChance(t: Tier): int {
    match t
    case BAD => 50
    case LOW => 75
    case HIGH => 75
  }

  function GoodChance(t: Tier): int {
    match t
    case BAD => 0
    case LOW => 7
    case HIGH => 25
  }

  /**
   * The chances are percentages, and a better tier never makes a good or an
   * average item less likely.
   */
  lemma ChancesAreOrdered(t: Tier, u: Tier)
    ensures 0 <= GoodChance(t) <= AverageChance(t) <= BadChance(t) <= 100
    ensures (t == Tier.BAD && u != Tier.BAD) || (t == Tier.LOW && u == Tier.HIGH) ==>
      GoodChance(t) < GoodChance(u) && AverageChance(t) <= AverageChance(u)
  {
  }

  /**
   * `maxChance(max, chance)`: how many of the trials 0, 1, ..., max - 1
   * succeed, where `trial(chance, i)` is the outcome of the i-th random draw
   * `Math.chance(chance)`.
   */
  function MaxChance(max: int, chance: int, trial: (int, nat) -> bool): (n: nat)
    ensures max <= 0 ==> n == 0
    ensures max >= 0 ==> n <= max
    decreases max
  {
    if max <= 0 then 0
    else MaxChance(max - 1, chance, trial) + (if trial(chance, max - 1) then 1 else 0)
  }

  /** The trials of [0, n) that succeed. */
  function Successes(n: int, chance: int, trial: (int, nat) -> bool): set<nat> {
    set i: nat | i < n && trial(chance, i)
  }

  /** The count is the number of successful trials in the range. */
  lemma {:induction false} MaxChanceCountsSuccesses(max: int, chance: int, trial: (int, nat) -> bool)
    ensures MaxChance(max, chance, trial) == |Successes(max, chance, trial)|
    decreases max
  {
    if max <= 0 {
      assert Successes(max, chance, trial) == {};
    } else {
      MaxChanceCountsSuccesses(max - 1, chance, trial);
      var last: nat := max - 1;
      if trial(chance, last) {
        assert Successes(max, chance, trial) == Successes(max - 1, chance, trial) + {last};
      } else {
        assert Successes(max, chance, trial) == Successes(max - 1, chance, trial);
      }
    }
  }

  /** A chance whose draws never succeed fills nothing; one that always succeeds fills all. */
  lemma {:induction false} MaxChanceExtremes(max: int, chance: int, trial: (int, nat) -> bool)
    requires max >= 0
    ensures (forall i: nat :: i < max ==> !trial(chance, i)) ==> MaxChance(max, chance, trial) == 0
    ensures (forall i: nat :: i < max ==> trial(chance, i)) ==> MaxChance(max, chance, trial) == max
    decreases max
  {
    if max > 0 {
      MaxChanceExtremes(max - 1, chance, trial);
    }
  }

  /** `chanceItem(max, itemChance)`: the count for the tier's chance of that kind of item. */
  function ChanceItem(t: Tier, max: int, itemChance: Chance, trial: (int, nat) -> bool): (n: nat)
    ensures itemChance == Chance.BAD ==> n == MaxChance(max, BadChance(t), trial)
    ensures itemChance == Chance.AVERAGE ==> n == MaxChance(max, AverageChance(t), trial)
    ensures itemChance == Chance.GOOD ==> n == MaxChance(max, GoodChance(t), trial)
    ensures max >= 0 ==> n <= max
  {
    match itemChance
    case BAD => MaxChance(max, BadChance(t), trial)
    case AVERAGE => MaxChance(max, AverageChance(t), trial)
    case GOOD => MaxChance(max, GoodChance(t), trial)
  }
}
