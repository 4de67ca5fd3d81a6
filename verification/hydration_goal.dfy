/** The daily-goal formula of utils/calculations.ts: a base of 35 ml per
    kilogram plus fixed bonuses for height, gender and activity, rounded the
    way JavaScript's Math.round rounds. */
module HydrationGoal {
  import opened Types

  const MlPerKg: int := 35
  /** Heights strictly above this many centimetres earn the height bonus. */
  const TallThreshold: int := 180
  const TallBonus: int := 200
  const MaleBonus: int := 300

  /** Math.round: the nearest integer, ties rounded up (towards +infinity). */
  function Round(x: real): (r: int)
    ensures x - 0.5 < r as real <= x + 0.5
  {
    (x + 0.5).Floor
  }

  /** The activity switch; Sedentary falls through with no bonus. */
  function ActivityBonus(level: ActivityLevel): (bonus: int)
    ensures bonus >= 0
  {
    match level
    case Sedentary => 0
    case Light => 300
    case Moderate => 600
    case VeryActive => 1000
  }

  /** Position of an activity level in the order Sedentary < Light <
      Moderate < Very Active. */
  function ActivityRank(level: ActivityLevel): nat
  {
    match level
    case Sedentary => 0
    case Light => 1
    case Moderate => 2
    case VeryActive => 3
  }

  /** calculateHydrationGoal: start from weight * 35, add the bonuses one
      after the other in floating point, then round. The setup form only
      passes parseInt results, so weight and height are whole numbers, every
      sum is a whole number and the rounding is exact. */
  function CalculateHydrationGoal(weight: int, height: int, gender: Gender, level: ActivityLevel): (goal: int)
    ensures goal
         == MlPerKg * weight
          + (if height > TallThreshold then TallBonus else 0)
          + (if gender == Male then MaleBonus else 0)
          + ActivityBonus(level)
  {
    var base := weight as real * MlPerKg as real;
    var withHeight := if height > TallThreshold then base + TallBonus as real else base;
    var withGender := if gender == Male then withHeight + MaleBonus as real else withHeight;
    var withActivity := withGender + ActivityBonus(level) as real;
    Round(withActivity)
  }

  /** A heavier user never gets a smaller goal. */
  lemma GoalMonotoneInWeight(w1: int, w2: int, height: int, gender: Gender, level: ActivityLevel)
    requires w1 <= w2
    ensures CalculateHydrationGoal(w1, height, gender, level) <= CalculateHydrationGoal(w2, height, gender, level)
  {
  }

  /** A more active user never gets a smaller goal. */
  lemma GoalMonotoneInActivity(weight: int, height: int, gender: Gender, l1: ActivityLevel, l2: ActivityLevel)
    requires ActivityRank(l1) <= ActivityRank(l2)
    ensures CalculateHydrationGoal(weight, height, gender, l1) <= CalculateHydrationGoal(weight, height, gender, l2)
  {
  }

  /** The height test is strict: any height up to and including 180 cm gives
      the same goal, and any height above it gives exactly 200 ml more. */
  lemma HeightBonusIsStrict(weight: int, height: int, gender: Gender, level: ActivityLevel)
    ensures height <= TallThreshold ==>
      CalculateHydrationGoal(weight, height, gender, level) == CalculateHydrationGoal(weight, TallThreshold, gender, level)
    ensures height > TallThreshold ==>
      CalculateHydrationGoal(weight, height, gender, level) == CalculateHydrationGoal(weight, TallThreshold, gender, level) + TallBonus
  {
  }

  /** Being male adds exactly 300 ml over any other gender. */
  lemma MaleBonusExact(weight: int, height: int, other: Gender, level: ActivityLevel)
    requires other != Male
    ensures CalculateHydrationGoal(weight, height, Male, level)
         == CalculateHydrationGoal(weight, height, other, level) + MaleBonus
  {
  }
}
