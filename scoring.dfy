/**
 * The points a submitted answer earns: 100 for a correct answer plus a speed
 * bonus of up to 50, scaled by a streak multiplier, and nothing for a wrong
 * one. The server computes this in double precision; here it is exact integer
 * arithmetic, where `/` by a positive divisor rounds down like `Math.floor`.
 */
module Scoring {

  const BasePoints := 100
  const MaxSpeedBonus := 50
  const StreakTier := 3
  const MaxMultiplier := 3

  /** `Math.floor((1 - timeTaken / (timeLimit * 1000)) * 50)`, with no clamping. */
  function SpeedBonus(timeTaken: int, timeLimit: int): (bonus: int)
    requires timeLimit > 0
    ensures bonus * (timeLimit * 1000) <= MaxSpeedBonus * (timeLimit * 1000 - timeTaken)
    ensures MaxSpeedBonus * (timeLimit * 1000 - timeTaken) < (bonus + 1) * (timeLimit * 1000)
  {
    var limitMs := timeLimit * 1000;
    var scaled := MaxSpeedBonus * (limitMs - timeTaken);
    assert scaled == (scaled / limitMs) * limitMs + scaled % limitMs;
    scaled / limitMs
  }

  /** `Math.min(Math.floor(newStreak / 3), 3)`. */
  function Multiplier(newStreak: int): (m: int)
    ensures m <= MaxMultiplier
    ensures m == MaxMultiplier || (m * StreakTier <= newStreak < (m + 1) * StreakTier)
    ensures newStreak < MaxMultiplier * StreakTier ==> m == newStreak / StreakTier
    ensures newStreak >= MaxMultiplier * StreakTier ==> m == MaxMultiplier
  {
    var tier := newStreak / StreakTier;
    if tier < MaxMultiplier then tier else MaxMultiplier
  }

  /** `Math.floor(points * (1 + multiplier * 0.5))`, that is `floor(points * (2 + m) / 2)`. */
  function Scaled(points: int, multiplier: int): (earned: int)
    ensures 2 * earned <= points * (2 + multiplier) < 2 * earned + 2
  {
    (points * (2 + multiplier)) / 2
  }

  /** What a submission does to its player: correctness, points gained, new streak. */
  datatype Outcome = Outcome(isCorrect: bool, pointsEarned: int, newStreak: int)

  /** The scoring step of `submit_answer`, given the question and the player's current streak. */
  function Score(correctAnswer: int, selectedAnswer: int, timeTaken: int, timeLimit: int, streak: int): (o: Outcome)
    requires timeLimit > 0
    ensures o.isCorrect <==> selectedAnswer == correctAnswer
    ensures !o.isCorrect ==> o.pointsEarned == 0 && o.newStreak == 0
    ensures o.isCorrect ==> o.newStreak == streak + 1
    ensures o.isCorrect ==>
      var points := BasePoints + SpeedBonus(timeTaken, timeLimit);
      2 * o.pointsEarned <= points * (2 + Multiplier(streak + 1)) < 2 * o.pointsEarned + 2
  {
    var isCorrect := correctAnswer == selectedAnswer;
    var points := if isCorrect then BasePoints + SpeedBonus(timeTaken, timeLimit) else 0;
    var newStreak := if isCorrect then streak + 1 else 0;
    Outcome(isCorrect, Scaled(points, Multiplier(newStreak)), newStreak)
  }

  /** `a <= b` scales to `a * c <= b * c` for a non-negative factor. */
  lemma MulMonotone(a: int, b: int, c: int)
    requires a <= b && c >= 0
    ensures a * c <= b * c
  {
    assert b * c - a * c == (b - a) * c;
  }

  /** The floor `b` of `x / d` lies in `lo..hi` when `x` lies in `lo * d..hi * d`. */
  lemma FloorBetween(x: int, d: int, b: int, lo: int, hi: int)
    requires d > 0 && b * d <= x < (b + 1) * d
    ensures lo * d <= x ==> lo <= b
    ensures x <= hi * d ==> b <= hi
  {
    if lo * d <= x && b < lo {
      MulMonotone(b + 1, lo, d);
    }
    if x <= hi * d && b > hi {
      MulMonotone(hi + 1, b, d);
    }
  }

  /** The speed bonus stays in 0..50 within the time limit and turns negative after it. */
  lemma SpeedBonusRange(timeTaken: int, timeLimit: int)
    requires timeLimit > 0
    ensures 0 <= timeTaken <= timeLimit * 1000 ==> 0 <= SpeedBonus(timeTaken, timeLimit) <= MaxSpeedBonus
    ensures timeTaken == 0 ==> SpeedBonus(timeTaken, timeLimit) == MaxSpeedBonus
    ensures timeTaken == timeLimit * 1000 ==> SpeedBonus(timeTaken, timeLimit) == 0
    ensures timeTaken > timeLimit * 1000 ==> SpeedBonus(timeTaken, timeLimit) < 0
  {
    var limitMs := timeLimit * 1000;
    var x := MaxSpeedBonus * (limitMs - timeTaken);
    var b := SpeedBonus(timeTaken, timeLimit);
    if 0 <= timeTaken <= limitMs {
      FloorBetween(x, limitMs, b, 0, MaxSpeedBonus);
    }
    if timeTaken == 0 {
      FloorBetween(x, limitMs, b, MaxSpeedBonus, MaxSpeedBonus);
    }
    if timeTaken > limitMs {
      FloorBetween(x, limitMs, b, 0, -1);
    }
  }

  /** Longer answers never earn a larger bonus. */
  lemma SpeedBonusMonotone(t1: int, t2: int, timeLimit: int)
    requires timeLimit > 0 && t1 <= t2
    ensures SpeedBonus(t2, timeLimit) <= SpeedBonus(t1, timeLimit)
  {
    var limitMs := timeLimit * 1000;
    var b1, b2 := SpeedBonus(t1, timeLimit), SpeedBonus(t2, timeLimit);
    if b2 > b1 {
      MulMonotone(b1 + 1, b2, limitMs);
    }
  }

  /** The multiplier tiers are 0, 1, 2 and 3 for a streak that is never negative. */
  lemma MultiplierRange(newStreak: int)
    requires newStreak >= 0
    ensures 0 <= Multiplier(newStreak) <= MaxMultiplier
    ensures newStreak >= 9 ==> Multiplier(newStreak) == MaxMultiplier
  {
  }

  /**
   * A correct answer inside the time limit earns between 100 and 150 points
   * before the multiplier, so between 100 and 375 after it; a wrong one earns 0.
   */
  lemma EarnedRange(correctAnswer: int, selectedAnswer: int, timeTaken: int, timeLimit: int, streak: int)
    requires timeLimit > 0 && streak >= 0 && 0 <= timeTaken <= timeLimit * 1000
    ensures var o := Score(correctAnswer, selectedAnswer, timeTaken, timeLimit, streak);
      o.isCorrect ==> BasePoints <= o.pointsEarned <= 375
  {
    SpeedBonusRange(timeTaken, timeLimit);
    var points := BasePoints + SpeedBonus(timeTaken, timeLimit);
    var m := Multiplier(streak + 1);
    MultiplierRange(streak + 1);
    assert 200 <= points * (2 + m) <= 150 * 5;
  }

  /** The three worked examples: 150 at once, 100 at the deadline, 225 on a third straight answer. */
  lemma Examples()
    ensures Score(2, 2, 0, 15, 0) == Outcome(true, 150, 1)
    ensures Score(2, 2, 15000, 15, 0) == Outcome(true, 100, 1)
    ensures Score(2, 2, 0, 15, 2) == Outcome(true, 225, 3)
    ensures Score(2, 1, 0, 15, 7) == Outcome(false, 0, 0)
  {
  }
}
