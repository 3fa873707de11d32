/**
 * computeScoreForQuestion (play.js:74-84): a base award plus a speed bonus
 * proportional to the time left, rounded the way `Math.round` rounds and
 * never below zero. JavaScript numbers are modelled as `real` (no NaN, no
 * infinities, no binary rounding).
 */
module Scoring {
  import opened Quizzes

  const DefaultBasePoints: real := 500.0
  const DefaultBonusPoints: real := 500.0
  const DefaultTime: real := 20.0

  function Max(a: int, b: int): int { if a < b then b else a }

  /** `Math.round`: the nearest integer, halves rounded up. */
  function Round(x: real): (r: int)
    ensures x - 0.5 < r as real <= x + 0.5
  {
    (x + 0.5).Floor
  }

  /** `typeof v === 'number' ? v : fallback`: a stored 0 is kept. */
  function NumberOr(f: NumField, fallback: real): real {
    if f.Num? then f.value else fallback
  }

  /** `basePoints`: the question's number, else the quiz's, else 500. */
  function BasePoints(q: Question, quiz: Quiz): (r: real)
    ensures q.basePoints.Num? ==> r == q.basePoints.value
    ensures q.basePoints.Absent? && quiz.basePoints.Num? ==> r == quiz.basePoints.value
    ensures q.basePoints.Absent? && quiz.basePoints.Absent? ==> r == DefaultBasePoints
  {
    NumberOr(q.basePoints, NumberOr(quiz.basePoints, DefaultBasePoints))
  }

  /** `bonusPoints`: the question's number, else the quiz's, else 500. */
  function BonusPoints(q: Question, quiz: Quiz): (r: real)
    ensures q.bonusPoints.Num? ==> r == q.bonusPoints.value
    ensures q.bonusPoints.Absent? && quiz.bonusPoints.Num? ==> r == quiz.bonusPoints.value
    ensures q.bonusPoints.Absent? && quiz.bonusPoints.Absent? ==> r == DefaultBonusPoints
  {
    NumberOr(q.bonusPoints, NumberOr(quiz.bonusPoints, DefaultBonusPoints))
  }

  /** `Tmax = q.timeLimit || quiz.defaultTime || timeLimit || 20`: a 0 falls through,
      a negative value does not. `timerLimit` is the timer's current whole-second limit. */
  function ScoringTime(q: Question, quiz: Quiz, timerLimit: int): (r: real)
    ensures r != 0.0
    ensures Truthy(q.timeLimit) ==> r == q.timeLimit.value
    ensures !Truthy(q.timeLimit) && Truthy(quiz.defaultTime) ==> r == quiz.defaultTime.value
    ensures !Truthy(q.timeLimit) && !Truthy(quiz.defaultTime) && timerLimit != 0 ==> r == timerLimit as real
    ensures !Truthy(q.timeLimit) && !Truthy(quiz.defaultTime) && timerLimit == 0 ==> r == DefaultTime
  {
    if Truthy(q.timeLimit) then q.timeLimit.value
    else if Truthy(quiz.defaultTime) then quiz.defaultTime.value
    else if timerLimit != 0 then timerLimit as real
    else DefaultTime
  }

  /** `Math.max(0, Math.min(tmax, remaining))`. */
  function ClampRemaining(remaining: real, tmax: real): (rem: real)
    ensures 0.0 <= rem
    ensures tmax >= 0.0 ==> rem <= tmax
    ensures 0.0 <= remaining <= tmax ==> rem == remaining
    ensures tmax <= 0.0 ==> rem == 0.0
    ensures tmax >= 0.0 && remaining >= tmax ==> rem == tmax
    ensures remaining <= 0.0 ==> rem == 0.0
  {
    var m := if tmax < remaining then tmax else remaining;
    if m < 0.0 then 0.0 else m
  }

  /** `Math.round(bonus * speedFactor)`, the speed factor being the clamped remaining time over `tmax`. */
  function SpeedBonus(bonus: real, tmax: real, remaining: real): (r: int)
    ensures tmax <= 0.0 ==> r == 0
  {
    var factor := if tmax > 0.0 then ClampRemaining(remaining, tmax) / tmax else 0.0;
    Round(bonus * factor)
  }

  /** The award for explicit base, bonus, Tmax and remaining seconds. */
  function Award(base: real, bonus: real, tmax: real, remaining: real): (r: int)
    ensures r >= 0
  {
    Max(0, Round(base + SpeedBonus(bonus, tmax, remaining) as real))
  }

  /** computeScoreForQuestion(q, remaining) with the quiz and the timer's limit passed in. */
  function ComputeScoreForQuestion(q: Question, quiz: Quiz, timerLimit: int, remaining: real): (r: int)
    ensures r >= 0
  {
    Award(BasePoints(q, quiz), BonusPoints(q, quiz), ScoringTime(q, quiz, timerLimit), remaining)
  }

  /** Adding a whole number commutes with rounding. */
  lemma RoundShift(x: real, n: int)
    ensures Round(x + n as real) == Round(x) + n
  {
  }

  lemma RoundMonotone(x: real, y: real)
    requires x <= y
    ensures Round(x) <= Round(y)
  {
  }

  lemma FractionOfWhole(c: real, t: real)
    requires 0.0 <= c <= t && t > 0.0
    ensures 0.0 <= c / t <= 1.0
  {
    assert c / t * t == c;
  }

  lemma ShareOfBonus(bonus: real, f: real)
    requires bonus >= 0.0 && 0.0 <= f <= 1.0
    ensures 0.0 <= bonus * f <= bonus
  {
    assert bonus - bonus * f == bonus * (1.0 - f);
  }

  /** A non-negative bonus gives a speed bonus between 0 and the whole bonus, rounded. */
  lemma SpeedBonusWithinBonus(bonus: real, tmax: real, remaining: real)
    requires bonus >= 0.0
    ensures 0 <= SpeedBonus(bonus, tmax, remaining) <= Round(bonus)
  {
    if tmax > 0.0 {
      var f := ClampRemaining(remaining, tmax) / tmax;
      FractionOfWhole(ClampRemaining(remaining, tmax), tmax);
      ShareOfBonus(bonus, f);
      RoundMonotone(0.0, bonus * f);
      RoundMonotone(bonus * f, bonus);
    } else {
      RoundMonotone(0.0, bonus);
    }
  }

  /** A larger share of a non-negative bonus is never smaller. */
  lemma ScaleMonotone(bonus: real, a: real, b: real, t: real)
    requires bonus >= 0.0 && t > 0.0 && a <= b
    ensures bonus * (a / t) <= bonus * (b / t)
  {
    assert a / t <= b / t by {
      assert (b / t - a / t) * t == b - a;
    }
  }

  /** A larger share of the time left never gives a smaller rounded speed bonus. */
  lemma SpeedBonusMonotone(bonus: real, tmax: real, r1: real, r2: real)
    requires bonus >= 0.0 && r1 <= r2
    ensures SpeedBonus(bonus, tmax, r1) <= SpeedBonus(bonus, tmax, r2)
  {
    if tmax > 0.0 {
      var c1, c2 := ClampRemaining(r1, tmax), ClampRemaining(r2, tmax);
      assert c1 <= c2;
      ScaleMonotone(bonus, c1, c2, tmax);
      RoundMonotone(bonus * (c1 / tmax), bonus * (c2 / tmax));
    }
  }

  /** With a non-negative bonus, answering with more time left never earns less. */
  lemma AwardMonotone(base: real, bonus: real, tmax: real, r1: real, r2: real)
    requires bonus >= 0.0 && r1 <= r2
    ensures Award(base, bonus, tmax, r1) <= Award(base, bonus, tmax, r2)
  {
    var s1, s2 := SpeedBonus(bonus, tmax, r1), SpeedBonus(bonus, tmax, r2);
    SpeedBonusMonotone(bonus, tmax, r1, r2);
    RoundMonotone(base + s1 as real, base + s2 as real);
  }

  /** Without a positive Tmax, or with no time left, only the rounded base is awarded. */
  lemma AwardWithoutSpeedBonus(base: real, bonus: real, tmax: real, remaining: real)
    requires tmax <= 0.0 || remaining <= 0.0
    ensures Award(base, bonus, tmax, remaining) == Max(0, Round(base))
  {
    if tmax > 0.0 {
      assert ClampRemaining(remaining, tmax) == 0.0;
    }
    assert SpeedBonus(bonus, tmax, remaining) == 0;
    assert base + 0 as real == base;
  }

  /** Answering with the whole Tmax (or more) left earns the rounded base plus the rounded bonus. */
  lemma AwardAtFullTime(base: real, bonus: real, tmax: real, remaining: real)
    requires tmax > 0.0 && remaining >= tmax
    ensures Award(base, bonus, tmax, remaining) == Max(0, Round(base) + Round(bonus))
  {
    assert ClampRemaining(remaining, tmax) == tmax;
    assert bonus * (tmax / tmax) == bonus;
    RoundShift(base, Round(bonus));
  }

  /** With non-negative points and a positive Tmax the award lies between the base and base plus bonus. */
  lemma AwardBetweenBaseAndFull(base: real, bonus: real, tmax: real, remaining: real)
    requires base >= 0.0 && bonus >= 0.0 && tmax > 0.0
    ensures Round(base) <= Award(base, bonus, tmax, remaining) <= Round(base) + Round(bonus)
  {
    var c := ClampRemaining(remaining, tmax);
    assert ClampRemaining(c, tmax) == c;
    assert SpeedBonus(bonus, tmax, remaining) == SpeedBonus(bonus, tmax, c);
    AwardMonotone(base, bonus, tmax, 0.0, c);
    AwardWithoutSpeedBonus(base, bonus, tmax, 0.0);
    AwardMonotone(base, bonus, tmax, c, tmax);
    AwardAtFullTime(base, bonus, tmax, tmax);
  }

  /** The fallback chains: typed points keep a stored 0, while the `||` chain of Tmax skips it. */
  lemma FallbackChains(q: Question, quiz: Quiz, timerLimit: int)
    requires q.basePoints == Num(0.0) && q.bonusPoints == Absent && quiz.bonusPoints == Absent
    requires q.timeLimit == Num(0.0) && quiz.defaultTime == Num(15.0)
    ensures BasePoints(q, quiz) == 0.0
    ensures BonusPoints(q, quiz) == DefaultBonusPoints
    ensures ScoringTime(q, quiz, timerLimit) == 15.0
  {
  }

  /** Worked values: Tmax 20, base 500 and bonus 500. */
  lemma WorkedValues()
    ensures Award(500.0, 500.0, 20.0, 20.0) == 1000
    ensures Award(500.0, 500.0, 20.0, 10.0) == 750
    ensures Award(500.0, 500.0, 20.0, 0.0) == 500
  {
    assert ClampRemaining(10.0, 20.0) / 20.0 == 0.5;
    assert Round(250.0) == 250;
    assert Round(750.0) == 750;
    AwardAtFullTime(500.0, 500.0, 20.0, 20.0);
    AwardWithoutSpeedBonus(500.0, 500.0, 20.0, 0.0);
  }
}
