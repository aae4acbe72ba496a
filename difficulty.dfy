/**
 * The difficulty rule of the mini-game: the delay between two scheduled
 * relocations of the target, as a function of the score.
 */
module Difficulty {
  import opened Common

  /** Delay at score 0, in milliseconds. */
  const BaseInterval: int := 950
  /** The delay never drops below this, in milliseconds. */
  const MinInterval: int := 320
  /** What one completed level takes off the delay, in milliseconds. */
  const StepMs: int := 90
  /** Points per level. */
  const PointsPerLevel: int := 5
  /** The first score at which the delay sits on its floor. */
  const FloorScore: int := 35

  /**
   * `Math.max(320, 950 - Math.floor(score / 5) * 90)`. Dafny's `/` by a
   * positive divisor rounds towards minus infinity, exactly as
   * `Math.floor(score / 5)` does, so negative scores are covered too.
   */
  function Interval(score: int): (r: int)
    ensures r >= MinInterval
    ensures score >= 0 ==> r <= BaseInterval
    ensures 0 <= score < PointsPerLevel ==> r == BaseInterval
    ensures score >= 0 ==> (r == MinInterval <==> score >= FloorScore)
  {
    Max(MinInterval, BaseInterval - (score / PointsPerLevel) * StepMs)
  }

  /**
   * An independent reading of the rule: the game starts at BaseInterval and
   * every completed level of PointsPerLevel points shaves StepMs off the
   * previous level's delay, never going below MinInterval.
   */
  function LevelInterval(level: nat): int
  {
    if level == 0 then BaseInterval else Max(MinInterval, LevelInterval(level - 1) - StepMs)
  }

  lemma {:induction false} LevelIntervalClosedForm(level: nat)
    ensures LevelInterval(level) == Max(MinInterval, BaseInterval - level * StepMs)
  {
    if level > 0 {
      LevelIntervalClosedForm(level - 1);
    }
  }

  /** The closed formula and the level-by-level reading agree on every score. */
  lemma IntervalByLevels(score: nat)
    ensures Interval(score) == LevelInterval(score / PointsPerLevel)
  {
    LevelIntervalClosedForm(score / PointsPerLevel);
  }

  /** A higher score never gives a slower game. */
  lemma IntervalMonotone(s1: int, s2: int)
    requires s1 <= s2
    ensures Interval(s1) >= Interval(s2)
  {
  }

  /**
   * One more point changes the delay exactly when it completes a level and
   * the floor has not been reached yet; it then drops by StepMs.
   */
  lemma IntervalAfterPoint(s: nat)
    ensures Interval(s + 1) != Interval(s) <==> (s + 1) % PointsPerLevel == 0 && s + 1 <= FloorScore
    ensures Interval(s + 1) != Interval(s) ==> Interval(s + 1) == Interval(s) - StepMs
  {
  }
}
