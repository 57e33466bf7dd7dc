/**
 * Per-message affection deltas: a range that depends on the sentiment and
 * the current intimacy level, and a uniform draw from that range.
 */
module AffectionCalculator {

  datatype Sentiment = Positive | Neutral | Negative

  datatype PointsRange = PointsRange(min: int, max: int)

  /**
   * The range of a message's delta.  Levels are compared exactly against
   * 0, 1, 2 and 3; every other level uses the top range.
   */
  function GetPointsRange(sentiment: Sentiment, level: int): (r: PointsRange)
    ensures r.min <= r.max
    ensures sentiment == Neutral <==> r == PointsRange(0, 0)
    ensures sentiment == Positive ==> 0 < r.min
    ensures sentiment == Negative ==> r.max < 0
  {
    if level == 0 then
      (match sentiment case Positive => PointsRange(3, 5) case Negative => PointsRange(-5, -3) case Neutral => PointsRange(0, 0))
    else if level == 1 then
      (match sentiment case Positive => PointsRange(5, 7) case Negative => PointsRange(-7, -5) case Neutral => PointsRange(0, 0))
    else if level == 2 then
      (match sentiment case Positive => PointsRange(7, 10) case Negative => PointsRange(-10, -7) case Neutral => PointsRange(0, 0))
    else if level == 3 then
      (match sentiment case Positive => PointsRange(8, 10) case Negative => PointsRange(-10, -8) case Neutral => PointsRange(0, 0))
    else
      (match sentiment case Positive => PointsRange(10, 10) case Negative => PointsRange(-10, -10) case Neutral => PointsRange(0, 0))
  }

  /** Levels other than 0..3 (above 4, negative, fractional in the source) all use the level-4 range. */
  lemma OtherLevelsUseTopRange(sentiment: Sentiment, level: int)
    requires !(0 <= level <= 3)
    ensures GetPointsRange(sentiment, level) == GetPointsRange(sentiment, 4)
  {
  }

  /** A negative message costs exactly what a positive one gains, mirrored. */
  lemma NegativeMirrorsPositive(level: int)
    ensures GetPointsRange(Negative, level).min == -GetPointsRange(Positive, level).max
    ensures GetPointsRange(Negative, level).max == -GetPointsRange(Positive, level).min
  {
  }

  /** Ranges never shrink as the level rises from 0 to 4. */
  lemma PositiveRangeGrows(a: int, b: int)
    requires 0 <= a <= b <= 4
    ensures GetPointsRange(Positive, a).min <= GetPointsRange(Positive, b).min
    ensures GetPointsRange(Positive, a).max <= GetPointsRange(Positive, b).max
  {
  }

  /**
   * The delta for a message.  `random` stands for `Math.random()`; a
   * one-point range is returned without a draw.
   */
  function CalculatePointsDelta(sentiment: Sentiment, level: int, random: real): (delta: int)
    requires 0.0 <= random < 1.0
    ensures GetPointsRange(sentiment, level).min <= delta <= GetPointsRange(sentiment, level).max
  {
    var range := GetPointsRange(sentiment, level);
    if range.min == range.max then range.min
    else
      var width := range.max - range.min + 1;
      FloorBelow(random, width);
      (random * width as real).Floor + range.min
  }

  lemma FloorBelow(random: real, width: int)
    requires 0.0 <= random < 1.0 && width > 0
    ensures 0 <= (random * width as real).Floor < width
  {
    assert random * width as real < width as real;
  }

  /** Every point of the range is the delta of some draw: the draw is uniform over the whole range. */
  lemma EveryDeltaReachable(sentiment: Sentiment, level: int, v: int)
    requires GetPointsRange(sentiment, level).min <= v <= GetPointsRange(sentiment, level).max
    ensures exists random :: 0.0 <= random < 1.0 && CalculatePointsDelta(sentiment, level, random) == v
  {
    var range := GetPointsRange(sentiment, level);
    if range.min == range.max {
      assert CalculatePointsDelta(sentiment, level, 0.0) == v;
    } else {
      var width := range.max - range.min + 1;
      var random := ((v - range.min) as real + 0.5) / width as real;
      assert random * width as real == (v - range.min) as real + 0.5;
      assert (random * width as real).Floor == v - range.min;
      assert CalculatePointsDelta(sentiment, level, random) == v;
    }
  }
}
