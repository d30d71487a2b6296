/**
 * Distance, score, level, speed and day/night.  The game accumulates distance
 * as a double, 0.12 m per running tick; here it is an exact count of
 * hundredths of a metre, so the score is its whole metres and a phase (level)
 * is 250 m = 25000 hundredths.  The speed multiplier 1.0 + 0.2 * k is held in
 * tenths, 10 + 2k.
 */
module Progression {

  /** (speed / 50.0) * 0.5 metres with speed 12, in hundredths: 0.12 m. */
  const DistancePerTick := 12
  /** Base scroll speed in pixels per tick. */
  const BaseSpeed := 12
  /** Metres per phase: level, speed, day/night and spawn cadence change every 250 m. */
  const PhaseLength := 250

  /** `(int) accumulatedDistance`: whole metres run. */
  function Score(distance: nat): nat
  {
    distance / 100
  }

  /** `(int) (accumulatedDistance / 250.0) + 1`. */
  function Level(distance: nat): nat
  {
    distance / (PhaseLength * 100) + 1
  }

  /** `1.0 + 0.2 * (level - 1)`, in tenths. */
  function SpeedTenths(level: int): int
  {
    10 + 2 * (level - 1)
  }

  /** Day in even phases, night in odd ones. */
  predicate IsDay(score: int)
  {
    (score / PhaseLength) % 2 == 0
  }

  /** `(int) (speed * speedMultiplier)`: whole pixels a collectible moves per tick. */
  function ItemStep(speedTenths: int): (px: int)
    requires speedTenths >= 10
    ensures px * 10 <= BaseSpeed * speedTenths < px * 10 + 10
    ensures px >= BaseSpeed
  {
    (BaseSpeed * speedTenths) / 10
  }

  /**
   * The level read off the distance agrees with the level read off the
   * score: `score / 250 + 1`.  The game computes the multiplier both ways.
   */
  lemma ScoreLevelAgree(d: nat)
    ensures Level(d) == Score(d) / PhaseLength + 1
  {
    var q, r := d / 25000, d % 25000;
    assert d == 25000 * q + r && 0 <= r < 25000;
    assert d / 100 == 250 * q + r / 100;
    assert (250 * q + r / 100) / 250 == q;
  }

  /**
   * One running tick: the score goes up by at most one metre and never down;
   * the level goes up by at most one, and it goes up exactly when the tick's
   * distance crosses a multiple of 250 m.
   */
  lemma TickProgress(d: nat)
    ensures Score(d) <= Score(d + DistancePerTick) <= Score(d) + 1
    ensures Level(d) <= Level(d + DistancePerTick) <= Level(d) + 1
    ensures Level(d + DistancePerTick) == Level(d) + 1 <==> (d + DistancePerTick) % 25000 < DistancePerTick
  {
    var q, r := d / 25000, d % 25000;
    assert d == 25000 * q + r;
    if r + 12 < 25000 {
      assert (d + 12) / 25000 == q && (d + 12) % 25000 == r + 12;
    } else {
      assert (d + 12) / 25000 == q + 1 && (d + 12) % 25000 == r + 12 - 25000;
    }
  }

  /** Score and level never go down as distance grows. */
  lemma Monotone(d: nat, e: nat)
    requires d <= e
    ensures Score(d) <= Score(e) && Level(d) <= Level(e)
  {
    var q, r := d / 100, d % 100;
    assert d == 100 * q + r;
    var q', r' := e / 100, e % 100;
    assert e == 100 * q' + r';
    var p, s := d / 25000, d % 25000;
    assert d == 25000 * p + s;
    var p', s' := e / 25000, e % 25000;
    assert e == 25000 * p' + s';
  }

  /** It is day exactly in odd levels: the first level is a day phase. */
  lemma DayInOddLevels(d: nat)
    ensures IsDay(Score(d)) <==> Level(d) % 2 == 1
  {
    ScoreLevelAgree(d);
  }
}
