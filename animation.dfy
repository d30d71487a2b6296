/**
 * The sprite animations of the game panel as tick-driven counters.  Each
 * animation keeps a frame index and a frame timer; the hurt and attack
 * animations also run for a fixed number of ticks and then switch off, the
 * walk and bird animations loop, and the death animation stops on its last
 * frame.
 */
module Animation {

  const HurtFrames := 2
  const HurtDelay := 6
  const HurtDuration := 18
  const AttackFrames := 4
  const AttackDelay := 4
  const AttackDuration := 16
  const WalkFrames := 6
  const WalkDelay := 3
  const BirdFrames := 6
  const BirdDelay := 3
  const DeathFrames := 4
  const DeathDelay := 8
  const DeathDuration := 32

  /**
   * A timed animation (hurt, attack): whether it plays, the frame shown, the
   * ticks since the last frame change, the ticks since it was triggered.
   */
  datatype Clip = Clip(active: bool, frame: int, frameTick: int, ticks: int)

  /** The counters of a timed animation stay in range, and an idle one shows frame 0. */
  predicate ClipValid(c: Clip, frames: int, delay: int, duration: int)
  {
    && 0 <= c.frame < frames
    && 0 <= c.frameTick < delay
    && 0 <= c.ticks < duration
    && (!c.active ==> c.frame == 0 && c.ticks == 0)
  }

  /** The state a timed animation is put in when it is (re)triggered. */
  const Triggered := Clip(true, 0, 0, 0)

  /**
   * One tick of a timed animation: the frame advances every `delay` ticks,
   * and after `duration` ticks the animation switches off and shows frame 0.
   * An idle animation is left as it is.
   */
  function Advance(c: Clip, frames: int, delay: int, duration: int): (r: Clip)
    requires frames > 0 && delay > 0 && duration > 0
    ensures ClipValid(c, frames, delay, duration) ==> ClipValid(r, frames, delay, duration)
    ensures c.active && c.ticks + 1 < duration ==> r.active && r.ticks == c.ticks + 1
    ensures c.active && c.ticks + 1 >= duration ==> !r.active
    ensures !c.active ==> r == c
  {
    if !c.active then c
    else
      var ft := c.frameTick + 1;
      var frame := if ft >= delay then (c.frame + 1) % frames else c.frame;
      var frameTick := if ft >= delay then 0 else ft;
      var ticks := c.ticks + 1;
      if ticks >= duration then Clip(false, 0, frameTick, 0) else Clip(true, frame, frameTick, ticks)
  }

  /** `n` ticks of a timed animation. */
  function AdvanceN(c: Clip, frames: int, delay: int, duration: int, n: nat): Clip
    requires frames > 0 && delay > 0 && duration > 0
  {
    if n == 0 then c else Advance(AdvanceN(c, frames, delay, duration, n - 1), frames, delay, duration)
  }

  /**
   * A triggered animation plays for exactly `duration` ticks: it is still
   * playing, with valid counters, after each of the first `duration - 1`
   * ticks, and it has switched off after the `duration`-th.
   */
  lemma {:induction false} ClipPlaysFor(frames: int, delay: int, duration: int, n: nat)
    requires frames > 0 && delay > 0 && duration > 0
    requires n <= duration
    ensures var c := AdvanceN(Triggered, frames, delay, duration, n);
      ClipValid(c, frames, delay, duration) && (c.active <==> n < duration) && (n < duration ==> c.ticks == n)
  {
    if n > 0 {
      ClipPlaysFor(frames, delay, duration, n - 1);
    }
  }

  /** The hurt animation ends after 18 ticks, showing frame 0 or 1 meanwhile. */
  lemma HurtLasts18Ticks()
    ensures !AdvanceN(Triggered, HurtFrames, HurtDelay, HurtDuration, 18).active
    ensures forall n :: 0 <= n < 18 ==>
      var c := AdvanceN(Triggered, HurtFrames, HurtDelay, HurtDuration, n); c.active && 0 <= c.frame < 2
  {
    ClipPlaysFor(HurtFrames, HurtDelay, HurtDuration, 18);
    forall n | 0 <= n < 18
      ensures var c := AdvanceN(Triggered, HurtFrames, HurtDelay, HurtDuration, n); c.active && 0 <= c.frame < 2
    {
      ClipPlaysFor(HurtFrames, HurtDelay, HurtDuration, n);
    }
  }

  /** The attack animation ends after 16 ticks, showing frames 0 to 3 meanwhile. */
  lemma AttackLasts16Ticks()
    ensures !AdvanceN(Triggered, AttackFrames, AttackDelay, AttackDuration, 16).active
    ensures forall n :: 0 <= n < 16 ==>
      var c := AdvanceN(Triggered, AttackFrames, AttackDelay, AttackDuration, n); c.active && 0 <= c.frame < 4
  {
    ClipPlaysFor(AttackFrames, AttackDelay, AttackDuration, 16);
    forall n | 0 <= n < 16
      ensures var c := AdvanceN(Triggered, AttackFrames, AttackDelay, AttackDuration, n); c.active && 0 <= c.frame < 4
    {
      ClipPlaysFor(AttackFrames, AttackDelay, AttackDuration, n);
    }
  }

  /** A looping animation (walk, bird): the frame shown and the ticks since it changed. */
  datatype Cycle = Cycle(frame: int, frameTick: int)

  predicate CycleValid(c: Cycle, frames: int, delay: int)
  {
    0 <= c.frame < frames && 0 <= c.frameTick < delay
  }

  /** One tick of a looping animation: every `delay` ticks the next frame, wrapping around. */
  function Spin(c: Cycle, frames: int, delay: int): (r: Cycle)
    requires frames > 0 && delay > 0
    ensures CycleValid(c, frames, delay) ==> CycleValid(r, frames, delay)
  {
    var ft := c.frameTick + 1;
    if ft >= delay then Cycle((c.frame + 1) % frames, 0) else Cycle(c.frame, ft)
  }

  function SpinN(c: Cycle, frames: int, delay: int, n: nat): Cycle
    requires frames > 0 && delay > 0
  {
    if n == 0 then c else Spin(SpinN(c, frames, delay, n - 1), frames, delay)
  }

  lemma {:induction false} SpinHolds(c: Cycle, frames: int, delay: int, k: nat)
    requires frames > 0 && delay > 0 && c.frameTick == 0
    requires k < delay
    ensures SpinN(c, frames, delay, k) == Cycle(c.frame, k)
  {
    if k > 0 {
      SpinHolds(c, frames, delay, k - 1);
    }
  }

  /**
   * A looping animation shows each frame for exactly `delay` ticks: from the
   * start of a frame, `delay` ticks later the next frame (mod `frames`) starts.
   */
  lemma SpinPeriod(c: Cycle, frames: int, delay: int)
    requires frames > 0 && delay > 0 && c.frameTick == 0
    ensures SpinN(c, frames, delay, delay) == Cycle((c.frame + 1) % frames, 0)
  {
    SpinHolds(c, frames, delay, delay - 1);
  }

  /** The death animation: the frame shown, the frame timer, the ticks since dying. */
  datatype Fade = Fade(frame: int, frameTick: int, ticks: int)

  /** The state the death animation starts in. */
  const Dying := Fade(0, 0, 0)

  /** One tick of the death animation: a frame every 8 ticks, stopping on the last of 4. */
  function FadeStep(d: Fade): Fade
  {
    var ft := d.frameTick + 1;
    if ft >= DeathDelay then
      Fade(if d.frame + 1 >= DeathFrames then DeathFrames - 1 else d.frame + 1, 0, d.ticks + 1)
    else Fade(d.frame, ft, d.ticks + 1)
  }

  function FadeN(d: Fade, n: nat): Fade
  {
    if n == 0 then d else FadeStep(FadeN(d, n - 1))
  }

  function Min(a: int, b: int): int { if a < b then a else b }

  /** The state of the death animation `n` ticks after it started. */
  function FadeAfter(n: nat): Fade
  {
    Fade(Min(n / DeathDelay, DeathFrames - 1), n % DeathDelay, n)
  }

  /** One more tick of the death animation moves it from its state at `n` to its state at `n + 1`. */
  lemma FadeStepAfter(n: nat)
    ensures FadeStep(FadeAfter(n)) == FadeAfter(n + 1)
  {
    var q, r := n / DeathDelay, n % DeathDelay;
    assert n == DeathDelay * q + r;
    if r + 1 < DeathDelay {
      assert (n + 1) / DeathDelay == q && (n + 1) % DeathDelay == r + 1;
    } else {
      assert (n + 1) / DeathDelay == q + 1 && (n + 1) % DeathDelay == 0;
    }
  }

  /**
   * `n` ticks into the death animation the frame is min(n / 8, 3): it never
   * passes the last frame 3, and it reaches it after 24 ticks.
   */
  lemma {:induction false} FadeAt(n: nat)
    ensures FadeN(Dying, n) == FadeAfter(n)
  {
    if n > 0 {
      FadeAt(n - 1);
      FadeStepAfter(n - 1);
    }
  }
}
