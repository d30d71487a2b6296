/**
 * Vertical motion of the player, shared by both game variants: an integer
 * jump impulse, integer gravity applied once per running tick, and a clamp to
 * the platform.  Screen y grows downwards, so a jump has a negative velocity.
 */
module Physics {

  /** Top of the platform. */
  const GroundY := 600
  /** The player's hitbox is `PlayerW` x `PlayerH` at the fixed column `PlayerX`. */
  const PlayerX := 200
  const PlayerW := 50
  const PlayerH := 50
  /** The player's y while standing on the platform: 550. */
  const FloorY := GroundY - PlayerH
  /** Velocity added on every running tick. */
  const Gravity := 2
  /** Velocity set by an accepted jump. */
  const JumpImpulse := -30

  /** The player's vertical state: top edge, velocity, airborne-by-jump flag. */
  datatype Body = Body(y: int, vy: int, jumping: bool)

  /** At rest on the platform. */
  const Standing := Body(FloorY, 0, false)

  /**
   * The space key: accepted only when no jump is in progress and the run is
   * going on; it sets the impulse and marks the player as jumping.
   */
  function Jump(b: Body, space: bool, running: bool): Body
  {
    if space && !b.jumping && running then Body(b.y, JumpImpulse, true) else b
  }

  /**
   * One tick of gravity: speed up by `Gravity`, move, and on reaching the
   * platform stand on it with zero velocity and the jump finished.
   */
  function Fall(b: Body): (r: Body)
    ensures r.y <= FloorY
    ensures r.y == FloorY ==> r.vy == 0 && !r.jumping
    ensures r.y < FloorY ==> r.vy == b.vy + Gravity && r.jumping == b.jumping
  {
    var vy := b.vy + Gravity;
    var y := b.y + vy;
    if y >= FloorY then Body(FloorY, 0, false) else Body(y, vy, b.jumping)
  }

  /** `n` running ticks with no key pressed. */
  function Flight(b: Body, n: nat): Body
  {
    if n == 0 then b else Fall(Flight(b, n - 1))
  }

  /** There is no double jump: while a jump is in progress a second press does nothing. */
  lemma NoDoubleJump(b: Body, first: bool, second: bool, running: bool)
    requires Jump(b, first, running) != b
    ensures Jump(Jump(b, first, running), second, running) == Jump(b, first, running)
    ensures Jump(b, first, running).vy == JumpImpulse && Jump(b, first, running).jumping
  {
  }

  /** A player standing on the platform stays there, tick after tick. */
  lemma {:induction false} StandingStays(n: nat)
    ensures Flight(Standing, n) == Standing
  {
    if n > 0 {
      StandingStays(n - 1);
    }
  }

  lemma AirborneBeforeTick29(k: int)
    requires 1 <= k <= 28
    ensures k * k < 29 * k
  {
    assert k * k <= 28 * k;
  }

  /**
   * The jump from the platform, tick by tick: after `k` ticks (k <= 28) the
   * player is still in the air, at y = 550 - 29k + k*k, moving at -30 + 2k.
   */
  lemma {:induction false} JumpArc(k: nat)
    requires k <= 28
    ensures Flight(Jump(Standing, true, true), k) == Body(FloorY - 29 * k + k * k, JumpImpulse + 2 * k, true)
  {
    if k > 0 {
      JumpArc(k - 1);
      AirborneBeforeTick29(k);
      assert k * k == (k - 1) * (k - 1) + 2 * k - 1;
    }
  }

  /** The jump lands back on the platform on its 29th tick, at rest. */
  lemma JumpLandsAfter29Ticks()
    ensures Flight(Jump(Standing, true, true), 29) == Standing
    ensures forall k :: 1 <= k <= 28 ==> Flight(Jump(Standing, true, true), k).y < FloorY
  {
    JumpArc(28);
    forall k | 1 <= k <= 28
      ensures Flight(Jump(Standing, true, true), k).y < FloorY
    {
      JumpArc(k);
      AirborneBeforeTick29(k);
    }
  }

  /** The highest point of the jump is y = 340 (210 px up), reached on ticks 14 and 15. */
  lemma JumpApex(k: nat)
    requires k <= 29
    ensures Flight(Jump(Standing, true, true), k).y >= 340
    ensures Flight(Jump(Standing, true, true), 14).y == 340
  {
    JumpArc(14);
    if k <= 28 {
      JumpArc(k);
      assert (k - 14) * (k - 15) == k * k - 29 * k + 210;
      if k <= 14 {
        assert (14 - k) * (15 - k) >= 0;
      } else {
        assert (k - 14) * (k - 15) >= 0;
      }
    } else {
      JumpLandsAfter29Ticks();
    }
  }
}
