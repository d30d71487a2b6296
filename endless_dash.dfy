/**
 * The simple variant of the runner (EndlessDashGame): one obstacle, on the
 * ground or floating, four hit points, hurt and walk animations, and a score
 * taken from the distance run.  `GamePanel` holds the state the Swing panel
 * keeps in its fields; `Tick` is one timer callback (`actionPerformed`).
 *
 * `Math.random()` is the stream `entropy`, consumed one value per call in
 * program order (`draws` counts the values used).  Stopping the Swing timer
 * is the flag `timerRunning`; the high-score file is the `highScore` field.
 */
module EndlessDash {

  import opened Geometry
  import opened Physics
  import opened Animation
  import opened Progression

  const ScreenWidth := 1280
  const ObstacleW := 80
  /** Gap added when an obstacle leaves the screen (then overwritten by `InitObstacle`). */
  const ObstacleGap := 170
  const FloatChance := 0.4
  const FloatH := 80
  /** Clearance between the platform and the bottom of a floating obstacle. */
  const FloatGap := 180
  const MaxHealth := 4

  /** `50 + (int) (Math.random() * 100)`: a ground obstacle's height. */
  function GroundHeight(r: real): (h: int)
    requires 0.0 <= r < 1.0
    ensures 50 <= h < 150
  {
    50 + (r * 100.0).Floor
  }

  class GamePanel {
    /** The hurt animation: `isHurting`, `hurtFrame`, `hurtFrameTick`, `hurtAnimTicks`. */
    var hurt: Clip
    /** The walk animation: `walkFrame`, `walkFrameTick`. */
    var walk: Cycle
    var isDay: bool
    var health: int
    /** The player: `playerY`, `playerVelY`, `jumping`. */
    var player: Body
    /** Left edge of the obstacle in tenths of a pixel (a double in the game). */
    var obsX: int
    var obsW: int
    var obsH: int
    var obsY: int
    var obsFloating: bool
    /** `speedMultiplier` in tenths. */
    var speedTenths: int
    var score: int
    /** `accumulatedDistance` in hundredths of a metre. */
    var distance: nat
    var highScore: int
    var running: bool
    /** Whether the Swing timer still delivers ticks. */
    var timerRunning: bool
    /** The values `Math.random()` returns, in order, and how many were used. */
    const entropy: nat -> real
    var draws: nat

    function PlayerRect(): Rect
      reads this
    {
      Rect(PlayerX, player.y, PlayerW, PlayerH)
    }

    /** The obstacle's hitbox, its x truncated to whole pixels. */
    function ObstacleRect(): Rect
      reads this
    {
      Rect(TruncTenths(obsX), obsY, obsW, obsH)
    }

    ghost predicate EntropyValid()
    {
      forall i: nat :: 0.0 <= entropy(i) < 1.0
    }

    /** The box of the obstacle `InitObstacle` makes from the draws at `d` and `d + 1`. */
    ghost function FreshObstacleRect(d: nat): Rect
      requires EntropyValid()
    {
      if entropy(d) < FloatChance then Rect(ScreenWidth, GroundY - FloatH - FloatGap, ObstacleW, FloatH)
      else Rect(ScreenWidth, GroundY - GroundHeight(entropy(d + 1)), ObstacleW, GroundHeight(entropy(d + 1)))
    }

    /**
     * The obstacle's box once this tick has scrolled it: moved left by
     * 12 * multiplier, or, when wholly past the left edge, a new one.
     */
    ghost function ScrolledObstacleRect(): Rect
      requires EntropyValid()
      reads this`obsX, this`obsW, this`obsH, this`obsY, this`score, this`draws
    {
      var moved := obsX - BaseSpeed * SpeedTenths(score / PhaseLength + 1);
      if moved + obsW * 10 < 0 then FreshObstacleRect(draws)
      else Rect(TruncTenths(moved), obsY, obsW, obsH)
    }

    /** This tick's collision test fires: the player after gravity meets the scrolled obstacle. */
    ghost predicate HitAhead()
      requires EntropyValid()
      reads this`player, this`obsX, this`obsW, this`obsH, this`obsY, this`score, this`draws
    {
      Intersects(Rect(PlayerX, Fall(player).y, PlayerW, PlayerH), ScrolledObstacleRect())
    }

    /** The obstacle is 80 wide and either floats 180 px up or stands on the platform. */
    ghost predicate ObstacleValid()
      reads this`obsW, this`obsH, this`obsY, this`obsFloating
    {
      && obsW == ObstacleW
      && (obsFloating ==> obsH == FloatH && obsY == GroundY - FloatH - FloatGap)
      && (!obsFloating ==> 50 <= obsH < 150 && obsY == GroundY - obsH)
    }

    /** Health is between 0 and 4, the run goes on exactly while it is positive, and the timer with it. */
    ghost predicate SessionValid()
      reads this`health, this`running, this`timerRunning
    {
      && 0 <= health <= MaxHealth
      && (running <==> health > 0)
      && (running ==> timerRunning)
    }

    /** The animation counters are in range. */
    ghost predicate AnimationsValid()
      reads this`hurt, this`walk
    {
      && ClipValid(hurt, HurtFrames, HurtDelay, HurtDuration)
      && CycleValid(walk, WalkFrames, WalkDelay)
    }

    ghost predicate Valid()
      reads this
    {
      && EntropyValid()
      && SessionValid()
      && player.y <= FloorY
      && AnimationsValid()
      && ObstacleValid()
      && score == Score(distance)
    }

    /** The panel as created: full health, standing 190 px above the platform, first obstacle placed. */
    constructor (entropy: nat -> real, storedHighScore: int)
      requires forall i: nat :: 0.0 <= entropy(i) < 1.0
      ensures Valid()
      ensures health == MaxHealth && running && timerRunning && score == 0 && distance == 0
      ensures player == Body(360, 0, false) && hurt == Clip(false, 0, 0, 0) && walk == Cycle(0, 0)
      ensures highScore == storedHighScore && isDay && speedTenths == 10
      ensures obsX == ScreenWidth * 10
    {
      this.entropy := entropy;
      hurt := Clip(false, 0, 0, 0);
      walk := Cycle(0, 0);
      isDay := true;
      health := MaxHealth;
      player := Body(360, 0, false);
      speedTenths := 10;
      score, distance := 0, 0;
      highScore := 0;
      running := true;
      draws := 0;
      new;
      timerRunning := true;
      InitObstacle();
      highScore := storedHighScore;
    }

    /** One value of `Math.random()`. */
    method Random() returns (r: real)
      requires EntropyValid()
      modifies this`draws
      ensures r == entropy(old(draws)) && 0.0 <= r < 1.0
      ensures draws == old(draws) + 1
    {
      r := entropy(draws);
      draws := draws + 1;
    }

    /**
     * `initObstacle`: a new obstacle at the right edge; with probability 0.4
     * it floats (80 high, 180 px above the platform), otherwise it stands on
     * the platform with a height from 50 to 149.
     */
    method InitObstacle()
      requires EntropyValid()
      modifies this`obsX, this`obsW, this`obsH, this`obsY, this`obsFloating, this`draws
      ensures ObstacleValid()
      ensures obsX == ScreenWidth * 10
      ensures obsFloating <==> entropy(old(draws)) < FloatChance
      ensures obsFloating ==> draws == old(draws) + 1
      ensures !obsFloating ==> draws == old(draws) + 2 && obsH == GroundHeight(entropy(old(draws) + 1))
      ensures ObstacleRect() == FreshObstacleRect(old(draws))
    {
      obsX := ScreenWidth * 10;
      obsW := ObstacleW;
      var r := Random();
      if r < FloatChance {
        obsFloating := true;
        obsH := FloatH;
        obsY := GroundY - obsH - FloatGap;
      } else {
        obsFloating := false;
        var h := Random();
        obsH := GroundHeight(h);
        obsY := GroundY - obsH;
      }
    }

    /** The hurt animation's tick. */
    method AdvanceHurt()
      modifies this`hurt
      ensures hurt == Advance(old(hurt), HurtFrames, HurtDelay, HurtDuration)
    {
      if hurt.active {
        hurt := hurt.(frameTick := hurt.frameTick + 1);
        if hurt.frameTick >= HurtDelay {
          hurt := hurt.(frame := (hurt.frame + 1) % HurtFrames, frameTick := 0);
        }
        hurt := hurt.(ticks := hurt.ticks + 1);
        if hurt.ticks >= HurtDuration {
          hurt := hurt.(active := false, ticks := 0, frame := 0);
        }
      }
    }

    /** The walk animation advances only on the platform, not jumping and not hurting. */
    method AdvanceWalk()
      modifies this`walk
      ensures walk == if !hurt.active && !player.jumping && player.y >= FloorY
                        then Spin(old(walk), WalkFrames, WalkDelay) else old(walk)
    {
      if !hurt.active && !player.jumping && player.y >= FloorY {
        walk := walk.(frameTick := walk.frameTick + 1);
        if walk.frameTick >= WalkDelay {
          walk := Cycle((walk.frame + 1) % WalkFrames, 0);
        }
      }
    }

    /**
     * The obstacle scrolls left at 12 * multiplier px; once wholly off the
     * left edge a new one is made, and it starts at x = 1280: `InitObstacle`
     * overwrites the 1280 + 170 just added.
     */
    method ScrollObstacle()
      requires EntropyValid() && ObstacleValid()
      modifies this`speedTenths, this`obsX, this`obsW, this`obsH, this`obsY, this`obsFloating, this`draws
      ensures ObstacleValid()
      ensures speedTenths == SpeedTenths(score / PhaseLength + 1)
      ensures var moved := old(obsX) - BaseSpeed * speedTenths;
        if moved + obsW * 10 < 0 then obsX == ScreenWidth * 10 && draws > old(draws)
        else obsX == moved && obsW == old(obsW) && obsH == old(obsH) && obsY == old(obsY)
             && obsFloating == old(obsFloating) && draws == old(draws)
      ensures ObstacleRect() == old(ScrolledObstacleRect())
    {
      speedTenths := 10 + 2 * (score / PhaseLength);
      obsX := obsX - BaseSpeed * speedTenths;
      if obsX + obsW * 10 < 0 {
        obsX := obsX + (ScreenWidth + ObstacleGap) * 10;
        InitObstacle();
      }
    }

    /** Gravity for one tick. */
    method ApplyGravity()
      modifies this`player
      ensures player == Fall(old(player))
    {
      player := player.(vy := player.vy + Gravity);
      player := player.(y := player.y + player.vy);
      if player.y >= FloorY {
        player := Body(FloorY, 0, false);
      }
    }

    /** The moving part of a tick: the obstacle scrolls and gravity applies. */
    method Move()
      requires EntropyValid() && ObstacleValid()
      modifies this`speedTenths, this`obsX, this`obsW, this`obsH, this`obsY, this`obsFloating, this`draws
      modifies this`player
      ensures ObstacleValid() && speedTenths == SpeedTenths(score / PhaseLength + 1)
      ensures ObstacleRect() == old(ScrolledObstacleRect())
      ensures player == Fall(old(player))
    {
      ScrollObstacle();
      ApplyGravity();
    }

    /** A hit starts the hurt animation, unless it is already playing. */
    method StartHurt()
      modifies this`hurt
      ensures hurt == if old(hurt.active) then old(hurt) else Triggered
    {
      if !hurt.active {
        hurt := Triggered;
      }
    }

    /**
     * The damage of a hit: a positive health drops by exactly one and a new
     * obstacle is made; once health is zero the run stops, the record is
     * raised to the score if beaten, and the timer is stopped.
     */
    method TakeHit() returns (died: bool)
      requires EntropyValid() && 0 <= health <= MaxHealth && ObstacleValid()
      modifies this`health, this`obsX, this`obsW, this`obsH, this`obsY, this`obsFloating, this`draws
      modifies this`running, this`highScore, this`timerRunning
      ensures ObstacleValid()
      ensures health == if old(health) > 0 then old(health) - 1 else 0
      ensures old(health) > 0 ==> obsX == ScreenWidth * 10 && draws > old(draws)
      ensures old(health) > 0 ==> ObstacleRect() == FreshObstacleRect(old(draws))
      ensures old(health) == 0 ==> obsX == old(obsX) && obsY == old(obsY) && draws == old(draws)
      ensures died <==> health == 0
      ensures died ==> !running && !timerRunning
      ensures died ==> highScore == if score > old(highScore) then score else old(highScore)
      ensures !died ==> running == old(running) && highScore == old(highScore) && timerRunning == old(timerRunning)
    {
      died := false;
      if health > 0 {
        health := health - 1;
        InitObstacle();
      }
      if health <= 0 {
        running := false;
        if score > highScore {
          highScore := score;
        }
        health := 0;
        timerRunning := false;
        died := true;
      }
    }

    /** 0.12 m more, and the score is the whole metres. */
    method AdvanceDistance()
      modifies this`distance, this`score
      ensures distance == old(distance) + DistancePerTick && score == Score(distance)
    {
      distance := distance + DistancePerTick;
      score := Score(distance);
    }

    /**
     * The collision test: when the player's box meets the obstacle's, the
     * hurt animation starts and the hit is taken.  Reports whether the run ended.
     */
    method Collide() returns (died: bool)
      requires EntropyValid() && SessionValid() && ObstacleValid() && AnimationsValid() && running
      modifies this`hurt
      modifies this`health, this`obsX, this`obsW, this`obsH, this`obsY, this`obsFloating, this`draws
      modifies this`running, this`highScore, this`timerRunning
      ensures SessionValid() && ObstacleValid() && AnimationsValid()
      ensures died <==> !running
      ensures Intersects(old(PlayerRect()), old(ObstacleRect())) ==>
        && health == old(health) - 1
        && hurt == (if old(hurt.active) then old(hurt) else Triggered)
        && ObstacleRect() == FreshObstacleRect(old(draws)) && obsX == ScreenWidth * 10 && draws > old(draws)
      ensures !Intersects(old(PlayerRect()), old(ObstacleRect())) ==>
        && !died && health == old(health) && hurt == old(hurt) && draws == old(draws)
        && obsX == old(obsX) && obsY == old(obsY) && obsW == old(obsW) && obsH == old(obsH)
        && obsFloating == old(obsFloating) && timerRunning == old(timerRunning)
      ensures died ==> health == 0 && !timerRunning
      ensures highScore == if died && score > old(highScore) then score else old(highScore)
    {
      died := false;
      if Intersects(PlayerRect(), ObstacleRect()) {
        StartHurt();
        died := TakeHit();
      }
    }

    /** The collision test and, unless it ended the run, the distance run. */
    method Strike() returns (died: bool)
      requires Valid() && running
      modifies this
      ensures Valid()
      ensures died <==> !running
      ensures isDay == old(isDay) && walk == old(walk) && player == old(player)
      ensures Intersects(old(PlayerRect()), old(ObstacleRect())) ==>
        && health == old(health) - 1 && obsX == ScreenWidth * 10
        && hurt == (if old(hurt.active) then old(hurt) else Triggered)
      ensures !Intersects(old(PlayerRect()), old(ObstacleRect())) ==>
        && health == old(health) && hurt == old(hurt) && !died && ObstacleRect() == old(ObstacleRect())
      ensures !died ==> distance == old(distance) + DistancePerTick && highScore == old(highScore)
      ensures died ==>
        && health == 0 && distance == old(distance) && !timerRunning
        && highScore == (if score > old(highScore) then score else old(highScore))
      ensures old(score) <= score <= old(score) + 1
    {
      died := Collide();
      if !died {
        TickProgress(distance);
        AdvanceDistance();
      }
    }

    /**
     * The running part of a tick: the obstacle scrolls, gravity applies, a hit
     * is resolved and, unless the hit ended the run, the distance grows.
     */
    method RunStep()
      requires Valid() && running
      modifies this
      ensures Valid()
      ensures highScore >= old(highScore) && isDay == old(isDay) && walk == old(walk)
      ensures player == Fall(old(player))
      ensures old(HitAhead()) ==>
        && health == old(health) - 1 && obsX == ScreenWidth * 10
        && hurt == (if old(hurt.active) then old(hurt) else Triggered)
      ensures !old(HitAhead()) ==>
        && health == old(health) && hurt == old(hurt) && running
        && ObstacleRect() == old(ScrolledObstacleRect())
      ensures running ==> distance == old(distance) + DistancePerTick
      ensures !running ==>
        && health == 0 && distance == old(distance) && !timerRunning
        && highScore == (if score > old(highScore) then score else old(highScore))
      ensures old(score) <= score <= old(score) + 1
    {
      Move();
      var died := Strike();
    }

    /**
     * `actionPerformed`: animations and day/night first; then, only while
     * running, the rest of the tick.
     */
    method Tick()
      requires Valid() && timerRunning
      modifies this
      ensures Valid()
      ensures isDay == IsDay(old(score))
      ensures highScore >= old(highScore)
      ensures walk == if !Advance(old(hurt), HurtFrames, HurtDelay, HurtDuration).active
                         && !old(player).jumping && old(player).y >= FloorY
                      then Spin(old(walk), WalkFrames, WalkDelay) else old(walk)
      ensures !old(running) ==>
        && hurt == Advance(old(hurt), HurtFrames, HurtDelay, HurtDuration)
        && obsX == old(obsX) && obsY == old(obsY) && obsW == old(obsW) && obsH == old(obsH)
        && obsFloating == old(obsFloating) && speedTenths == old(speedTenths)
        && player == old(player) && health == old(health)
        && distance == old(distance) && score == old(score) && highScore == old(highScore)
        && !running && timerRunning && draws == old(draws)
      ensures old(running) ==> player == Fall(old(player))
      ensures old(running) && old(HitAhead()) ==>
        && health == old(health) - 1 && obsX == ScreenWidth * 10
        && var h := Advance(old(hurt), HurtFrames, HurtDelay, HurtDuration);
           hurt == if h.active then h else Triggered
      ensures old(running) && !old(HitAhead()) ==>
        && health == old(health) && running
        && hurt == Advance(old(hurt), HurtFrames, HurtDelay, HurtDuration)
        && ObstacleRect() == old(ScrolledObstacleRect())
      ensures old(running) && running ==> distance == old(distance) + DistancePerTick
      ensures old(running) && !running ==>
        && health == 0 && distance == old(distance) && !timerRunning
        && highScore == (if score > old(highScore) then score else old(highScore))
      ensures old(score) <= score <= old(score) + 1
    {
      AdvanceHurt();
      AdvanceWalk();
      isDay := IsDay(score);
      if running {
        RunStep();
      }
    }

    /** The space key: a jump is accepted only when not jumping and while the run is going on. */
    method KeyPressed(space: bool)
      modifies this`player
      ensures player == Jump(old(player), space, running)
    {
      if space && !player.jumping && running {
        player := player.(vy := JumpImpulse, jumping := true);
      }
    }

    /** The run's counters back to the start: full health, no distance, the timer on. */
    method ResetRun()
      modifies this`player, this`distance, this`score
      modifies this`health, this`running, this`timerRunning, this`speedTenths
      ensures player == Body(360, 0, false) && distance == 0 && score == 0
      ensures health == MaxHealth && running && timerRunning && speedTenths == 10
    {
      player := Body(360, 0, false);
      distance := 0;
      score := 0;
      health := MaxHealth;
      running := true;
      speedTenths := 10;
      timerRunning := true;
    }

    /** Both animations back to their first frame, the hurt animation off. */
    method ResetAnimations()
      modifies this`hurt
      modifies this`walk
      ensures hurt == Clip(false, 0, 0, 0) && walk == Cycle(0, 0)
    {
      hurt := Clip(false, 0, 0, 0);
      walk := Cycle(0, 0);
    }

    /**
     * `restartGame`: back to full health with a zero score, the player at
     * y = 360 at rest, a new obstacle, the animations cleared and the timer
     * running again.  The record and day/night flag are kept.
     */
    method RestartGame()
      requires Valid()
      modifies this
      ensures Valid()
      ensures player == Body(360, 0, false) && obsX == ScreenWidth * 10
      ensures distance == 0 && score == 0 && health == MaxHealth && running && timerRunning
      ensures hurt == Clip(false, 0, 0, 0) && walk == Cycle(0, 0) && speedTenths == 10
      ensures highScore == old(highScore) && isDay == old(isDay)
    {
      InitObstacle();
      ResetRun();
      ResetAnimations();
    }
  }
}
