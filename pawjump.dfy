/**
 * The extended variant of the runner (PawJump).  Besides the obstacle on the
 * platform it has floating and moving obstacles, three collectibles (fish,
 * meat, suplemen) that appear at fixed checkpoints of each 250 m phase, a
 * single-use shield, a fish quota per phase, attack, bird and death
 * animations, and levels.  `GamePanel` holds the state the Swing panel keeps
 * in its fields; `Tick` is one timer callback (`actionPerformed`).
 *
 * As in the simple variant, `Math.random()` is the stream `entropy` consumed
 * in program order, stopping the Swing timer is the flag `timerRunning`, the
 * high-score file is the `highScore` field, and the wall clock read for the
 * meat effect and the level-up message is the parameter `now`.
 */
module PawJump {

  import opened Geometry
  import opened Physics
  import opened Animation
  import opened Progression
  import opened ItemPlacement
  import opened Spawning

  const ScreenWidth := 1280
  /** Every obstacle of this variant is 80 x 80. */
  const ObstacleSize := 80
  /** Gap added when an obstacle leaves the screen (then overwritten by `InitObstacle`). */
  const ObstacleGap := 170
  const FloatGap := 180
  const MaxHealth := 4
  const ItemW := 48
  const ItemH := 48
  /** A collectible appears 10 px inside the right edge. */
  const ItemSpawnX := ScreenWidth - ItemW - 10
  /** Fish to collect in each phase (`fishNeeded`, always 15). */
  const FishNeeded := 15
  /** How long the meat effect lasts, in milliseconds. */
  const MeatEffectMs := 3000
  /** The bands items appear in: 60 px above the platform for meat and suplemen, 10 px for fish. */
  const MeatBand := ItemBand(ItemH, 60)
  const SuplemenBand := ItemBand(ItemH, 60)
  const FishBand := ItemBand(ItemH, 10)

  /**
   * The obstacle: left edge in tenths of a pixel (a double in the game),
   * size, top edge, kind flags, and for a moving one its direction (1 down,
   * -1 up) and range.
   */
  datatype Obstacle = Obstacle(x: int, w: int, h: int, y: int, floating: bool, moving: bool,
                               moveDir: int, moveMinY: int, moveMaxY: int)

  /** A collectible: left edge, top edge, and whether it is on screen. */
  datatype Item = Item(x: int, y: int, active: bool)

  /**
   * The suplemen: the item (`suplemenX`, `suplemenY`, `suplemenActive`), its
   * phase, how many appeared in the phase, and the shield it grants
   * (`suplemenEffectActive`, `suplemenEffectUsed`).
   */
  datatype Suplemen = Suplemen(item: Item, phase: int, appearCount: int, effectActive: bool, effectUsed: bool)

  /**
   * The meat: the item, its phase, how many appeared in the phase, and the
   * timed effect it grants (`meatEffectStartTime`, `meatEffectActive`).
   */
  datatype Meat = Meat(item: Item, phase: int, appearCount: int, effectStartTime: int, effectActive: bool)

  /** The fish: the item, how many were caught in the phase (`fishCollected`), and its phase. */
  datatype Fish = Fish(item: Item, collected: int, phase: int)

  function ItemRect(it: Item): Rect
  {
    Rect(it.x, it.y, ItemW, ItemH)
  }

  /** The vertical extent of an item when it is on screen. */
  function SpanOf(it: Item): Span
  {
    Span(it.y, ItemH)
  }

  predicate InBand(it: Item, b: Band)
  {
    it.active ==> b.lo <= it.y <= b.hi
  }

  /**
   * One tick of a collectible's scrolling: an item on screen moves `step`
   * px left and leaves the screen once its right edge passes the left edge;
   * an item off screen stays as it is.  The height never changes.
   */
  function Scroll(it: Item, step: int): (r: Item)
    ensures r.y == it.y
    ensures it.active ==> r.x == it.x - step
    ensures r.active <==> it.active && it.x - step + ItemW >= 0
    ensures !it.active ==> r == it
  {
    if !it.active then it
    else
      var x := it.x - step;
      Item(x, it.y, x + ItemW >= 0)
  }

  /** A shield that has been granted and not yet spent. */
  predicate Shielded(s: Suplemen)
  {
    s.effectActive && !s.effectUsed
  }

  class GamePanel {
    /** The death animation: `deathFrame`, `deathFrameTick`, `deathAnimTicks`. */
    var death: Fade
    var isDying: bool
    var suplemen: Suplemen
    var meat: Meat
    /** The attack animation: `isAttacking`, `attackFrame`, `attackFrameTick`, `attackAnimTicks`. */
    var attack: Clip
    var fish: Fish
    var levelUpRequired: bool
    var levelUpFailed: bool
    /** The obstacle: `obsX` .. `obsMoveMaxY`. */
    var obs: Obstacle
    /** The bird animation of a floating obstacle: `birdFrame`, `birdFrameTick`. */
    var bird: Cycle
    /** The hurt animation: `isHurting`, `hurtFrame`, `hurtFrameTick`, `hurtAnimTicks`. */
    var hurt: Clip
    /** The walk animation: `walkFrame`, `walkFrameTick`. */
    var walk: Cycle
    var isDay: bool
    var health: int
    /** The player: `playerY`, `playerVelY`, `jumping`. */
    var player: Body
    /** `speedMultiplier` in tenths. */
    var speedTenths: int
    var score: int
    /** `accumulatedDistance` in hundredths of a metre. */
    var distance: nat
    var currentLevel: int
    var levelUpMessage: bool
    var levelUpMessageTime: int
    var highScore: int
    var running: bool
    /** Whether the Swing timer still delivers ticks. */
    var timerRunning: bool
    /** The values `Math.random()` returns, in order, and how many were used. */
    const entropy: nat -> real
    var draws: nat

    function PlayerRect(): Rect
      reads this`player
    {
      Rect(PlayerX, player.y, PlayerW, PlayerH)
    }

    /** The obstacle's hitbox, its x truncated to whole pixels. */
    function ObstacleRect(): Rect
      reads this`obs
    {
      Rect(TruncTenths(obs.x), obs.y, obs.w, obs.h)
    }

    /** Which of the three obstacles is on screen. */
    function Kind(): Kind
      reads this`obs
    {
      if obs.floating then Floating else if obs.moving then Moving else Ground
    }

    /** A collectible is caught when it is on screen, the run goes on and the boxes meet. */
    predicate Catches(it: Item)
      reads this`running, this`player
    {
      it.active && running && Intersects(PlayerRect(), ItemRect(it))
    }

    /** The other items a fish must keep clear of: meat, then suplemen. */
    function FishOthers(): seq<Span>
      reads this`meat, this`suplemen
    {
      ActiveSpans(meat.item.active, SpanOf(meat.item), suplemen.item.active, SpanOf(suplemen.item))
    }

    /** The other items a meat must keep clear of: fish, then suplemen. */
    function MeatOthers(): seq<Span>
      reads this`fish, this`suplemen
    {
      ActiveSpans(fish.item.active, SpanOf(fish.item), suplemen.item.active, SpanOf(suplemen.item))
    }

    /** The other items a suplemen must keep clear of: fish, then meat. */
    function SuplemenOthers(): seq<Span>
      reads this`fish, this`meat
    {
      ActiveSpans(fish.item.active, SpanOf(fish.item), meat.item.active, SpanOf(meat.item))
    }

    ghost predicate EntropyValid()
    {
      Draws(entropy)
    }

    /** The box of the obstacle `InitObstacle` makes, at the current score, from the draw at `d`. */
    ghost function FreshObstacleRect(d: nat): Rect
      requires EntropyValid()
      reads this`score
    {
      var k := ObstacleKind(entropy(d), score);
      var y := if k == Floating then GroundY - ObstacleSize - FloatGap
               else if k == Moving then MoveStartY
               else GroundY - ObstacleSize;
      Rect(ScreenWidth, y, ObstacleSize, ObstacleSize)
    }

    /**
     * The obstacle's box once the running part of a tick has scrolled it:
     * moved left by 12 * multiplier, or, when wholly past the left edge, a new one.
     */
    ghost function ScrolledObstacleRect(): Rect
      requires EntropyValid()
      reads this`obs, this`score, this`draws
    {
      var moved := obs.x - BaseSpeed * SpeedTenths(score / PhaseLength + 1);
      if moved + obs.w * 10 < 0 then FreshObstacleRect(draws)
      else Rect(TruncTenths(moved), obs.y, obs.w, obs.h)
    }

    /** The running part's collision test fires: the player after gravity meets the scrolled obstacle. */
    ghost predicate HitAhead()
      requires EntropyValid()
      reads this`player, this`obs, this`score, this`draws
    {
      Intersects(Rect(PlayerX, Fall(player).y, PlayerW, PlayerH), ScrolledObstacleRect())
    }

    /**
     * The run is in exactly one of three modes: running with positive health
     * and the timer on, dying after the last hit, or failed for want of fish
     * with the timer stopped.  A level-up is pending only in the last mode.
     */
    ghost predicate SessionValid()
      reads this`health, this`running, this`isDying, this`levelUpFailed, this`levelUpRequired, this`timerRunning
    {
      && 0 <= health <= MaxHealth
      && (running ==> health > 0 && timerRunning && !isDying && !levelUpFailed)
      && (!running ==> health == 0 && (isDying != levelUpFailed))
      && (levelUpFailed ==> !timerRunning)
      && levelUpRequired == levelUpFailed
    }

    /** The animation counters are in range. */
    ghost predicate AnimationsValid()
      reads this`hurt, this`attack, this`walk, this`bird
    {
      && ClipValid(hurt, HurtFrames, HurtDelay, HurtDuration)
      && ClipValid(attack, AttackFrames, AttackDelay, AttackDuration)
      && CycleValid(walk, WalkFrames, WalkDelay)
      && CycleValid(bird, BirdFrames, BirdDelay)
    }

    /** The death animation is in its state `ticks` ticks after dying, and at rest when not dying. */
    ghost predicate DeathValid()
      reads this`death, this`isDying
    {
      && death.ticks >= 0
      && death == FadeAfter(death.ticks)
      && (!isDying ==> death == Dying)
    }

    /**
     * The obstacle is 80 x 80 and floats at y = 340, moves within [250, 520],
     * or stands on the platform at y = 520; its direction is always 1 or -1.
     */
    ghost predicate ObstacleValid()
      reads this`obs
    {
      && obs.w == ObstacleSize && obs.h == ObstacleSize
      && (obs.floating ==> !obs.moving && obs.y == GroundY - ObstacleSize - FloatGap)
      && (obs.moving ==> obs.moveMinY == MoveMinY && obs.moveMaxY == MoveMaxY && MoveMinY <= obs.y <= MoveMaxY)
      && (!obs.floating && !obs.moving ==> obs.y == GroundY - ObstacleSize)
      && (obs.moveDir == 1 || obs.moveDir == -1)
    }

    /** Score, level and multiplier all follow from the distance run. */
    ghost predicate ProgressValid()
      reads this`score, this`distance, this`currentLevel, this`speedTenths
    {
      && score == Score(distance)
      && currentLevel == Level(distance)
      && speedTenths == SpeedTenths(currentLevel)
    }

    /**
     * The suplemen phase is the one the score is in (or just ended); at most
     * one suplemen appeared in it, not before 125 m into it; one on screen is
     * in its band; and the shield is never both active and used.
     */
    ghost predicate SuplemenValid()
      reads this`suplemen, this`score
    {
      && 0 <= suplemen.phase
      && PhaseStart(suplemen.phase) <= score <= PhaseStart(suplemen.phase + 1)
      && 0 <= suplemen.appearCount <= 1
      && (suplemen.appearCount == 1 ==> score >= PhaseStart(suplemen.phase) + SuplemenAt)
      && (suplemen.item.active ==> suplemen.appearCount == 1)
      && InBand(suplemen.item, SuplemenBand)
      && (suplemen.effectActive ==> !suplemen.effectUsed)
    }

    /**
     * The meat phase is the one the score is in (or just ended); at most two
     * meats appeared in it, the first not before 50 m and the second not
     * before 200 m into it; one on screen is in its band.
     */
    ghost predicate MeatValid()
      reads this`meat, this`score
    {
      && 0 <= meat.phase
      && PhaseStart(meat.phase) <= score <= PhaseStart(meat.phase + 1)
      && 0 <= meat.appearCount <= MeatPerPhase
      && (meat.appearCount >= 1 ==> score >= MeatSpawnScore(meat.phase, 0))
      && (meat.appearCount >= 2 ==> score >= MeatSpawnScore(meat.phase, 1))
      && (meat.item.active ==> meat.appearCount >= 1)
      && InBand(meat.item, MeatBand)
    }

    /** The fish phase is the one the score is in (or just ended); a fish on screen is in its band. */
    ghost predicate FishValid()
      reads this`fish, this`score
    {
      && 0 <= fish.phase
      && PhaseStart(fish.phase) <= score <= PhaseStart(fish.phase + 1)
      && 0 <= fish.collected
      && InBand(fish.item, FishBand)
    }

    ghost predicate Valid()
      reads this
    {
      && EntropyValid()
      && SessionValid()
      && player.y <= FloorY
      && AnimationsValid()
      && DeathValid()
      && ObstacleValid()
      && ProgressValid()
      && SuplemenValid()
      && MeatValid()
      && FishValid()
    }

    /** After the phase rollovers of a tick, the score is strictly inside all three phases. */
    ghost predicate PhasesOpen()
      reads this`score, this`suplemen, this`meat, this`fish
    {
      && score < PhaseStart(suplemen.phase + 1)
      && score < PhaseStart(meat.phase + 1)
      && score < PhaseStart(fish.phase + 1)
    }

    /**
     * The panel as created: the first meat is not due yet, the first fish is
     * placed with the first draw (nothing else is on screen), and the first
     * obstacle stands on the platform since the score is 0.
     */
    constructor (entropy: nat -> real, storedHighScore: int)
      requires Draws(entropy)
      ensures Valid()
      ensures health == MaxHealth && running && timerRunning && !isDying
      ensures score == 0 && distance == 0 && currentLevel == 1 && speedTenths == 10
      ensures fish == Fish(Item(ItemSpawnX, Candidate(FishBand, entropy(0)), true), 0, 0)
      ensures !meat.item.active && !suplemen.item.active && !Shielded(suplemen)
      ensures Kind() == Ground && obs.x == ScreenWidth * 10 && draws == 2
      ensures player == Body(360, 0, false) && highScore == storedHighScore
    {
      this.entropy := entropy;
      death := Dying;
      isDying := false;
      suplemen := Suplemen(Item(0, 0, false), 0, 0, false, false);
      meat := Meat(Item(0, 0, false), 0, 0, 0, false);
      attack := Clip(false, 0, 0, 0);
      fish := Fish(Item(0, 0, false), 0, 0);
      levelUpRequired, levelUpFailed := false, false;
      bird := Cycle(0, 0);
      hurt := Clip(false, 0, 0, 0);
      walk := Cycle(0, 0);
      isDay := true;
      health := MaxHealth;
      player := Body(360, 0, false);
      obs := Obstacle(0, 0, 0, 0, false, false, 1, 0, 0);
      speedTenths := 10;
      score, distance := 0, 0;
      currentLevel := 1;
      levelUpMessage, levelUpMessageTime := false, 0;
      highScore := 0;
      running := true;
      timerRunning := false;
      draws := 0;
      new;
      Populate();
      highScore := storedHighScore;
      timerRunning := true;
    }

    /** The constructor's first calls: the meat, the fish and the first obstacle. */
    method Populate()
      requires EntropyValid() && score == 0 && !levelUpRequired && obs.moveDir == 1
      requires meat == Meat(Item(0, 0, false), 0, 0, 0, false)
      requires fish == Fish(Item(0, 0, false), 0, 0)
      requires !suplemen.item.active
      modifies this`meat, this`fish, this`obs, this`draws
      ensures MeatValid() && FishValid() && ObstacleValid()
      ensures meat == old(meat)
      ensures fish == Fish(Item(ItemSpawnX, Candidate(FishBand, entropy(old(draws))), true), 0, 0)
      ensures Kind() == Ground && obs.x == ScreenWidth * 10 && draws == old(draws) + 2
    {
      SpawnMeatIfNeeded();
      SpawnFishIfNeeded();
      PlaceAlone(FishBand, ItemH, entropy, old(draws));
      InitObstacle();
    }

    /** One value of `Math.random()`. */
    method Random() returns (r: real)
      requires EntropyValid()
      modifies this`draws
      ensures r == entropy(old(draws)) && 0.0 <= r < 1.0
      ensures draws == old(draws) + 1
    {
      r := entropy(draws);
      draws := draws + 1;
    }

    /**
     * `initObstacle`: nothing while a level-up is pending; otherwise a new
     * 80 x 80 obstacle at the right edge whose kind the first draw decides
     * (see `ObstacleKind`); a moving one starts at y = 385, inside its range,
     * in the direction a second draw decides.
     */
    method InitObstacle()
      requires EntropyValid() && (levelUpRequired ==> ObstacleValid())
      requires obs.moveDir == 1 || obs.moveDir == -1
      modifies this`obs, this`draws
      ensures ObstacleValid()
      ensures levelUpRequired ==> obs == old(obs) && draws == old(draws)
      ensures !levelUpRequired ==>
        && obs.x == ScreenWidth * 10
        && Kind() == ObstacleKind(entropy(old(draws)), score)
        && draws == old(draws) + (if Kind() == Moving then 2 else 1)
      ensures !levelUpRequired && Kind() == Moving ==>
        obs.y == MoveStartY && obs.moveDir == if entropy(old(draws) + 1) < 0.5 then 1 else -1
    {
      if levelUpRequired {
        return;
      }
      obs := obs.(x := ScreenWidth * 10);
      var floatChance := if score >= FloatFrom then FloatChance else 0.0;
      var movingChance := if score >= MovingFrom then MovingChance else 0.0;
      var r := Random();
      if r < floatChance {
        obs := obs.(floating := true, moving := false, w := ObstacleSize, h := ObstacleSize);
        obs := obs.(y := GroundY - obs.h - FloatGap);
      } else if r < floatChance + movingChance {
        obs := obs.(floating := false, moving := true, w := ObstacleSize, h := ObstacleSize);
        var minY, maxY := GroundY - 350, GroundY - 30;
        if minY < 0 {
          minY := 0;
        }
        if maxY > GroundY - obs.h {
          maxY := GroundY - obs.h;
        }
        obs := obs.(moveMinY := minY, moveMaxY := maxY, y := maxY - (maxY - minY) / 2);
        var d := Random();
        obs := obs.(moveDir := if d < 0.5 then 1 else -1);
      } else {
        obs := obs.(floating := false, moving := false, w := ObstacleSize, h := ObstacleSize);
        obs := obs.(y := GroundY - obs.h);
      }
    }

    /**
     * `spawnFishIfNeeded`: inside the fish phase a fish appears at the right
     * edge, at the height the separation search picks in the fish band;
     * outside it the fish is removed.
     */
    method SpawnFishIfNeeded()
      requires EntropyValid() && FishValid()
      modifies this`fish, this`draws
      ensures FishValid()
      ensures FishDue(score, fish.phase) ==>
        var p := Place(FishBand, ItemH, FishOthers(), entropy, old(draws));
        fish == old(fish).(item := Item(ItemSpawnX, p.y, true)) && draws == old(draws) + p.used
      ensures !FishDue(score, fish.phase) ==>
        fish == old(fish).(item := old(fish.item).(active := false)) && draws == old(draws)
    {
      if score >= fish.phase * PhaseLength && score < (fish.phase + 1) * PhaseLength {
        var y, used := FindSeparatedY(FishBand, ItemH, FishOthers(), entropy, draws);
        fish := fish.(item := Item(ItemSpawnX, y, true));
        draws := draws + used;
      } else {
        fish := fish.(item := fish.item.(active := false));
      }
    }

    /**
     * `spawnMeatIfNeeded`: the two slots are checked in order and the first
     * one that is due (see `MeatSlotDue`) places a meat at the right edge, at
     * the height the separation search picks in the meat band, and counts it.
     * By `MeatDueMeans` that happens exactly when the next slot is due.
     */
    method SpawnMeatIfNeeded()
      requires EntropyValid() && MeatValid()
      modifies this`meat, this`draws
      ensures MeatValid()
      ensures MeatNext(old(meat.appearCount), old(meat.item.active), score, meat.phase) ==>
        var p := Place(MeatBand, ItemH, MeatOthers(), entropy, old(draws));
        && meat == old(meat).(item := Item(ItemSpawnX, p.y, true), appearCount := old(meat.appearCount) + 1)
        && draws == old(draws) + p.used
      ensures !MeatNext(old(meat.appearCount), old(meat.item.active), score, meat.phase) ==>
        meat == old(meat) && draws == old(draws)
    {
      MeatDueMeans(meat.appearCount, meat.item.active, score, meat.phase);
      var i := 0;
      while i < MeatPerPhase
        invariant 0 <= i <= MeatPerPhase
        invariant unchanged(this`meat, this`draws)
        invariant forall j :: 0 <= j < i ==> !MeatSlotDue(j, meat.appearCount, meat.item.active, score, meat.phase)
      {
        if meat.appearCount == i && !meat.item.active && score >= MeatSpawnScore(meat.phase, i) && score < (meat.phase + 1) * PhaseLength {
          var y, used := FindSeparatedY(MeatBand, ItemH, MeatOthers(), entropy, draws);
          meat := meat.(item := Item(ItemSpawnX, y, true));
          draws := draws + used;
          meat := meat.(appearCount := meat.appearCount + 1);
          return;
        }
        i := i + 1;
      }
    }

    /**
     * `spawnSuplemenIfNeeded`: once it is due (see `SuplemenDue`) a suplemen
     * appears at the right edge, at the height the separation search picks
     * in its band, and is counted.
     */
    method SpawnSuplemenIfNeeded()
      requires EntropyValid() && SuplemenValid()
      modifies this`suplemen, this`draws
      ensures SuplemenValid()
      ensures SuplemenDue(old(suplemen.appearCount), old(suplemen.item.active), score, suplemen.phase) ==>
        var p := Place(SuplemenBand, ItemH, SuplemenOthers(), entropy, old(draws));
        && suplemen == old(suplemen).(item := Item(ItemSpawnX, p.y, true), appearCount := old(suplemen.appearCount) + 1)
        && draws == old(draws) + p.used
      ensures !SuplemenDue(old(suplemen.appearCount), old(suplemen.item.active), score, suplemen.phase) ==>
        suplemen == old(suplemen) && draws == old(draws)
    {
      var phaseStart := suplemen.phase * PhaseLength;
      var phaseEnd := (suplemen.phase + 1) * PhaseLength;
      if score >= phaseStart + SuplemenAt && score < phaseEnd && suplemen.appearCount < 1 && !suplemen.item.active {
        var y, used := FindSeparatedY(SuplemenBand, ItemH, SuplemenOthers(), entropy, draws);
        suplemen := suplemen.(item := Item(ItemSpawnX, y, true));
        draws := draws + used;
        suplemen := suplemen.(appearCount := suplemen.appearCount + 1);
      }
    }

    /**
     * A new suplemen phase: the count restarts, the suplemen leaves the
     * screen and the shield is cleared, used or not.
     */
    method RollSuplemenPhase()
      requires SuplemenValid()
      modifies this`suplemen
      ensures SuplemenValid() && score < PhaseStart(suplemen.phase + 1)
      ensures suplemen == if score >= PhaseStart(old(suplemen.phase) + 1)
        then Suplemen(old(suplemen.item).(active := false), old(suplemen.phase) + 1, 0, false, false)
        else old(suplemen)
    {
      if score >= (suplemen.phase + 1) * PhaseLength {
        suplemen := Suplemen(suplemen.item.(active := false), suplemen.phase + 1, 0, false, false);
      }
    }

    /** The suplemen scrolls with the obstacle's speed, truncated to whole pixels. */
    method ScrollSuplemen()
      requires SuplemenValid() && speedTenths >= 10
      modifies this`suplemen
      ensures SuplemenValid()
      ensures suplemen == old(suplemen).(item := Scroll(old(suplemen.item), ItemStep(speedTenths)))
    {
      if suplemen.item.active {
        suplemen := suplemen.(item := suplemen.item.(x := suplemen.item.x - ItemStep(speedTenths)));
        if suplemen.item.x + ItemW < 0 {
          suplemen := suplemen.(item := suplemen.item.(active := false));
        }
      }
    }

    /** Catching the suplemen grants the shield and plays the attack animation from its start. */
    method CollectSuplemen()
      requires SuplemenValid() && AnimationsValid()
      modifies this`suplemen, this`attack
      ensures SuplemenValid() && AnimationsValid()
      ensures Catches(old(suplemen.item)) ==>
        && suplemen == old(suplemen).(item := old(suplemen.item).(active := false), effectActive := true, effectUsed := false)
        && attack == Triggered
      ensures !Catches(old(suplemen.item)) ==> suplemen == old(suplemen) && attack == old(attack)
    {
      if suplemen.item.active && running {
        if Intersects(PlayerRect(), ItemRect(suplemen.item)) {
          suplemen := suplemen.(item := suplemen.item.(active := false), effectActive := true, effectUsed := false);
          attack := Triggered;
        }
      }
    }

    /** The suplemen's part of a tick: phase rollover, spawning, scrolling, catching. */
    method UpdateSuplemen()
      requires EntropyValid() && SuplemenValid() && AnimationsValid() && speedTenths >= 10
      modifies this`suplemen, this`draws, this`attack
      ensures SuplemenValid() && AnimationsValid() && score < PhaseStart(suplemen.phase + 1)
      ensures score < PhaseStart(old(suplemen.phase) + 1) ==>
        suplemen.phase == old(suplemen.phase) && (Shielded(old(suplemen)) ==> Shielded(suplemen))
      ensures score >= PhaseStart(old(suplemen.phase) + 1) ==>
        suplemen.phase == old(suplemen.phase) + 1 && !suplemen.effectUsed
    {
      RollSuplemenPhase();
      SpawnSuplemenIfNeeded();
      ScrollSuplemen();
      CollectSuplemen();
    }

    /** The meat effect ends once more than 3 s have passed since it started. */
    method ExpireMeatEffect(now: int)
      modifies this`meat
      ensures meat == old(meat).(effectActive := old(meat.effectActive) && now - old(meat.effectStartTime) <= MeatEffectMs)
    {
      if meat.effectActive && now - meat.effectStartTime > MeatEffectMs {
        meat := meat.(effectActive := false);
      }
    }

    /** A new meat phase: the count restarts and the meat leaves the screen; the effect is kept. */
    method RollMeatPhase()
      requires MeatValid()
      modifies this`meat
      ensures MeatValid() && score < PhaseStart(meat.phase + 1)
      ensures meat == if score >= PhaseStart(old(meat.phase) + 1)
        then old(meat).(item := old(meat.item).(active := false), phase := old(meat.phase) + 1, appearCount := 0)
        else old(meat)
    {
      if score >= (meat.phase + 1) * PhaseLength {
        meat := meat.(phase := meat.phase + 1, appearCount := 0);
        meat := meat.(item := meat.item.(active := false));
      }
    }

    /** The meat scrolls like the suplemen. */
    method ScrollMeat()
      requires MeatValid() && speedTenths >= 10
      modifies this`meat
      ensures MeatValid()
      ensures meat == old(meat).(item := Scroll(old(meat.item), ItemStep(speedTenths)))
    {
      if meat.item.active {
        meat := meat.(item := meat.item.(x := meat.item.x - ItemStep(speedTenths)));
        if meat.item.x + ItemW < 0 {
          meat := meat.(item := meat.item.(active := false));
        }
      }
    }

    /** Catching the meat starts its effect at `now` and plays the attack animation from its start. */
    method CollectMeat(now: int)
      requires MeatValid() && AnimationsValid()
      modifies this`meat, this`attack
      ensures MeatValid() && AnimationsValid()
      ensures Catches(old(meat.item)) ==>
        && meat == old(meat).(item := old(meat.item).(active := false), effectActive := true, effectStartTime := now)
        && attack == Triggered
      ensures !Catches(old(meat.item)) ==> meat == old(meat) && attack == old(attack)
    {
      if meat.item.active && running {
        if Intersects(PlayerRect(), ItemRect(meat.item)) {
          meat := meat.(item := meat.item.(active := false), effectActive := true, effectStartTime := now);
          attack := Triggered;
        }
      }
    }

    /** The meat's part of a tick: effect expiry, phase rollover, spawning, scrolling, catching. */
    method UpdateMeat(now: int)
      requires EntropyValid() && MeatValid() && AnimationsValid() && speedTenths >= 10
      modifies this`meat, this`draws, this`attack
      ensures MeatValid() && AnimationsValid() && score < PhaseStart(meat.phase + 1)
      ensures score < PhaseStart(old(meat.phase) + 1) ==>
        meat.phase == old(meat.phase) && old(meat.appearCount) <= meat.appearCount <= old(meat.appearCount) + 1
      ensures score >= PhaseStart(old(meat.phase) + 1) ==>
        meat.phase == old(meat.phase) + 1 && meat.appearCount <= 1
    {
      ExpireMeatEffect(now);
      RollMeatPhase();
      SpawnMeatIfNeeded();
      ScrollMeat();
      CollectMeat(now);
    }

    /** The attack animation's tick. */
    method AdvanceAttack()
      requires AnimationsValid()
      modifies this`attack
      ensures AnimationsValid()
      ensures attack == Advance(old(attack), AttackFrames, AttackDelay, AttackDuration)
    {
      if attack.active {
        attack := attack.(frameTick := attack.frameTick + 1);
        if attack.frameTick >= AttackDelay {
          attack := attack.(frame := (attack.frame + 1) % AttackFrames, frameTick := 0);
        }
        attack := attack.(ticks := attack.ticks + 1);
        if attack.ticks >= AttackDuration {
          attack := attack.(active := false, ticks := 0, frame := 0);
        }
      }
    }

    /** A met quota: the next fish phase starts with no fish caught and a new fish placed. */
    method NextFishPhase()
      requires EntropyValid() && FishValid() && score >= PhaseStart(fish.phase + 1)
      modifies this`fish, this`draws
      ensures FishValid()
      ensures var p := Place(FishBand, ItemH, FishOthers(), entropy, old(draws));
        && fish == Fish(Item(ItemSpawnX, p.y, true), 0, old(fish.phase) + 1)
        && draws == old(draws) + p.used
    {
      fish := Fish(fish.item.(active := false), 0, fish.phase + 1);
      SpawnFishIfNeeded();
    }

    /**
     * The fish quota at the end of a fish phase: with fewer than 15 fish the
     * run fails (health 0, the run and the timer stop, no level-up message);
     * otherwise the next phase starts with no fish caught and a new fish.
     * Reports whether the run failed.
     */
    method CheckFishQuota() returns (failed: bool)
      requires EntropyValid() && FishValid() && SessionValid() && running
      modifies this`levelUpRequired, this`levelUpFailed, this`health, this`running
      modifies this`levelUpMessage, this`timerRunning, this`fish, this`draws
      ensures FishValid() && SessionValid()
      ensures failed <==> score >= PhaseStart(old(fish.phase) + 1) && old(fish.collected) < FishNeeded
      ensures failed ==> health == 0 && !running && levelUpFailed && !levelUpMessage && !timerRunning && fish == old(fish)
      ensures !failed ==>
        && running && health == old(health) && levelUpMessage == old(levelUpMessage)
        && score < PhaseStart(fish.phase + 1)
      ensures !failed && score >= PhaseStart(old(fish.phase) + 1) ==>
        var p := Place(FishBand, ItemH, FishOthers(), entropy, old(draws));
        && fish == Fish(Item(ItemSpawnX, p.y, true), 0, old(fish.phase) + 1)
        && draws == old(draws) + p.used
      ensures score < PhaseStart(old(fish.phase) + 1) ==> fish == old(fish) && draws == old(draws)
    {
      failed := false;
      if score >= (fish.phase + 1) * PhaseLength {
        levelUpRequired := true;
        if fish.collected < FishNeeded {
          levelUpFailed := true;
          health := 0;
          running := false;
          levelUpMessage := false;
          timerRunning := false;
          failed := true;
        } else {
          levelUpRequired := false;
          NextFishPhase();
        }
      }
    }

    /**
     * The fish scrolls; once off the left edge it is spawned again, at the
     * right edge since its phase is still open.
     */
    method ScrollFish()
      requires EntropyValid() && FishValid() && score < PhaseStart(fish.phase + 1) && speedTenths >= 10
      modifies this`fish, this`draws
      ensures FishValid() && fish.phase == old(fish.phase) && fish.collected == old(fish.collected)
      ensures var moved := Scroll(old(fish.item), ItemStep(speedTenths));
        if old(fish.item.active) && !moved.active then
          var p := Place(FishBand, ItemH, FishOthers(), entropy, old(draws));
          fish.item == Item(ItemSpawnX, p.y, true) && draws == old(draws) + p.used
        else fish.item == moved && draws == old(draws)
    {
      if fish.item.active {
        fish := fish.(item := fish.item.(x := fish.item.x - ItemStep(speedTenths)));
        if fish.item.x + ItemW < 0 {
          SpawnFishIfNeeded();
        }
      }
    }

    /** Catching a fish counts it, spawns the next one and plays the attack animation from its start. */
    method CollectFish()
      requires EntropyValid() && FishValid() && score < PhaseStart(fish.phase + 1) && AnimationsValid()
      modifies this`fish, this`draws, this`attack
      ensures FishValid() && AnimationsValid() && fish.phase == old(fish.phase)
      ensures Catches(old(fish.item)) ==>
        var p := Place(FishBand, ItemH, FishOthers(), entropy, old(draws));
        && fish.collected == old(fish.collected) + 1 && fish.item == Item(ItemSpawnX, p.y, true)
        && draws == old(draws) + p.used && attack == Triggered
      ensures !Catches(old(fish.item)) ==> fish == old(fish) && draws == old(draws) && attack == old(attack)
    {
      if fish.item.active && running {
        if Intersects(PlayerRect(), ItemRect(fish.item)) {
          fish := fish.(collected := fish.collected + 1);
          SpawnFishIfNeeded();
          attack := Triggered;
        }
      }
    }

    /** The fish's part of a tick after the quota check: scrolling and catching. */
    method UpdateFish()
      requires EntropyValid() && FishValid() && score < PhaseStart(fish.phase + 1) && AnimationsValid()
      requires speedTenths >= 10
      modifies this`fish, this`draws, this`attack
      ensures FishValid() && AnimationsValid() && fish.phase == old(fish.phase)
      ensures old(fish.collected) <= fish.collected <= old(fish.collected) + 1
    {
      ScrollFish();
      CollectFish();
    }

    /** A moving obstacle bobs between its bounds (see `Bounce`); the others stay where they are. */
    method MoveObstacleVertically()
      requires ObstacleValid()
      modifies this`obs
      ensures ObstacleValid()
      ensures old(obs.moving) ==>
        var b := Bounce(Bob(old(obs.y), old(obs.moveDir)));
        obs == old(obs).(y := b.y, moveDir := b.dir)
      ensures !old(obs.moving) ==> obs == old(obs)
    {
      if obs.moving {
        obs := obs.(y := obs.y + obs.moveDir * MoveSpeed);
        if obs.y <= obs.moveMinY {
          obs := obs.(y := obs.moveMinY, moveDir := 1);
        } else if obs.y >= obs.moveMaxY {
          obs := obs.(y := obs.moveMaxY, moveDir := -1);
        }
      }
    }

    /** The bird animation plays only while the obstacle floats. */
    method AdvanceBird()
      requires AnimationsValid()
      modifies this`bird
      ensures AnimationsValid()
      ensures bird == if obs.floating then Spin(old(bird), BirdFrames, BirdDelay) else old(bird)
    {
      if obs.floating {
        bird := bird.(frameTick := bird.frameTick + 1);
        if bird.frameTick >= BirdDelay {
          bird := Cycle((bird.frame + 1) % BirdFrames, 0);
        }
      }
    }

    /** The hurt animation's tick. */
    method AdvanceHurt()
      requires AnimationsValid()
      modifies this`hurt
      ensures AnimationsValid()
      ensures hurt == Advance(old(hurt), HurtFrames, HurtDelay, HurtDuration)
    {
      if hurt.active {
        hurt := hurt.(frameTick := hurt.frameTick + 1);
        if hurt.frameTick >= HurtDelay {
          hurt := hurt.(frame := (hurt.frame + 1) % HurtFrames, frameTick := 0);
        }
        hurt := hurt.(ticks := hurt.ticks + 1);
        if hurt.ticks >= HurtDuration {
          hurt := hurt.(active := false, ticks := 0, frame := 0);
        }
      }
    }

    /** The walk animation advances only on the platform, not jumping and not hurting. */
    method AdvanceWalk()
      requires AnimationsValid()
      modifies this`walk
      ensures AnimationsValid()
      ensures walk == if !hurt.active && !player.jumping && player.y >= FloorY
                        then Spin(old(walk), WalkFrames, WalkDelay) else old(walk)
    {
      if !hurt.active && !player.jumping && player.y >= FloorY {
        walk := walk.(frameTick := walk.frameTick + 1);
        if walk.frameTick >= WalkDelay {
          walk := Cycle((walk.frame + 1) % WalkFrames, 0);
        }
      }
    }

    /** The obstacle's bobbing, the bird, hurt and walk animations, and day or night. */
    method Animate()
      requires ObstacleValid() && AnimationsValid()
      modifies this`obs, this`bird, this`hurt, this`walk, this`isDay
      ensures ObstacleValid() && AnimationsValid() && isDay == IsDay(score)
      ensures old(obs.moving) ==>
        var b := Bounce(Bob(old(obs.y), old(obs.moveDir)));
        obs == old(obs).(y := b.y, moveDir := b.dir)
      ensures !old(obs.moving) ==> obs == old(obs)
      ensures bird == if obs.floating then Spin(old(bird), BirdFrames, BirdDelay) else old(bird)
      ensures hurt == Advance(old(hurt), HurtFrames, HurtDelay, HurtDuration)
      ensures walk == if !hurt.active && !player.jumping && player.y >= FloorY
                        then Spin(old(walk), WalkFrames, WalkDelay) else old(walk)
    {
      MoveObstacleVertically();
      AdvanceBird();
      AdvanceHurt();
      AdvanceWalk();
      isDay := IsDay(score);
    }

    /**
     * The obstacle scrolls left at 12 * multiplier px, the multiplier read
     * off the score; once wholly off the left edge a new one is made, and it
     * starts at x = 1280: `InitObstacle` overwrites the 1280 + 170 just added.
     */
    method ScrollObstacle()
      requires EntropyValid() && ObstacleValid() && !levelUpRequired
      modifies this`speedTenths, this`obs, this`draws
      ensures ObstacleValid()
      ensures speedTenths == SpeedTenths(score / PhaseLength + 1)
      ensures var moved := old(obs.x) - BaseSpeed * speedTenths;
        if moved + old(obs.w) * 10 < 0 then
          obs.x == ScreenWidth * 10 && Kind() == ObstacleKind(entropy(old(draws)), score) && draws > old(draws)
        else obs == old(obs).(x := moved) && draws == old(draws)
      ensures ObstacleRect() == old(ScrolledObstacleRect())
    {
      speedTenths := 10 + 2 * (score / PhaseLength);
      obs := obs.(x := obs.x - BaseSpeed * speedTenths);
      if obs.x + obs.w * 10 < 0 {
        obs := obs.(x := obs.x + (ScreenWidth + ObstacleGap) * 10);
        InitObstacle();
      }
    }

    /** Gravity for one tick. */
    method ApplyGravity()
      modifies this`player
      ensures player == Fall(old(player))
    {
      player := player.(vy := player.vy + Gravity);
      player := player.(y := player.y + player.vy);
      if player.y >= FloorY {
        player := Body(FloorY, 0, false);
      }
    }

    /** The shield absorbs a hit: it is spent and a new obstacle is made. */
    method UseShield()
      requires EntropyValid() && ObstacleValid() && SuplemenValid() && !levelUpRequired
      modifies this`suplemen, this`obs, this`draws
      ensures ObstacleValid() && SuplemenValid()
      ensures suplemen == old(suplemen).(effectActive := false, effectUsed := true)
      ensures obs.x == ScreenWidth * 10 && Kind() == ObstacleKind(entropy(old(draws)), score) && draws > old(draws)
    {
      suplemen := suplemen.(effectUsed := true, effectActive := false);
      InitObstacle();
    }

    /** A hit starts the hurt animation, unless it is already playing. */
    method StartHurt()
      requires AnimationsValid()
      modifies this`hurt
      ensures AnimationsValid()
      ensures hurt == if old(hurt.active) then old(hurt) else Triggered
    {
      if !hurt.active {
        hurt := Triggered;
      }
    }

    /**
     * The damage of a hit: a positive health drops by exactly one and a new
     * obstacle is made; once health is zero the run stops, the record is
     * raised to the score if beaten, and the death animation starts.
     */
    method TakeHit() returns (died: bool)
      requires EntropyValid() && ObstacleValid() && DeathValid() && !levelUpRequired
      requires 0 <= health <= MaxHealth && !isDying
      modifies this`health, this`obs, this`draws, this`running, this`highScore, this`isDying, this`death
      ensures ObstacleValid() && DeathValid()
      ensures health == if old(health) > 0 then old(health) - 1 else 0
      ensures old(health) > 0 ==>
        obs.x == ScreenWidth * 10 && Kind() == ObstacleKind(entropy(old(draws)), score) && draws > old(draws)
      ensures old(health) == 0 ==> obs == old(obs) && draws == old(draws)
      ensures died <==> health == 0
      ensures died ==> !running && isDying && death == Dying && highScore == Max(old(highScore), score)
      ensures !died ==> running == old(running) && !isDying && death == old(death) && highScore == old(highScore)
    {
      died := false;
      if health > 0 {
        health := health - 1;
        InitObstacle();
      }
      if health <= 0 && !isDying {
        running := false;
        if score > highScore {
          highScore := score;
        }
        health := 0;
        isDying := true;
        death := Dying;
        died := true;
      }
    }

    /**
     * The collision test: when the player's box meets the obstacle's, an
     * unspent shield absorbs the hit; otherwise the hurt animation starts
     * and the hit is taken.  Reports whether the run ended.
     */
    method ResolveHit() returns (died: bool)
      requires EntropyValid() && SessionValid() && ObstacleValid() && AnimationsValid() && DeathValid()
      requires SuplemenValid() && running
      modifies this`suplemen, this`obs, this`draws, this`hurt
      modifies this`health, this`running, this`highScore, this`isDying, this`death
      ensures SessionValid() && ObstacleValid() && AnimationsValid() && DeathValid() && SuplemenValid()
      ensures died <==> !running
      ensures !Intersects(PlayerRect(), old(ObstacleRect())) ==>
        && !died && health == old(health) && obs == old(obs) && draws == old(draws)
        && suplemen == old(suplemen) && hurt == old(hurt)
      ensures Intersects(PlayerRect(), old(ObstacleRect())) ==>
        obs.x == ScreenWidth * 10 && Kind() == ObstacleKind(entropy(old(draws)), score) && draws > old(draws)
      ensures Intersects(PlayerRect(), old(ObstacleRect())) && Shielded(old(suplemen)) ==>
        && !died && health == old(health) && hurt == old(hurt)
        && suplemen == old(suplemen).(effectActive := false, effectUsed := true)
      ensures Intersects(PlayerRect(), old(ObstacleRect())) && !Shielded(old(suplemen)) ==>
        && health == old(health) - 1 && suplemen == old(suplemen)
        && hurt == (if old(hurt.active) then old(hurt) else Triggered)
      ensures died ==> health == 0 && isDying && death == Dying && highScore == Max(old(highScore), score)
      ensures !died ==> highScore == old(highScore) && !isDying && death == old(death)
    {
      died := false;
      if Intersects(PlayerRect(), ObstacleRect()) {
        if suplemen.effectActive && !suplemen.effectUsed {
          UseShield();
        } else {
          StartHurt();
          died := TakeHit();
        }
      }
    }

    /**
     * 0.12 m more; the score is the whole metres, and the level is read off
     * the distance: when it goes up the level-up message is shown from `now`.
     * The multiplier follows the level.
     */
    method AdvanceDistance(now: int)
      requires ProgressValid() && PhasesOpen() && SuplemenValid() && MeatValid() && FishValid()
      modifies this`distance, this`score, this`currentLevel, this`levelUpMessage, this`levelUpMessageTime, this`speedTenths
      ensures ProgressValid() && SuplemenValid() && MeatValid() && FishValid()
      ensures distance == old(distance) + DistancePerTick
      ensures old(score) <= score <= old(score) + 1
      ensures currentLevel == old(currentLevel) + 1 <==> distance % (PhaseLength * 100) < DistancePerTick
      ensures currentLevel > old(currentLevel) ==> levelUpMessage && levelUpMessageTime == now
      ensures currentLevel == old(currentLevel) ==>
        levelUpMessage == old(levelUpMessage) && levelUpMessageTime == old(levelUpMessageTime)
    {
      TickProgress(distance);
      distance := distance + DistancePerTick;
      score := Score(distance);
      var newLevel := Level(distance);
      if newLevel > currentLevel {
        currentLevel := newLevel;
        levelUpMessage := true;
        levelUpMessageTime := now;
      }
      speedTenths := SpeedTenths(currentLevel);
    }

    /**
     * The obstacle scrolls (a new one is made once it is off screen) and
     * gravity applies.
     */
    method Move()
      requires EntropyValid() && ObstacleValid() && !levelUpRequired
      modifies this`speedTenths, this`obs, this`draws, this`player
      ensures ObstacleValid() && player == Fall(old(player))
      ensures speedTenths == SpeedTenths(score / PhaseLength + 1)
      ensures ObstacleRect() == old(ScrolledObstacleRect())
    {
      ScrollObstacle();
      ApplyGravity();
    }

    /**
     * A hit is resolved and, unless it ended the run, the distance grows.
     * Reports whether the run ended.
     */
    method Strike(now: int) returns (died: bool)
      requires Valid() && running && PhasesOpen()
      modifies this`obs, this`draws, this`suplemen, this`hurt
      modifies this`health, this`running, this`highScore, this`isDying, this`death
      modifies this`distance, this`score, this`currentLevel, this`levelUpMessage, this`levelUpMessageTime, this`speedTenths
      ensures Valid()
      ensures died <==> !running
      ensures Intersects(old(PlayerRect()), old(ObstacleRect())) ==>
        obs.x == ScreenWidth * 10 && Kind() == ObstacleKind(entropy(old(draws)), old(score))
      ensures Intersects(old(PlayerRect()), old(ObstacleRect())) && Shielded(old(suplemen)) ==>
        && !died && health == old(health) && hurt == old(hurt)
        && suplemen == old(suplemen).(effectActive := false, effectUsed := true)
      ensures Intersects(old(PlayerRect()), old(ObstacleRect())) && !Shielded(old(suplemen)) ==>
        && health == old(health) - 1 && suplemen == old(suplemen)
        && hurt == (if old(hurt.active) then old(hurt) else Triggered)
      ensures !Intersects(old(PlayerRect()), old(ObstacleRect())) ==>
        && !died && health == old(health) && obs == old(obs) && suplemen == old(suplemen) && hurt == old(hurt)
      ensures !died ==> distance == old(distance) + DistancePerTick && highScore == old(highScore)
      ensures died ==> isDying && health == 0 && distance == old(distance) && highScore == Max(old(highScore), score)
      ensures old(score) <= score <= old(score) + 1
    {
      died := Collide();
      if !died {
        Progress(now);
      }
    }

    /** `ResolveHit`, with the whole invariant. */
    method Collide() returns (died: bool)
      requires Valid() && running && PhasesOpen()
      modifies this`obs, this`draws, this`suplemen, this`hurt
      modifies this`health, this`running, this`highScore, this`isDying, this`death
      ensures Valid() && PhasesOpen()
      ensures died <==> !running
      ensures Intersects(old(PlayerRect()), old(ObstacleRect())) ==>
        obs.x == ScreenWidth * 10 && Kind() == ObstacleKind(entropy(old(draws)), old(score))
      ensures Intersects(old(PlayerRect()), old(ObstacleRect())) && Shielded(old(suplemen)) ==>
        && !died && health == old(health) && hurt == old(hurt)
        && suplemen == old(suplemen).(effectActive := false, effectUsed := true)
      ensures Intersects(old(PlayerRect()), old(ObstacleRect())) && !Shielded(old(suplemen)) ==>
        && health == old(health) - 1 && suplemen == old(suplemen)
        && hurt == (if old(hurt.active) then old(hurt) else Triggered)
      ensures !Intersects(old(PlayerRect()), old(ObstacleRect())) ==>
        && !died && health == old(health) && obs == old(obs) && suplemen == old(suplemen) && hurt == old(hurt)
      ensures !died ==> highScore == old(highScore)
      ensures died ==> isDying && health == 0 && highScore == Max(old(highScore), score)
    {
      died := ResolveHit();
    }

    /** `AdvanceDistance`, with the whole invariant. */
    method Progress(now: int)
      requires Valid() && PhasesOpen()
      modifies this`distance, this`score, this`currentLevel, this`levelUpMessage, this`levelUpMessageTime, this`speedTenths
      ensures Valid()
      ensures distance == old(distance) + DistancePerTick
      ensures old(score) <= score <= old(score) + 1
    {
      AdvanceDistance(now);
    }

    /**
     * The running part of a tick: the obstacle scrolls, gravity applies, a
     * hit is resolved and, unless the hit ended the run, the distance grows.
     */
    method RunStep(now: int)
      requires Valid() && running && PhasesOpen()
      modifies this`speedTenths, this`obs, this`draws, this`player, this`suplemen, this`hurt
      modifies this`health, this`running, this`highScore, this`isDying, this`death
      modifies this`distance, this`score, this`currentLevel, this`levelUpMessage, this`levelUpMessageTime
      ensures Valid()
      ensures highScore >= old(highScore)
      ensures health == old(health) || health == old(health) - 1
      ensures player == Fall(old(player))
      ensures old(HitAhead()) ==> obs.x == ScreenWidth * 10
      ensures old(HitAhead()) && Shielded(old(suplemen)) ==>
        && running && health == old(health) && hurt == old(hurt)
        && suplemen == old(suplemen).(effectActive := false, effectUsed := true)
      ensures old(HitAhead()) && !Shielded(old(suplemen)) ==>
        && health == old(health) - 1 && suplemen == old(suplemen)
        && hurt == (if old(hurt.active) then old(hurt) else Triggered)
      ensures !old(HitAhead()) ==>
        && running && health == old(health) && suplemen == old(suplemen) && hurt == old(hurt)
        && ObstacleRect() == old(ScrolledObstacleRect())
      ensures running ==> distance == old(distance) + DistancePerTick
      ensures !running ==>
        && isDying && health == 0 && distance == old(distance)
        && highScore == Max(old(highScore), score)
      ensures old(score) <= score <= old(score) + 1
    {
      ScoreLevelAgree(distance);
      Move();
      var died := Strike(now);
    }

    /** The suplemen, the meat and the attack animation. */
    method Collectibles(now: int)
      requires EntropyValid() && SuplemenValid() && MeatValid() && AnimationsValid() && speedTenths >= 10
      modifies this`suplemen, this`meat, this`attack, this`draws
      ensures SuplemenValid() && MeatValid() && AnimationsValid()
      ensures score < PhaseStart(suplemen.phase + 1) && score < PhaseStart(meat.phase + 1)
    {
      UpdateSuplemen();
      UpdateMeat(now);
      AdvanceAttack();
    }

    /**
     * The part of a tick before the fish quota check, and the check itself:
     * the suplemen, the meat and the attack animation, then the quota.
     */
    method Upkeep(now: int) returns (failed: bool)
      requires Valid() && running
      modifies this`suplemen, this`meat, this`attack, this`draws, this`fish
      modifies this`levelUpRequired, this`levelUpFailed, this`health, this`running, this`levelUpMessage, this`timerRunning
      ensures Valid()
      ensures failed <==> score >= PhaseStart(old(fish.phase) + 1) && old(fish.collected) < FishNeeded
      ensures failed ==> !running && health == 0 && levelUpFailed
      ensures !failed ==> running && health == old(health) && PhasesOpen()
    {
      Collectibles(now);
      failed := CheckFishQuota();
    }

    /** The fish, the obstacle's bobbing and the animations. */
    method Refresh()
      requires EntropyValid() && FishValid() && score < PhaseStart(fish.phase + 1) && AnimationsValid()
      requires ObstacleValid() && speedTenths >= 10
      modifies this`fish, this`draws, this`attack, this`obs, this`bird, this`hurt, this`walk, this`isDay
      ensures FishValid() && AnimationsValid() && ObstacleValid() && fish.phase == old(fish.phase)
    {
      UpdateFish();
      Animate();
    }

    /** What follows a met quota: the fish, the animations and, while running, the running part. */
    method Proceed(now: int)
      requires Valid() && running && PhasesOpen()
      modifies this
      ensures Valid()
      ensures highScore >= old(highScore)
      ensures old(score) <= score <= old(score) + 1
      ensures levelUpFailed == old(levelUpFailed)
      ensures player == Fall(old(player)) && (health == old(health) || health == old(health) - 1)
      ensures running ==> distance == old(distance) + DistancePerTick
    {
      Refresh();
      if running {
        RunStep(now);
      }
    }

    /**
     * A tick of a run that is going on: the collectibles and the fish quota;
     * if the quota is met, the fish, the animations and, while running, the
     * obstacle, gravity, collisions and distance.
     */
    method Live(now: int)
      requires Valid() && running
      modifies this
      ensures Valid()
      ensures highScore >= old(highScore)
      ensures old(score) <= score <= old(score) + 1
      ensures levelUpFailed <==> old(score) >= PhaseStart(old(fish.phase) + 1) && old(fish.collected) < FishNeeded
      ensures levelUpFailed ==> health == 0 && !timerRunning
      ensures !levelUpFailed ==> player == Fall(old(player)) && (health == old(health) || health == old(health) - 1)
      ensures running ==> distance == old(distance) + DistancePerTick
    {
      var failed := Upkeep(now);
      if failed {
        return;
      }
      Proceed(now);
    }

    /**
     * One tick of the death animation (see `FadeStep`); after 32 ticks the
     * timer stops.
     */
    method AdvanceDeath()
      requires DeathValid() && isDying
      modifies this`death, this`timerRunning
      ensures DeathValid()
      ensures death == FadeAfter(old(death.ticks) + 1)
      ensures timerRunning == (old(timerRunning) && death.ticks < DeathDuration)
    {
      FadeStepAfter(death.ticks);
      death := death.(frameTick := death.frameTick + 1);
      if death.frameTick >= DeathDelay {
        death := death.(frame := death.frame + 1, frameTick := 0);
        if death.frame >= DeathFrames {
          death := death.(frame := DeathFrames - 1);
        }
      }
      death := death.(ticks := death.ticks + 1);
      if death.ticks >= DeathDuration {
        timerRunning := false;
      }
    }

    /**
     * `actionPerformed`: while dying only the death animation advances;
     * otherwise a live tick.  Health never drops by more than one in a tick
     * except when the fish quota is missed, and it fails exactly then.
     */
    method Tick(now: int)
      requires Valid() && timerRunning
      modifies this
      ensures Valid()
      ensures highScore >= old(highScore)
      ensures old(score) <= score <= old(score) + 1
      ensures old(isDying) ==>
        && isDying && death == FadeAfter(old(death.ticks) + 1)
        && (timerRunning <==> death.ticks < DeathDuration)
        && score == old(score) && distance == old(distance) && health == old(health) && player == old(player)
        && obs == old(obs) && fish == old(fish) && meat == old(meat) && suplemen == old(suplemen)
        && hurt == old(hurt) && walk == old(walk) && attack == old(attack) && bird == old(bird)
        && highScore == old(highScore) && running == old(running) && draws == old(draws)
        && isDay == old(isDay) && levelUpMessage == old(levelUpMessage)
        && levelUpMessageTime == old(levelUpMessageTime) && currentLevel == old(currentLevel)
        && speedTenths == old(speedTenths) && levelUpRequired == old(levelUpRequired)
        && levelUpFailed == old(levelUpFailed)
      ensures !old(isDying) ==>
        (levelUpFailed <==> old(score) >= PhaseStart(old(fish.phase) + 1) && old(fish.collected) < FishNeeded)
      ensures !old(isDying) && !levelUpFailed ==>
        player == Fall(old(player)) && (health == old(health) || health == old(health) - 1)
      ensures !old(isDying) && running ==> distance == old(distance) + DistancePerTick
    {
      if isDying {
        AdvanceDeath();
        return;
      }
      Live(now);
    }

    /** The space key: a jump is accepted only when not jumping and while the run is going on. */
    method KeyPressed(space: bool)
      modifies this`player
      ensures player == Jump(old(player), space, running)
    {
      if space && !player.jumping && running {
        player := player.(vy := JumpImpulse, jumping := true);
      }
    }

    /**
     * The first part of `restartGame`: the death animation back to rest;
     * the fish, meat and suplemen back to their first phase, none on screen,
     * no fish caught, no effect or shield, no pending level-up; the player
     * standing still at y = 360.
     */
    method ClearRun()
      modifies this`isDying, this`death, this`fish, this`levelUpRequired, this`levelUpFailed
      modifies this`meat, this`suplemen, this`player
      ensures !isDying && death == Dying && !levelUpRequired && !levelUpFailed
      ensures fish == Fish(old(fish.item).(active := false), 0, 0)
      ensures meat == Meat(old(meat.item).(active := false), 0, 0, 0, false)
      ensures suplemen == Suplemen(old(suplemen.item).(active := false), 0, 0, false, false)
      ensures player == Body(360, 0, false)
    {
      isDying := false;
      death := Dying;
      fish := fish.(collected := 0, item := fish.item.(active := false));
      levelUpRequired := false;
      levelUpFailed := false;
      fish := fish.(phase := 0);
      meat := meat.(item := meat.item.(active := false), appearCount := 0, phase := 0);
      meat := meat.(effectActive := false, effectStartTime := 0);
      suplemen := Suplemen(suplemen.item.(active := false), 0, 0, false, false);
      player := Body(360, 0, false);
    }

    /** `ClearRun`, then a new obstacle, drawn with the score of the run that ended. */
    method ClearRunAndObstacle()
      requires EntropyValid() && ObstacleValid()
      modifies this`isDying, this`death, this`fish, this`levelUpRequired, this`levelUpFailed
      modifies this`meat, this`suplemen, this`player, this`obs, this`draws
      ensures ObstacleValid() && DeathValid()
      ensures !isDying && death == Dying && !levelUpRequired && !levelUpFailed
      ensures fish == Fish(old(fish.item).(active := false), 0, 0)
      ensures meat == Meat(old(meat.item).(active := false), 0, 0, 0, false)
      ensures suplemen == Suplemen(old(suplemen.item).(active := false), 0, 0, false, false)
      ensures player == Body(360, 0, false)
      ensures obs.x == ScreenWidth * 10 && Kind() == ObstacleKind(entropy(old(draws)), score)
    {
      ClearRun();
      InitObstacle();
    }

    /**
     * The second part of `restartGame`: no distance, full health, running;
     * the hurt animation off and the walk animation at its first frame; the
     * first level, its multiplier, and no level-up message.
     */
    method ResetCounters()
      modifies this`distance, this`score, this`health, this`running, this`hurt, this`walk
      modifies this`speedTenths, this`currentLevel, this`levelUpMessage, this`levelUpMessageTime
      ensures distance == 0 && score == 0 && health == MaxHealth && running
      ensures hurt == Clip(false, 0, 0, 0) && walk == Cycle(0, 0)
      ensures speedTenths == 10 && currentLevel == 1 && !levelUpMessage && levelUpMessageTime == 0
    {
      distance := 0;
      score := 0;
      health := MaxHealth;
      running := true;
      hurt := Clip(false, 0, 0, 0);
      walk := Cycle(0, 0);
      speedTenths := 10;
      currentLevel := 1;
      levelUpMessage := false;
      levelUpMessageTime := 0;
    }

    /** `ResetCounters`, then the first fish of the new run, then the timer again. */
    method ResetCountersAndFish()
      requires EntropyValid() && fish.phase == 0 && fish.collected == 0 && InBand(fish.item, FishBand)
      requires !isDying && !levelUpFailed && !levelUpRequired
      requires suplemen.phase == 0 && suplemen.appearCount == 0 && !suplemen.item.active && !suplemen.effectActive
      requires InBand(suplemen.item, SuplemenBand)
      requires meat.phase == 0 && meat.appearCount == 0 && !meat.item.active && InBand(meat.item, MeatBand)
      requires ClipValid(attack, AttackFrames, AttackDelay, AttackDuration) && CycleValid(bird, BirdFrames, BirdDelay)
      modifies this`distance, this`score, this`health, this`running, this`hurt, this`walk
      modifies this`speedTenths, this`currentLevel, this`levelUpMessage, this`levelUpMessageTime
      modifies this`fish, this`draws, this`timerRunning
      ensures distance == 0 && score == 0 && health == MaxHealth && running && timerRunning
      ensures hurt == Clip(false, 0, 0, 0) && walk == Cycle(0, 0)
      ensures speedTenths == 10 && currentLevel == 1 && !levelUpMessage && levelUpMessageTime == 0
      ensures fish.phase == 0 && fish.collected == 0 && fish.item.active && fish.item.x == ItemSpawnX
      ensures SessionValid() && AnimationsValid() && ProgressValid()
      ensures SuplemenValid() && MeatValid() && FishValid()
    {
      ResetCounters();
      SpawnFishIfNeeded();
      timerRunning := true;
    }

    /**
     * `restartGame`: everything back to the start of a run, in the game's
     * order.  The new obstacle is made before the score is reset, so its
     * kind is drawn with the score of the run that just ended.  The record,
     * the attack and bird animations and day or night are kept.
     */
    method RestartGame()
      requires Valid()
      modifies this
      ensures Valid()
      ensures score == 0 && distance == 0 && currentLevel == 1 && speedTenths == 10
      ensures health == MaxHealth && running && timerRunning && !isDying && !levelUpFailed
      ensures player == Body(360, 0, false) && hurt == Clip(false, 0, 0, 0) && walk == Cycle(0, 0)
      ensures fish.phase == 0 && fish.collected == 0 && fish.item.active && fish.item.x == ItemSpawnX
      ensures meat == Meat(old(meat.item).(active := false), 0, 0, 0, false)
      ensures suplemen == Suplemen(old(suplemen.item).(active := false), 0, 0, false, false)
      ensures obs.x == ScreenWidth * 10 && Kind() == ObstacleKind(entropy(old(draws)), old(score))
      ensures highScore == old(highScore) && attack == old(attack) && bird == old(bird) && isDay == old(isDay)
    {
      ClearRunAndObstacle();
      ResetCountersAndFish();
    }
  }
}
