/**
 * The decision rules of the extended variant (PawJump) that do not depend on
 * the panel's state as a whole: which kind of obstacle a random draw makes at
 * a given score, how a moving obstacle bounces between its two bounds, and at
 * which scores of a 250 m phase the collectibles are due.
 */
module Spawning {

  import opened Progression

  /** The three obstacles: on the platform, floating 180 px up, moving up and down. */
  datatype Kind = Ground | Floating | Moving

  const FloatChance := 0.3
  const MovingChance := 0.2
  /** Score from which floating, resp. moving, obstacles can appear. */
  const FloatFrom := 250
  const MovingFrom := 500

  /**
   * `initObstacle`'s first draw: below the floating chance (0.3 once the score
   * is 250) the obstacle floats; below that plus the moving chance (0.2 once
   * the score is 500) it moves; otherwise it stands on the platform.
   */
  function ObstacleKind(r: real, score: int): (k: Kind)
    requires 0.0 <= r < 1.0
    ensures k == Floating <==> score >= FloatFrom && r < FloatChance
    ensures k == Moving <==> score >= MovingFrom && FloatChance <= r < FloatChance + MovingChance
    ensures score < FloatFrom ==> k == Ground
  {
    var floatChance := if score >= FloatFrom then FloatChance else 0.0;
    var movingChance := if score >= MovingFrom then MovingChance else 0.0;
    if r < floatChance then Floating
    else if r < floatChance + movingChance then Moving
    else Ground
  }

  /** The range a moving obstacle's top travels in: 350 px and 80 px above the platform. */
  const MoveMinY := 250
  const MoveMaxY := 520
  /** Where a moving obstacle starts: the middle of its range, rounded down. */
  const MoveStartY := 385
  /** Pixels a moving obstacle travels per tick. */
  const MoveSpeed := 4

  /** A moving obstacle's top and direction (1 down, -1 up). */
  datatype Bob = Bob(y: int, dir: int)

  /**
   * One tick of vertical motion: move by 4 px in the current direction; on
   * reaching or passing the top bound stop there and turn down, on reaching
   * or passing the bottom bound stop there and turn up.  Whatever the
   * position it starts from, the obstacle ends within the bounds.
   */
  function Bounce(b: Bob): (r: Bob)
    ensures MoveMinY <= r.y <= MoveMaxY
    ensures r.y == MoveMinY ==> r.dir == 1
    ensures r.y == MoveMaxY ==> r.dir == -1
    ensures MoveMinY < r.y < MoveMaxY ==> r == Bob(b.y + b.dir * MoveSpeed, b.dir)
  {
    var y := b.y + b.dir * MoveSpeed;
    if y <= MoveMinY then Bob(MoveMinY, 1)
    else if y >= MoveMaxY then Bob(MoveMaxY, -1)
    else Bob(y, b.dir)
  }

  function BounceN(b: Bob, n: nat): Bob
  {
    if n == 0 then b else Bounce(BounceN(b, n - 1))
  }

  /**
   * From the top bound going down, the obstacle descends 4 px a tick for 67
   * ticks and on the 68th reaches the bottom bound and turns up.
   */
  lemma {:induction false} DescentFromTop(k: nat)
    requires k <= 67
    ensures BounceN(Bob(MoveMinY, 1), k) == Bob(MoveMinY + MoveSpeed * k, 1)
  {
    if k > 0 {
      DescentFromTop(k - 1);
    }
  }

  lemma CrossesIn68Ticks()
    ensures BounceN(Bob(MoveMinY, 1), 68) == Bob(MoveMaxY, -1)
  {
    DescentFromTop(67);
  }

  /** Metres into a phase at which the first and the second meat are due. */
  const FirstMeatAt := 50
  const SecondMeatAt := 200
  /** Metres into a phase at which the suplemen is due. */
  const SuplemenAt := 125
  const MeatPerPhase := 2

  function PhaseStart(phase: int): int
  {
    phase * PhaseLength
  }

  /** The score at which meat slot `i` of `phase` becomes due. */
  function MeatSpawnScore(phase: int, i: int): int
  {
    PhaseStart(phase) + (if i == 0 then FirstMeatAt else SecondMeatAt)
  }

  /**
   * `spawnMeatIfNeeded`'s guard for slot `i`: the slot is the next one, no
   * meat is on screen, and the score is past the slot's checkpoint but still
   * inside the phase.
   */
  predicate MeatSlotDue(i: int, count: int, active: bool, score: int, phase: int)
  {
    count == i && !active && score >= MeatSpawnScore(phase, i) && score < PhaseStart(phase + 1)
  }

  /** Some slot is due: the loop of `spawnMeatIfNeeded` finds one. */
  predicate MeatDue(count: int, active: bool, score: int, phase: int)
  {
    exists i :: 0 <= i < MeatPerPhase && MeatSlotDue(i, count, active, score, phase)
  }

  /**
   * The same condition without the search: fewer than two meats appeared
   * in the phase, none is on screen, and the score is past the next slot's
   * checkpoint inside the phase.
   */
  predicate MeatNext(count: int, active: bool, score: int, phase: int)
  {
    0 <= count < MeatPerPhase && !active && MeatSpawnScore(phase, count) <= score < PhaseStart(phase + 1)
  }

  /** A slot is due exactly when the next one is; the slot that is due is then the next one. */
  lemma MeatDueMeans(count: int, active: bool, score: int, phase: int)
    ensures MeatDue(count, active, score, phase) <==> MeatNext(count, active, score, phase)
    ensures forall i :: 0 <= i < MeatPerPhase && MeatSlotDue(i, count, active, score, phase) ==> i == count
  {
    if MeatNext(count, active, score, phase) {
      assert MeatSlotDue(count, count, active, score, phase);
    }
  }

  /** `spawnSuplemenIfNeeded`'s guard: once per phase, from 125 m into it, while none is on screen. */
  predicate SuplemenDue(count: int, active: bool, score: int, phase: int)
  {
    PhaseStart(phase) + SuplemenAt <= score < PhaseStart(phase + 1) && count < 1 && !active
  }

  /** `spawnFishIfNeeded`'s guard: the score lies inside the fish phase. */
  predicate FishDue(score: int, phase: int)
  {
    PhaseStart(phase) <= score < PhaseStart(phase + 1)
  }

  /** What a tick sees of a meat phase: whether a meat is on screen, and the score. */
  datatype Moment = Moment(active: bool, score: int)

  /**
   * The number of meats that appear over a sequence of ticks of one phase,
   * starting from `count` already shown: each tick where one is due shows
   * one more.
   */
  function MeatSpawns(count: int, phase: int, ticks: seq<Moment>): nat
    decreases |ticks|
  {
    if |ticks| == 0 then 0
    else if MeatDue(count, ticks[0].active, ticks[0].score, phase) then 1 + MeatSpawns(count + 1, phase, ticks[1..])
    else MeatSpawns(count, phase, ticks[1..])
  }

  /**
   * However the ticks of a phase go, at most two meats appear in it.  This is
   * the guard's own bound; in the panel, `SpawnMeatIfNeeded` raises the count
   * exactly when `MeatNext` holds, and `PawJump.GamePanel.MeatValid` keeps the
   * same cap of two per phase as an invariant of every tick.
   */
  lemma {:induction false} AtMostTwoMeats(count: int, phase: int, ticks: seq<Moment>)
    requires 0 <= count <= MeatPerPhase
    ensures MeatSpawns(count, phase, ticks) <= MeatPerPhase - count
    decreases |ticks|
  {
    if |ticks| > 0 {
      var t := ticks[0];
      MeatDueMeans(count, t.active, t.score, phase);
      if MeatDue(count, t.active, t.score, phase) {
        AtMostTwoMeats(count + 1, phase, ticks[1..]);
      } else {
        AtMostTwoMeats(count, phase, ticks[1..]);
      }
    }
  }

  /** The number of suplemen that appear over a sequence of ticks of one phase. */
  function SuplemenSpawns(count: int, phase: int, ticks: seq<Moment>): nat
    decreases |ticks|
  {
    if |ticks| == 0 then 0
    else if SuplemenDue(count, ticks[0].active, ticks[0].score, phase) then 1 + SuplemenSpawns(count + 1, phase, ticks[1..])
    else SuplemenSpawns(count, phase, ticks[1..])
  }

  /**
   * However the ticks of a phase go, at most one suplemen appears in it.  In
   * the panel, `SpawnSuplemenIfNeeded` counts a suplemen exactly when
   * `SuplemenDue` holds, and `PawJump.GamePanel.SuplemenValid` keeps the cap
   * of one per phase as an invariant of every tick.
   */
  lemma {:induction false} AtMostOneSuplemen(count: int, phase: int, ticks: seq<Moment>)
    requires 0 <= count <= 1
    ensures SuplemenSpawns(count, phase, ticks) <= 1 - count
    decreases |ticks|
  {
    if |ticks| > 0 {
      var t := ticks[0];
      if SuplemenDue(count, t.active, t.score, phase) {
        AtMostOneSuplemen(count + 1, phase, ticks[1..]);
      } else {
        AtMostOneSuplemen(count, phase, ticks[1..]);
      }
    }
  }
}
