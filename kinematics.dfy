/**
 * The per-frame target poses of the moving hazard bodies (BlockSpinner, BlockLimbo and
 * BlockAxe in src/Level.jsx). Each frame reads the render clock's elapsed time and commands
 * the kinematic body to that pose; only the computed pose is modelled here.
 *
 * `Math.sin` and the cosine the rotation uses are parameters known only to stay in [-1, 1].
 * The hazards run on the render clock, not on the run's start and end times, so they keep
 * moving in every phase.
 */
module Kinematics {
  import opened Geometry
  import opened Level

  /** A sine (or cosine): a function whose values stay in [-1, 1]. */
  ghost predicate IsSine(sin: real -> real)
  {
    forall t :: -1.0 <= sin(t) <= 1.0
  }

  /** The obstacle mesh of a hazard, centred on its kinematic body: a 0.3-deep bar or blade. */
  function ObstacleMesh(h: Hazard): (m: Box)
    ensures m.position == Vec3(0.0, 0.0, 0.0)
    ensures ZSpan(m) == Interval(-0.15, 0.15)
    ensures h == Axe ==> XSpan(m) == Interval(-0.75, 0.75) && YSpan(m) == Interval(-0.75, 0.75)
    ensures h != Axe ==> XSpan(m) == Interval(-1.75, 1.75) && YSpan(m) == Interval(-0.15, 0.15)
  {
    match h
    case Axe => Box(Vec3(0.0, 0.0, 0.0), Vec3(1.5, 1.5, 0.3))
    case _ => Box(Vec3(0.0, 0.0, 0.0), Vec3(3.5, 0.3, 0.3))
  }

  // ---------------------------------------------------------------- spinner

  /**
   * The spinner's speed, drawn once per instance from two calls of Math.random: the first
   * gives the magnitude, the second the direction. Its magnitude lies in [0.2, 1.2), so it
   * is never zero, and it is negative exactly when the second draw is below 0.5.
   */
  function SpinnerSpeed(magnitudeDraw: real, directionDraw: real): (speed: real)
    requires IsRandom(magnitudeDraw) && IsRandom(directionDraw)
    ensures 0.2 <= speed < 1.2 || -1.2 < speed <= -0.2
    ensures speed != 0.0
    ensures speed < 0.0 <==> directionDraw < 0.5
  {
    (magnitudeDraw + 0.2) * (if directionDraw < 0.5 then -1.0 else 1.0)
  }

  /**
   * The yaw (the Euler angle about the vertical axis) the spinner is turned to at clock
   * time `time`. For a speed in the drawn range the bar has turned by between 0.2 and 1.2
   * radians per second of clock time, in the direction of the speed's sign.
   */
  function SpinnerYaw(speed: real, time: real): (angle: real)
    requires 0.2 <= speed < 1.2 || -1.2 < speed <= -0.2
    requires 0.0 <= time
    ensures 0.2 * time <= (if speed < 0.0 then -angle else angle) <= 1.2 * time
  {
    assert 0.2 * time <= (if speed < 0.0 then -(time * speed) else time * speed) <= 1.2 * time by {
      if speed < 0.0 {
        MulNonneg(-speed - 0.2, time);
        MulNonneg(1.2 + speed, time);
      } else {
        MulNonneg(speed - 0.2, time);
        MulNonneg(1.2 - speed, time);
      }
    }
    time * speed
  }

  /** The yaw advances by the same amount over every interval of the same duration. */
  lemma SpinnerTurnsSteadily(speed: real, time: real, delta: real)
    requires 0.2 <= speed < 1.2 || -1.2 < speed <= -0.2
    requires 0.0 <= time && 0.0 <= delta
    ensures SpinnerYaw(speed, time + delta) == SpinnerYaw(speed, time) + SpinnerYaw(speed, delta)
  {
  }

  /**
   * A corner of the spinner bar, at offset (dx, dz) from its centre, turned by an angle
   * whose cosine is `c` and sine is `s`, stays strictly inside the 4 x 4 tile: the bar
   * never reaches the side walls, whatever its yaw.
   */
  lemma {:induction false} SpinnerBarStaysInsideTile(c: real, s: real, dx: real, dz: real)
    requires -1.0 <= c <= 1.0 && -1.0 <= s <= 1.0
    requires XSpan(ObstacleMesh(Spinner)).lo <= dx <= XSpan(ObstacleMesh(Spinner)).hi
    requires ZSpan(ObstacleMesh(Spinner)).lo <= dz <= ZSpan(ObstacleMesh(Spinner)).hi
    ensures -2.0 < dx * c + dz * s < 2.0
    ensures -2.0 < dz * c - dx * s < 2.0
  {
    ProductBound(dx, c, 1.75);
    ProductBound(dx, s, 1.75);
    ProductBound(dz, c, 0.15);
    ProductBound(dz, s, 0.15);
  }

  /** |a * b| <= m when |a| <= m and |b| <= 1. */
  lemma ProductBound(a: real, b: real, m: real)
    requires -m <= a <= m && -1.0 <= b <= 1.0
    ensures -m <= a * b <= m
  {
    if 0.0 <= a {
      MulNonneg(a, 1.0 - b);
      MulNonneg(a, b + 1.0);
      MulNonneg(m - a, 1.0);
    } else {
      MulNonneg(-a, 1.0 + b);
      MulNonneg(-a, 1.0 - b);
    }
  }

  /** The product of two non-negative reals is non-negative. */
  lemma MulNonneg(x: real, y: real)
    requires 0.0 <= x && 0.0 <= y
    ensures 0.0 <= x * y
  {
  }

  // ---------------------------------------------------------------- limbo

  /**
   * The limbo bar's target position at clock time `time` for a block at `position`: x and z
   * are the block's, y is `sin(time) + 1.15` above it, so it moves within
   * [y + 0.15, y + 2.15]. The per-instance `timeOffset` is declared but not used.
   */
  function LimboTarget(sin: real -> real, position: Vec3, time: real, timeOffset: real): (target: Vec3)
    requires IsSine(sin)
    ensures target.x == position.x && target.z == position.z
    ensures position.y + 0.15 <= target.y <= position.y + 2.15
  {
    var y := sin(time) + 1.15;
    Vec3(position.x, position.y + y, position.z)
  }

  /** All limbo bars move in step: the target does not depend on the instance's time offset. */
  lemma LimboIgnoresTimeOffset(sin: real -> real, position: Vec3, time: real, offset1: real, offset2: real)
    requires IsSine(sin)
    ensures LimboTarget(sin, position, time, offset1) == LimboTarget(sin, position, time, offset2)
  {
  }

  /** At its lowest the limbo bar's underside touches the floor of its tile and never goes through it. */
  lemma LimboBarAboveFloor(sin: real -> real, position: Vec3, time: real, timeOffset: real)
    requires IsSine(sin)
    ensures YSpan(Translate(ObstacleMesh(Limbo), LimboTarget(sin, position, time, timeOffset))).lo
            >= position.y + YSpan(FloorMesh(Trap(Limbo))).hi
  {
    var target := LimboTarget(sin, position, time, timeOffset);
    assert YSpan(ObstacleMesh(Limbo)).lo == -0.15;
    assert YSpan(FloorMesh(Trap(Limbo))).hi == 0.0;
  }

  // ---------------------------------------------------------------- axe

  /**
   * The axe's target position at clock time `time` for a block at `position`: it swings
   * `1.25 * sin(time + timeOffset)` to either side of the block's x, raised 0.75 above the
   * block, at the block's z.
   */
  function AxeTarget(sin: real -> real, position: Vec3, time: real, timeOffset: real): (target: Vec3)
    requires IsSine(sin)
    ensures position.x - 1.25 <= target.x <= position.x + 1.25
    ensures target.y == position.y + 0.75 && target.z == position.z
  {
    var x := sin(time + timeOffset) * 1.25;
    Vec3(position.x + x, position.y + 0.75, position.z)
  }

  /**
   * An axe placed on the track (x = 0) swings at most exactly up to the side walls' inner
   * faces: its blade never goes through a wall of `Bounds`.
   */
  lemma AxeStaysBetweenWalls(sin: real -> real, position: Vec3, time: real, timeOffset: real, length: int)
    requires IsSine(sin) && position.x == 0.0
    ensures var blade := Translate(ObstacleMesh(Axe), AxeTarget(sin, position, time, timeOffset));
      XSpan(Bounds(length).leftWall).hi <= XSpan(blade).lo && XSpan(blade).hi <= XSpan(Bounds(length).rightWall).lo
  {
    assert XSpan(ObstacleMesh(Axe)) == Interval(-0.75, 0.75);
  }

  // ---------------------------------------------------------------- dispatch

  /** The per-instance state a hazard draws once when it is created. */
  datatype Instance = SpinnerInstance(speed: real) | LimboInstance(limboOffset: real) | AxeInstance(axeOffset: real)

  /** The command a frame sends to a hazard's kinematic body. */
  datatype Pose = NextRotation(yaw: real) | NextTranslation(position: Vec3)

  /** A hazard's pose at clock time `time` for a block placed at `position`. */
  function FramePose(sin: real -> real, inst: Instance, position: Vec3, time: real): (pose: Pose)
    requires IsSine(sin) && 0.0 <= time
    requires inst.SpinnerInstance? ==> 0.2 <= inst.speed < 1.2 || -1.2 < inst.speed <= -0.2
    ensures inst.SpinnerInstance? <==> pose.NextRotation?
    ensures inst.SpinnerInstance? ==>
      0.2 * time <= (if inst.speed < 0.0 then -pose.yaw else pose.yaw) <= 1.2 * time
    ensures pose.NextTranslation? ==> pose.position.z == position.z
    ensures inst.LimboInstance? ==>
      pose.position.x == position.x && position.y + 0.15 <= pose.position.y <= position.y + 2.15
    ensures inst.AxeInstance? ==>
      position.x - 1.25 <= pose.position.x <= position.x + 1.25 && pose.position.y == position.y + 0.75
  {
    match inst
    case SpinnerInstance(speed) => NextRotation(SpinnerYaw(speed, time))
    case LimboInstance(offset) => NextTranslation(LimboTarget(sin, position, time, offset))
    case AxeInstance(offset) => NextTranslation(AxeTarget(sin, position, time, offset))
  }
}
