/**
 * The player's flight model in play() of src/client/main.js, written as pure
 * functions: the radius-scale control, the edge bounds on the orbit radius and
 * how they are combined, the flying-mode angle step, the orbit position step,
 * the air-drag blend, the vertical clamp and the win-mode easing.
 * Trigonometric functions are opaque parameters.
 */
module Flight {
  import opened Wrappers
  import opened Tuning

  // ---------------------------------------------------------------------------
  // Radius-scale control

  /**
   * One frame of the radius scale: D (grow) raises it, capped at 2; otherwise A
   * (shrink) lowers it, capped at 0.5; with no key it decays back toward 1 at
   * twice the rate, stopping at 1.
   */
  function RadiusStep(radius: real, dt: real, grow: bool, shrink: bool): (r: real)
    ensures dt >= 0.0 && 0.5 <= radius <= 2.0 ==> 0.5 <= r <= 2.0
    ensures grow ==> r <= 2.0
    ensures grow && dt >= 0.0 && radius <= 2.0 ==> radius <= r
    ensures grow && dt >= 0.0 && radius + dt * ACCEL >= 2.0 ==> r == 2.0
    ensures !grow && shrink ==> r >= 0.5
    ensures !grow && shrink && dt >= 0.0 && radius >= 0.5 ==> r <= radius
    ensures !grow && shrink && dt >= 0.0 && radius - dt * ACCEL <= 0.5 ==> r == 0.5
    ensures !grow && !shrink && radius > 1.0 && dt >= 0.0 ==> 1.0 <= r <= radius
    ensures !grow && !shrink && radius < 1.0 && dt >= 0.0 ==> radius <= r <= 1.0
    ensures !grow && !shrink && radius == 1.0 ==> r == 1.0
    // the step itself, where no cap applies
    ensures grow && radius + dt * ACCEL <= 2.0 ==> r == radius + dt * ACCEL
    ensures !grow && shrink && radius - dt * ACCEL >= 0.5 ==> r == radius - dt * ACCEL
    ensures !grow && !shrink && radius > 1.0 && radius - dt * ACCEL * 2.0 >= 1.0 ==> r == radius - dt * ACCEL * 2.0
    ensures !grow && !shrink && radius > 1.0 && radius - dt * ACCEL * 2.0 <= 1.0 ==> r == 1.0
    ensures !grow && !shrink && radius < 1.0 && radius + dt * ACCEL * 2.0 <= 1.0 ==> r == radius + dt * ACCEL * 2.0
    ensures !grow && !shrink && radius < 1.0 && radius + dt * ACCEL * 2.0 >= 1.0 ==> r == 1.0
  {
    if grow then Min(2.0, radius + dt * ACCEL)
    else if shrink then Max(0.5, radius - dt * ACCEL)
    else if radius > 1.0 then Max(1.0, radius - dt * ACCEL * 2.0)
    else if radius < 1.0 then Min(1.0, radius + dt * ACCEL * 2.0)
    else radius
  }

  // ---------------------------------------------------------------------------
  // Edge bounds on the orbit radius

  /**
   * The test angle and the radius bias for one screen edge: an angle past PI is
   * reflected into [0, PI] and earns a bias that grows with its distance from
   * the nearer of 0 and PI.
   */
  function EdgeTest(angle: real): (tb: (real, real))
    ensures angle <= PI ==> tb == (angle, 0.0)
    ensures PI < angle ==> tb.0 == TWO_PI - angle
    ensures PI < angle <= TWO_PI ==> 0.0 <= tb.0 < PI
    ensures PI < angle && tb.0 < PI / 2.0 ==> tb.1 == tb.0 * BASE_RADIUS * 2.0
    ensures PI < angle && tb.0 >= PI / 2.0 ==> tb.1 == (PI - tb.0) * BASE_RADIUS * 2.0
    ensures angle <= TWO_PI ==> 0.0 <= tb.1 <= PI * BASE_RADIUS
    ensures angle > TWO_PI ==> tb.1 < 0.0
  {
    if angle > PI then
      var t := TWO_PI - angle;
      if t < PI / 2.0 then (t, t * BASE_RADIUS * 2.0)
      else (t, (PI - t) * BASE_RADIUS * 2.0)
    else (angle, 0.0)
  }

  /** The angle measured against the bottom edge: the orbit angle turned by PI, kept in [0, 2*PI). */
  function BottomAngle(angle: real): (b: real)
    ensures 0.0 <= angle < TWO_PI ==> 0.0 <= b < TWO_PI
    ensures b == angle - PI || b == angle + PI
    ensures angle - PI >= 0.0 ==> b == angle - PI
    ensures angle - PI < 0.0 ==> b == angle - PI + TWO_PI
  {
    var t := angle - PI;
    if t < 0.0 then t + TWO_PI else t
  }

  /**
   * The largest orbit radius that keeps the orbit through the player off one
   * edge at distance dist. The division by sin(PI - test angle) yields a
   * number that is not finite exactly when that sine is 0: then None.
   */
  function EdgeBound(tan: real -> real, sin: real -> real, angle: real, dist: real): (m: Option<real>)
    ensures m.None? <==> sin(PI - EdgeTest(angle).0) == 0.0
    ensures m.Some? ==>
      m.value * sin(PI - EdgeTest(angle).0)
      == tan((PI - EdgeTest(angle).0) / 2.0) * dist + (EdgeTest(angle).1 - 0.5) * sin(PI - EdgeTest(angle).0)
  {
    var (t, rbias) := EdgeTest(angle);
    var s := sin(PI - t);
    if s == 0.0 then None
    else Some(tan((PI - t) / 2.0) * dist / s - 0.5 + rbias)
  }

  /**
   * The combined bound of the top bound maxR and the bottom bound maxR2: the
   * minimum of those that are finite, None when neither is.
   */
  function CombineBounds(maxR: Option<real>, maxR2: Option<real>): (m: Option<real>)
    ensures m.Some? <==> maxR.Some? || maxR2.Some?
    ensures m.Some? ==> m == maxR || m == maxR2
    ensures m.Some? && maxR.Some? ==> m.value <= maxR.value
    ensures m.Some? && maxR2.Some? ==> m.value <= maxR2.value
  {
    if maxR2.Some? then
      if maxR.Some? then Some(Min(maxR.value, maxR2.value)) else maxR2
    else maxR
  }

  /** A bound above MIN_RADIUS has its excess over MIN_RADIUS multiplied by 4. */
  function Loosen(m: real): (l: real)
    ensures l >= m
    ensures m <= MIN_RADIUS ==> l == m
    ensures m > MIN_RADIUS ==> l > MIN_RADIUS && l - MIN_RADIUS == 4.0 * (m - MIN_RADIUS)
  {
    if m > MIN_RADIUS then (m - MIN_RADIUS) * 4.0 + MIN_RADIUS else m
  }

  /**
   * The orbit radius used this frame: the nominal radius scale * BASE_RADIUS,
   * limited by the loosened combined bound when there is one.
   */
  function EffectiveRadius(scale: real, bound: Option<real>): (r: real)
    ensures r <= scale * BASE_RADIUS
    ensures bound.None? ==> r == scale * BASE_RADIUS
    ensures bound.Some? ==> r <= Loosen(bound.value)
    ensures bound.Some? ==> r == scale * BASE_RADIUS || r == Loosen(bound.value)
    ensures bound.Some? ==> r >= Min(scale * BASE_RADIUS, bound.value)
  {
    if bound.Some? then Min(scale * BASE_RADIUS, Loosen(bound.value)) else scale * BASE_RADIUS
  }

  // ---------------------------------------------------------------------------
  // Flying-mode motion

  /** The flying-mode angle step: turn by dt * D_THETA, wrapping below 0 by 2*PI. */
  function FlyAngle(angle: real, dt: real): (a: real)
    ensures a == angle - dt * D_THETA || a == angle - dt * D_THETA + TWO_PI
    ensures 0.0 <= angle < TWO_PI && 0.0 <= dt * D_THETA <= TWO_PI ==> 0.0 <= a < TWO_PI
    ensures angle - dt * D_THETA >= 0.0 ==> a == angle - dt * D_THETA
    ensures angle - dt * D_THETA < 0.0 ==> a == angle - dt * D_THETA + TWO_PI
  {
    var a := angle - dt * D_THETA;
    if a < 0.0 then a + TWO_PI else a
  }

  /**
   * The orbit step: the centre lies at distance radius from (x, y) along
   * angle + PI/2, whose cosine and sine are c1 and s1; the new position lies
   * at distance radius from that centre, on the opposite side along the new
   * angle + PI/2, whose cosine and sine are c2 and s2.
   */
  function OrbitStep(x: real, y: real, radius: real, c1: real, s1: real, c2: real, s2: real): (p: (real, real))
    ensures p.0 - x == radius * (c1 - c2) && p.1 - y == radius * (s1 - s2)
  {
    var (cx, cy) := OrbitCentre(x, y, radius, c1, s1);
    (cx - radius * c2, cy - radius * s2)
  }

  /** The centre of the orbit through (x, y). */
  function OrbitCentre(x: real, y: real, radius: real, c1: real, s1: real): (real, real)
  {
    (x + radius * c1, y + radius * s1)
  }

  /**
   * Air drag: the move from the old to the new position is scaled by AIR_DRAG,
   * which puts the result halfway between them.
   */
  function DragBlend(ox: real, oy: real, nx: real, ny: real): (p: (real, real))
    ensures p.0 - ox == nx - p.0 && p.1 - oy == ny - p.1
  {
    (ox + (nx - ox) * AIR_DRAG, oy + (ny - oy) * AIR_DRAG)
  }

  /** The vertical clamp to the screen, [0, GAME_HEIGHT]. */
  function ClampY(y: real): (c: real)
    ensures 0.0 <= c <= GAME_HEIGHT
    ensures 0.0 <= y <= GAME_HEIGHT ==> c == y
    ensures y < 0.0 ==> c == 0.0
    ensures y > GAME_HEIGHT ==> c == GAME_HEIGHT
  {
    if y < 0.0 then 0.0 else if y > GAME_HEIGHT then GAME_HEIGHT else y
  }

  // ---------------------------------------------------------------------------
  // Win mode

  /** The win-mode easing step's angle increment. */
  function WinDelta(dt: real): real { dt * D_THETA * 1.5 }

  /** True of an angle in the band (0.75*PI, PI) just before PI. */
  predicate InWinBand(angle: real) { angle < PI && angle > PI * 0.75 }

  /**
   * The win-mode easing of the angle toward PI: inside the band (0.75*PI, PI)
   * it moves up, capped at PI; elsewhere it moves down (wrapping at 0 by 2*PI)
   * and snaps to PI on entering the band.
   */
  function WinAngle(angle: real, dt: real): (a: real)
    ensures angle == PI && 0.0 < WinDelta(dt) < PI / 4.0 ==> a == PI
    ensures 0.0 <= angle < TWO_PI && 0.0 <= WinDelta(dt) <= TWO_PI ==> 0.0 <= a < TWO_PI
    ensures InWinBand(angle) && dt > 0.0 ==> angle < a <= PI
    ensures InWinBand(angle) ==> a <= PI
    ensures !InWinBand(a) || a == PI || InWinBand(angle)
    // inside the band: up by the step, capped at PI
    ensures InWinBand(angle) && angle + WinDelta(dt) <= PI ==> a == angle + WinDelta(dt)
    ensures InWinBand(angle) && angle + WinDelta(dt) >= PI ==> a == PI
    // outside the band: down by the step, wrapping below 0, snapping to PI in the band
    ensures !InWinBand(angle) && InWinBand(angle - WinDelta(dt)) ==> a == PI
    ensures !InWinBand(angle) && angle - WinDelta(dt) >= 0.0 && !InWinBand(angle - WinDelta(dt))
      ==> a == angle - WinDelta(dt)
    ensures !InWinBand(angle) && angle - WinDelta(dt) < 0.0 && InWinBand(angle - WinDelta(dt) + TWO_PI)
      ==> a == PI
    ensures !InWinBand(angle) && angle - WinDelta(dt) < 0.0 && !InWinBand(angle - WinDelta(dt) + TWO_PI)
      ==> a == angle - WinDelta(dt) + TWO_PI
  {
    var da := WinDelta(dt);
    if InWinBand(angle) then Min(angle + da, PI)
    else
      var a1 := angle - da;
      var a2 := if a1 < 0.0 then a1 + TWO_PI else a1;
      if InWinBand(a2) then PI else a2
  }

  /** The visual scale of the player in win mode: grows with the win counter, capped at 2. */
  function PlayerScale(winCounter: real): (s: real)
    ensures s <= 2.0
    ensures winCounter >= 0.0 ==> 1.0 <= s
    ensures winCounter >= 2000.0 ==> s == 2.0
  {
    Min(1.0 + winCounter * 0.0005, 2.0)
  }

  // ---------------------------------------------------------------------------
  // The whole player update

  /** The player's pose: position, orbit angle, radius scale and win counter. */
  datatype Pose = Pose(x: real, y: real, angle: real, radius: real, winCounter: real)

  /**
   * The win-mode update: the counter grows by dt, the angle eases toward PI,
   * the player drifts back along the new angle, and down once it is PI; the
   * radius scale is untouched and y is not clamped.
   */
  function WinMove(p: Pose, dt: real, sin: real -> real, cos: real -> real): (q: Pose)
    ensures q.winCounter == p.winCounter + dt && q.radius == p.radius
    ensures q.angle == WinAngle(p.angle, dt)
  {
    var a := WinAngle(p.angle, dt);
    var dist := -dt * SPEED_SCALE * 0.2;
    var y := p.y + sin(a) * dist;
    Pose(p.x + cos(a) * dist, if a == PI then y - dt * 0.1 else y, a, p.radius, p.winCounter + dt)
  }

  /**
   * The flying update: the radius scale steps; the orbit radius is limited
   * by the combined bounds of both screen edges; the angle steps; the player
   * moves around the orbit centre, halfway only inside an air pocket; y is
   * clamped to the screen.
   */
  function FlyMove(p: Pose, dt: real, grow: bool, shrink: bool, hitAir: bool,
                   sin: real -> real, cos: real -> real, tan: real -> real): (q: Pose)
    ensures q.winCounter == p.winCounter
    ensures q.radius == RadiusStep(p.radius, dt, grow, shrink)
    ensures q.angle == FlyAngle(p.angle, dt)
    ensures 0.0 <= q.y <= GAME_HEIGHT
  {
    var scale := RadiusStep(p.radius, dt, grow, shrink);
    var bound := CombineBounds(EdgeBound(tan, sin, p.angle, p.y),
                               EdgeBound(tan, sin, BottomAngle(p.angle), GAME_HEIGHT - p.y));
    var r := EffectiveRadius(scale, bound);
    var a := FlyAngle(p.angle, dt);
    var m := OrbitStep(p.x, p.y, r, cos(p.angle + PI / 2.0), sin(p.angle + PI / 2.0),
                       cos(a + PI / 2.0), sin(a + PI / 2.0));
    var d := if hitAir then DragBlend(p.x, p.y, m.0, m.1) else m;
    Pose(d.0, ClampY(d.1), a, scale, p.winCounter)
  }

  /**
   * The player update of one frame: the win-mode update once the win has
   * started, the flying update before. The win counter never decreases, the
   * radius scale stays in [0.5, 2], and while flying y stays on screen.
   */
  function Move(p: Pose, doWin: bool, dt: real, grow: bool, shrink: bool, hitAir: bool,
                sin: real -> real, cos: real -> real, tan: real -> real): (q: Pose)
    ensures dt >= 0.0 ==> q.winCounter >= p.winCounter
    ensures dt >= 0.0 && 0.5 <= p.radius <= 2.0 ==> 0.5 <= q.radius <= 2.0
    ensures !doWin ==> 0.0 <= q.y <= GAME_HEIGHT && q.winCounter == p.winCounter
    ensures doWin ==> q.radius == p.radius && q.angle == WinAngle(p.angle, dt)
  {
    if doWin then WinMove(p, dt, sin, cos) else FlyMove(p, dt, grow, shrink, hitAir, sin, cos, tan)
  }

  // ---------------------------------------------------------------------------
  // Lemmas

  /** The decay with no key never crosses 1, from either side, and 1 is a fixed point. */
  lemma DecayNeverOvershoots(radius: real, dt: real)
    requires dt >= 0.0
    ensures (radius - 1.0) * (RadiusStep(radius, dt, false, false) - 1.0) >= 0.0
    ensures radius > 1.0 ==> RadiusStep(radius, dt, false, false) >= 1.0
    ensures radius < 1.0 ==> RadiusStep(radius, dt, false, false) <= 1.0
    ensures RadiusStep(1.0, dt, false, false) == 1.0
  {
    var r := RadiusStep(radius, dt, false, false);
    if radius > 1.0 {
      MulNonNeg(radius - 1.0, r - 1.0);
    } else if radius < 1.0 {
      MulNonNeg(1.0 - radius, 1.0 - r);
      assert (radius - 1.0) * (r - 1.0) == (1.0 - radius) * (1.0 - r);
    }
  }

  /** The product of two non-negative reals is non-negative. */
  lemma MulNonNeg(a: real, b: real)
    requires a >= 0.0 && b >= 0.0
    ensures a * b >= 0.0
  {
  }

  /**
   * Above the combined bound's floor the loosening only ever widens the
   * bound: when the combined bound is at most MIN_RADIUS the effective
   * radius is exactly the minimum of the nominal radius and that bound.
   */
  lemma TightNearEdge(scale: real, maxR: Option<real>, maxR2: Option<real>)
    requires CombineBounds(maxR, maxR2).Some?
    requires CombineBounds(maxR, maxR2).value <= MIN_RADIUS
    ensures EffectiveRadius(scale, CombineBounds(maxR, maxR2))
            == Min(scale * BASE_RADIUS, CombineBounds(maxR, maxR2).value)
  {
  }

  /**
   * Both positions lie on the orbit circle: when (c1, s1) and (c2, s2) are
   * points of the unit circle, the old and the new position are both at
   * distance radius from the orbit centre.
   */
  lemma OrbitKeepsRadius(x: real, y: real, radius: real, c1: real, s1: real, c2: real, s2: real)
    requires c1 * c1 + s1 * s1 == 1.0 && c2 * c2 + s2 * s2 == 1.0
    ensures var (cx, cy) := OrbitCentre(x, y, radius, c1, s1);
            var (nx, ny) := OrbitStep(x, y, radius, c1, s1, c2, s2);
            (nx - cx) * (nx - cx) + (ny - cy) * (ny - cy) == radius * radius
            && (x - cx) * (x - cx) + (y - cy) * (y - cy) == radius * radius
  {
    var (cx, cy) := OrbitCentre(x, y, radius, c1, s1);
    var (nx, ny) := OrbitStep(x, y, radius, c1, s1, c2, s2);
    assert nx - cx == -radius * c2 && ny - cy == -radius * s2;
    assert x - cx == -radius * c1 && y - cy == -radius * s1;
    calc {
      (nx - cx) * (nx - cx) + (ny - cy) * (ny - cy);
      (radius * c2) * (radius * c2) + (radius * s2) * (radius * s2);
      radius * radius * (c2 * c2 + s2 * s2);
      radius * radius;
    }
    calc {
      (x - cx) * (x - cx) + (y - cy) * (y - cy);
      (radius * c1) * (radius * c1) + (radius * s1) * (radius * s1);
      radius * radius * (c1 * c1 + s1 * s1);
      radius * radius;
    }
  }

  /**
   * Once the win-mode angle is PI it stays PI on every later frame with a
   * small enough positive step.
   */
  lemma {:induction false} WinAngleSettles(angle: real, dts: seq<real>)
    requires angle == PI
    requires forall i :: 0 <= i < |dts| ==> 0.0 < WinDelta(dts[i]) < PI / 4.0
    ensures WinAngles(angle, dts) == PI
  {
    if dts != [] {
      WinAngleSettles(WinAngle(angle, dts[0]), dts[1..]);
    }
  }

  /** The win-mode angle after a sequence of frames. */
  function WinAngles(angle: real, dts: seq<real>): real
    decreases |dts|
  {
    if dts == [] then angle else WinAngles(WinAngle(angle, dts[0]), dts[1..])
  }
}
