/** The orbit camera of script.js: the `cam` record, the `__topView` flag and
    the one-slot `__savedOrbit` snapshot, with the arithmetic of the orbit
    drag, the wheel zoom, the top-view button and the `t` key.

    `updateCamera` (the spherical-to-Cartesian eye placement and `lookAt`) is
    Three.js work and is not part of this model: every transition here ends
    where the handler calls it. */
module Camera {
  import opened Basics

  datatype Vec3 = Vec3(x: real, y: real, z: real)

  function Plus(a: Vec3, b: Vec3): Vec3
  {
    Vec3(a.x + b.x, a.y + b.y, a.z + b.z)
  }

  /** The `cam` record: yaw and pitch in radians, the distance from the eye to
      the target, and the point the camera looks at. */
  datatype Orbit = Orbit(yaw: real, pitch: real, dist: real, target: Vec3)

  /** `Math.PI / 2`, as the double it evaluates to; the model computes with it exactly. */
  const HALF_PI: real := 1.5707963267948966
  /** Straight down, nudged by 1e-3 off the pole to keep `lookAt` well defined. */
  const TOP_PITCH: real := -HALF_PI + 0.001
  /** Radians per pixel of drag. */
  const DRAG_GAIN: real := 0.005
  const PITCH_LIMIT: real := 1.45
  const MIN_DIST: real := 150.0
  const MAX_DIST: real := 4000.0
  const ZOOM_OUT_FACTOR: real := 1.12
  const ZOOM_IN_FACTOR: real := 0.89
  /** How close to straight down the `t` key counts as "already top-down". */
  const TOP_SNAP: real := 0.05
  /** The pitch of the orbital view: the initial value and the `t` key's way back. */
  const ORBITAL_PITCH: real := -0.35
  /** The initial `cam`, also the button's fallback when no snapshot exists. */
  const HOME: Orbit := Orbit(-0.8, ORBITAL_PITCH, 1200.0, Vec3(0.0, 0.0, 0.0))

  /** The pitch range an orbit drag keeps. */
  predicate InDragRange(pitch: real)
  {
    -PITCH_LIMIT <= pitch <= PITCH_LIMIT
  }

  /** The distance range a wheel step keeps. */
  predicate InZoomRange(dist: real)
  {
    MIN_DIST <= dist <= MAX_DIST
  }

  /** The `t` key's test for "the camera looks straight down". */
  predicate NearTop(pitch: real)
  {
    Abs(pitch + HALF_PI) < TOP_SNAP
  }

  // ---------------------------------------------------------------- drag

  /** Orbit branch of `pointermove`: the pointer moved by `(dx, dy)` pixels. */
  function Drag(c: Orbit, dx: real, dy: real): (r: Orbit)
    ensures InDragRange(r.pitch)
    ensures InDragRange(c.pitch + dy * DRAG_GAIN) ==> r.pitch == c.pitch + dy * DRAG_GAIN
    ensures c.pitch + dy * DRAG_GAIN < -PITCH_LIMIT ==> r.pitch == -PITCH_LIMIT
    ensures c.pitch + dy * DRAG_GAIN > PITCH_LIMIT ==> r.pitch == PITCH_LIMIT
    ensures r.yaw == c.yaw + dx * DRAG_GAIN
    ensures r.dist == c.dist && r.target == c.target
  {
    c.(yaw := c.yaw + dx * DRAG_GAIN,
       pitch := Clamp(-PITCH_LIMIT, PITCH_LIMIT, c.pitch + dy * DRAG_GAIN))
  }

  /** Dragging back by the opposite amount undoes a drag that stayed inside
      the pitch range. */
  lemma DragUndo(c: Orbit, dx: real, dy: real)
    requires InDragRange(c.pitch)
    requires InDragRange(c.pitch + dy * DRAG_GAIN)
    ensures Drag(Drag(c, dx, dy), -dx, -dy) == c
  {
    var d := Drag(c, dx, dy);
    assert d.pitch + (-dy) * DRAG_GAIN == c.pitch;
    assert d.yaw + (-dx) * DRAG_GAIN == c.yaw;
  }

  /** ... but the clamp forgets how far past the limit a drag went: from pitch
      1.4, dragging down 20 px and back up 20 px ends at 1.35, not 1.4. */
  lemma DragPastLimitIsLossy()
    ensures Drag(Drag(Orbit(0.0, 1.4, 1200.0, Vec3(0.0, 0.0, 0.0)), 0.0, 20.0), 0.0, -20.0).pitch == 1.35
  {
  }

  /** A longer drag downwards never leaves the camera pitched less. */
  lemma DragPitchMonotone(c: Orbit, dx: real, dy1: real, dy2: real)
    requires dy1 <= dy2
    ensures Drag(c, dx, dy1).pitch <= Drag(c, dx, dy2).pitch
  {
  }

  // ---------------------------------------------------------------- pan

  /** Pan branch of `pointermove`. The offset is computed from trigonometry
      of yaw and pitch and the field of view, outside this model; what is
      modelled is that a pan moves only the target. */
  function Pan(c: Orbit, offset: Vec3): (r: Orbit)
    ensures r.yaw == c.yaw && r.pitch == c.pitch && r.dist == c.dist
    ensures offset == Vec3(0.0, 0.0, 0.0) ==> r == c
  {
    c.(target := Plus(c.target, offset))
  }

  // ---------------------------------------------------------------- wheel

  /** The wheel's effect on the distance: scale by the zoom factor, then clamp. */
  function ZoomDist(dist: real, deltaY: real): (r: real)
    ensures InZoomRange(r)
    ensures deltaY > 0.0 && InZoomRange(dist * ZOOM_OUT_FACTOR) ==> r == dist * ZOOM_OUT_FACTOR
    ensures deltaY <= 0.0 && InZoomRange(dist * ZOOM_IN_FACTOR) ==> r == dist * ZOOM_IN_FACTOR
    ensures InZoomRange(dist) && deltaY > 0.0 ==> r >= dist
    ensures InZoomRange(dist) && deltaY <= 0.0 ==> r <= dist
  {
    if deltaY > 0.0 then Clamp(MIN_DIST, MAX_DIST, dist * ZOOM_OUT_FACTOR)
    else Clamp(MIN_DIST, MAX_DIST, dist * ZOOM_IN_FACTOR)
  }

  /** The `wheel` handler. With the secondary (right) button held, the camera
      is first forced straight down; then the distance is scaled and clamped. */
  function Zoom(c: Orbit, deltaY: real, rmbDown: bool): (r: Orbit)
    ensures InZoomRange(r.dist)
    ensures deltaY > 0.0 && InZoomRange(c.dist * ZOOM_OUT_FACTOR) ==> r.dist == c.dist * ZOOM_OUT_FACTOR
    ensures deltaY <= 0.0 && InZoomRange(c.dist * ZOOM_IN_FACTOR) ==> r.dist == c.dist * ZOOM_IN_FACTOR
    ensures InZoomRange(c.dist) && deltaY > 0.0 ==> r.dist >= c.dist
    ensures InZoomRange(c.dist) && deltaY <= 0.0 ==> r.dist <= c.dist
    ensures rmbDown ==> r.pitch == TOP_PITCH && NearTop(r.pitch) && !InDragRange(r.pitch)
    ensures !rmbDown ==> r.pitch == c.pitch
    ensures r.yaw == c.yaw && r.target == c.target
  {
    var pitch := if rmbDown then TOP_PITCH else c.pitch;
    c.(pitch := pitch, dist := ZoomDist(c.dist, deltaY))
  }

  /** `n` wheel steps in the same direction without the right button. */
  function ZoomSteps(c: Orbit, deltaY: real, n: nat): Orbit
    decreases n
  {
    if n == 0 then c else ZoomSteps(Zoom(c, deltaY, false), deltaY, n - 1)
  }

  /** The distance after `n` wheel steps in the same direction. */
  function ZoomDistSteps(dist: real, deltaY: real, n: nat): real
    decreases n
  {
    if n == 0 then dist else ZoomDistSteps(ZoomDist(dist, deltaY), deltaY, n - 1)
  }

  /** Wheel steps without the right button move the distance alone. */
  lemma {:induction false} ZoomStepsMoveDistOnly(c: Orbit, deltaY: real, n: nat)
    ensures ZoomSteps(c, deltaY, n) == c.(dist := ZoomDistSteps(c.dist, deltaY, n))
    decreases n
  {
    if n > 0 {
      ZoomStepsMoveDistOnly(Zoom(c, deltaY, false), deltaY, n - 1);
    }
  }

  /** One notch in, from a distance in range, only meets the lower clamp. */
  lemma ZoomInNotch(dist: real, deltaY: real)
    requires InZoomRange(dist)
    requires deltaY <= 0.0
    ensures ZoomDist(dist, deltaY) == Max(MIN_DIST, dist * ZOOM_IN_FACTOR)
  {
  }

  /** One notch out, from a distance in range, only meets the upper clamp. */
  lemma ZoomOutNotch(dist: real, deltaY: real)
    requires InZoomRange(dist)
    requires deltaY > 0.0
    ensures ZoomDist(dist, deltaY) == Min(MAX_DIST, dist * ZOOM_OUT_FACTOR)
  {
  }

  /** Where `n` notches in would take the distance without the clamp. */
  function ZoomInReach(dist: real, n: nat): real
  {
    dist * Pow(ZOOM_IN_FACTOR, n)
  }

  /** Where `n` notches out would take the distance without the clamp. */
  function ZoomOutReach(dist: real, n: nat): real
  {
    dist * Pow(ZOOM_OUT_FACTOR, n)
  }

  lemma ZoomInReachStep(dist: real, d1: real, n: nat)
    requires n > 0
    requires 0.0 <= dist
    requires d1 == Max(MIN_DIST, dist * ZOOM_IN_FACTOR)
    ensures Max(MIN_DIST, ZoomInReach(d1, n - 1)) == Max(MIN_DIST, ZoomInReach(dist, n))
  {
    var f := ZOOM_IN_FACTOR;
    var p := Pow(f, n - 1);
    var pn := Pow(f, n);
    assert pn == f * p;
    PowAntitone(f, 0, n - 1);
    var a := ZoomInReach(d1, n - 1);
    var b := ZoomInReach(dist, n);
    assert a == d1 * p;
    assert b == dist * pn;
    MaxScaleStep(MIN_DIST, dist, f, p, d1, pn, a, b);
  }

  lemma ZoomOutReachStep(dist: real, d1: real, n: nat)
    requires n > 0
    requires 0.0 <= dist
    requires d1 == Min(MAX_DIST, dist * ZOOM_OUT_FACTOR)
    ensures Min(MAX_DIST, ZoomOutReach(d1, n - 1)) == Min(MAX_DIST, ZoomOutReach(dist, n))
  {
    var f := ZOOM_OUT_FACTOR;
    var p := Pow(f, n - 1);
    var pn := Pow(f, n);
    assert pn == f * p;
    PowMonotone(f, 0, n - 1);
    var a := ZoomOutReach(d1, n - 1);
    var b := ZoomOutReach(dist, n);
    assert a == d1 * p;
    assert b == dist * pn;
    MinScaleStep(MAX_DIST, dist, f, p, d1, pn, a, b);
  }

  /** Zooming in `n` notches from a distance in range scales it by 0.89^n,
      held at the lower limit once reached. */
  lemma {:induction false} ZoomInSteps(dist: real, deltaY: real, n: nat)
    requires InZoomRange(dist)
    requires deltaY <= 0.0
    ensures ZoomDistSteps(dist, deltaY, n) == Max(MIN_DIST, ZoomInReach(dist, n))
    decreases n
  {
    if n > 0 {
      var d1 := ZoomDist(dist, deltaY);
      ZoomInNotch(dist, deltaY);
      ZoomInSteps(d1, deltaY, n - 1);
      ZoomInReachStep(dist, d1, n);
    } else {
      assert ZoomInReach(dist, 0) == dist;
    }
  }

  /** Zooming out `n` notches from a distance in range scales it by 1.12^n,
      held at the upper limit once reached. */
  lemma {:induction false} ZoomOutSteps(dist: real, deltaY: real, n: nat)
    requires InZoomRange(dist)
    requires deltaY > 0.0
    ensures ZoomDistSteps(dist, deltaY, n) == Min(MAX_DIST, ZoomOutReach(dist, n))
    decreases n
  {
    if n > 0 {
      var d1 := ZoomDist(dist, deltaY);
      ZoomOutNotch(dist, deltaY);
      ZoomOutSteps(d1, deltaY, n - 1);
      ZoomOutReachStep(dist, d1, n);
    } else {
      assert ZoomOutReach(dist, 0) == dist;
    }
  }

  /** Twenty-nine notches of the wheel reach the limit from anywhere in range,
      and touch nothing but the distance. */
  lemma ZoomSaturates(c: Orbit, deltaY: real, n: nat)
    requires InZoomRange(c.dist)
    requires n >= 29
    ensures deltaY <= 0.0 ==> ZoomSteps(c, deltaY, n) == c.(dist := MIN_DIST)
    ensures deltaY > 0.0 ==> ZoomSteps(c, deltaY, n) == c.(dist := MAX_DIST)
  {
    ZoomStepsMoveDistOnly(c, deltaY, n);
    if deltaY <= 0.0 {
      ZoomInSteps(c.dist, deltaY, n);
      ZoomInReachBelowMin(c.dist, n);
    } else {
      ZoomOutSteps(c.dist, deltaY, n);
      ZoomOutReachAboveMax(c.dist, n);
    }
  }

  lemma ZoomInReachBelowMin(dist: real, n: nat)
    requires InZoomRange(dist)
    requires n >= 29
    ensures ZoomInReach(dist, n) < MIN_DIST
  {
    var p := Pow(ZOOM_IN_FACTOR, n);
    PowAntitone(ZOOM_IN_FACTOR, 29, n);
    ZoomInFactorPow29();
    MulLe(dist, MAX_DIST, p, Pow(ZOOM_IN_FACTOR, 29));
    assert MAX_DIST * Pow(ZOOM_IN_FACTOR, 29) < MIN_DIST;
    assert ZoomInReach(dist, n) == dist * p;
  }

  lemma ZoomOutReachAboveMax(dist: real, n: nat)
    requires InZoomRange(dist)
    requires n >= 29
    ensures ZoomOutReach(dist, n) > MAX_DIST
  {
    var p := Pow(ZOOM_OUT_FACTOR, n);
    PowMonotone(ZOOM_OUT_FACTOR, 29, n);
    ZoomOutFactorPow29();
    MulLe(MIN_DIST, dist, Pow(ZOOM_OUT_FACTOR, 29), p);
    assert MIN_DIST * Pow(ZOOM_OUT_FACTOR, 29) > MAX_DIST;
    assert ZoomOutReach(dist, n) == dist * p;
  }

  lemma ZoomInFactorPow29()
    ensures Pow(ZOOM_IN_FACTOR, 29) < MIN_DIST / MAX_DIST
  {
    var x := ZOOM_IN_FACTOR;
    PowAdd(x, 1, 1);
    PowAdd(x, 2, 2);
    PowAdd(x, 4, 4);
    PowAdd(x, 8, 8);
    PowAdd(x, 16, 8);
    PowAdd(x, 24, 4);
    PowAdd(x, 28, 1);
    assert Pow(x, 2) < 0.7922;
    assert Pow(x, 4) < 0.6275;
    assert Pow(x, 8) < 0.3938;
    assert Pow(x, 16) < 0.1551;
    assert Pow(x, 24) < 0.0611;
    assert Pow(x, 28) < 0.0384;
  }

  lemma ZoomOutFactorPow29()
    ensures Pow(ZOOM_OUT_FACTOR, 29) > MAX_DIST / MIN_DIST
  {
    var x := ZOOM_OUT_FACTOR;
    PowAdd(x, 1, 1);
    PowAdd(x, 2, 2);
    PowAdd(x, 4, 4);
    PowAdd(x, 8, 8);
    PowAdd(x, 16, 8);
    PowAdd(x, 24, 4);
    PowAdd(x, 28, 1);
    assert Pow(x, 2) > 1.2543;
    assert Pow(x, 4) > 1.5733;
    assert Pow(x, 8) > 2.4752;
    assert Pow(x, 16) > 6.126;
    assert Pow(x, 24) > 15.16;
    assert Pow(x, 28) > 23.85;
  }

  // ---------------------------------------------------------------- t key

  /** The `t` key: decides from the pitch alone whether the camera is top-down,
      and flips the pitch between the orbital and the top-down value. */
  function KeyT(c: Orbit): (r: Orbit)
    ensures r.yaw == c.yaw && r.dist == c.dist && r.target == c.target
    ensures NearTop(r.pitch) <==> !NearTop(c.pitch)
    ensures NearTop(c.pitch) ==> r.pitch == ORBITAL_PITCH
    ensures !NearTop(c.pitch) ==> r.pitch == TOP_PITCH
  {
    c.(pitch := if NearTop(c.pitch) then ORBITAL_PITCH else TOP_PITCH)
  }

  /** After the first press the key alternates between exactly two pitches. */
  lemma KeyTPeriodTwo(c: Orbit)
    ensures KeyT(KeyT(KeyT(c))) == KeyT(c)
    ensures KeyT(c).pitch == ORBITAL_PITCH || KeyT(c).pitch == TOP_PITCH
  {
  }

  // ---------------------------------------------------------------- button

  /** The camera together with `__topView` and `__savedOrbit`. */
  datatype Rig = Rig(cam: Orbit, topView: bool, saved: Option<Orbit>)

  /** The state script.js starts in. */
  const INITIAL_RIG: Rig := Rig(HOME, false, None)

  /** The snapshot is present whenever the flag says "top view". */
  predicate SnapshotHeld(r: Rig)
  {
    r.topView ==> r.saved.Some?
  }

  /** `topBtn.onclick`. Entering top view saves the whole camera (the target
      is cloned, so later pans cannot reach the copy) and changes only the
      pitch; leaving restores the snapshot, or the home camera when there is
      none. Leaving does not clear the snapshot. */
  function TopButton(r: Rig): (r': Rig)
    ensures r'.topView == !r.topView
    ensures SnapshotHeld(r')
    ensures !r.topView ==> r'.saved == Some(r.cam)
    ensures !r.topView ==> r'.cam == r.cam.(pitch := TOP_PITCH) && NearTop(r'.cam.pitch)
    ensures r.topView ==> r'.saved == r.saved
    ensures r.topView && r.saved.Some? ==> r'.cam == r.saved.value
    ensures r.topView && r.saved.None? ==> r'.cam == HOME
  {
    if !r.topView then
      Rig(r.cam.(pitch := TOP_PITCH), true, Some(r.cam))
    else
      var back := match r.saved
        case Some(s) => s
        case None => HOME;
      Rig(back, false, r.saved)
  }

  /** Entering and then leaving top view puts every camera field back; the
      only trace left is the snapshot itself. */
  lemma EnterLeaveRestores(r: Rig)
    requires !r.topView
    ensures TopButton(TopButton(r)).cam == r.cam
    ensures TopButton(TopButton(r)).topView == r.topView
    ensures TopButton(TopButton(r)) == r.(saved := Some(r.cam))
  {
  }

  /** Leaving and re-entering top view forgets whatever was done to the
      camera while in it: only the snapshot's yaw, distance and target survive. */
  lemma LeaveEnterForgetsTopViewEdits(r1: Rig, r2: Rig)
    requires r1.topView && r2.topView
    requires r1.saved == r2.saved
    ensures TopButton(TopButton(r1)) == TopButton(TopButton(r2))
    ensures r1.saved.Some? ==>
              TopButton(TopButton(r1)).cam == r1.saved.value.(pitch := TOP_PITCH)
  {
  }
}
