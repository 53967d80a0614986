/** The camera's input state machine: the pointer bookkeeping of script.js
    (`dragging`, `mode`, `lx`, `ly`, `rmbDown`) together with the camera rig,
    driven by a stream of input events. This is where the reachability facts
    live: what every state reachable from start-up satisfies, and how the
    `t` key and the top-view button come to disagree. */
module Viewer {
  import opened Basics
  import opened Camera

  /** What a drag does, chosen when the pointer goes down. */
  datatype Mode = OrbitMode | PanMode

  datatype Pointer = Pointer(dragging: bool, mode: Mode, lx: real, ly: real, rmbDown: bool)

  datatype View = View(rig: Rig, ptr: Pointer)

  /** The DOM events the camera listens to. The pan branch's world-space
      offset comes with the move event because it is computed by
      trigonometry outside this model. */
  datatype Event =
    | PointerDown(button: int, ctrl: bool, x: real, y: real)
    | PointerUp(button: int)
    | PointerMove(x: real, y: real, panOffset: Vec3)
    | Wheel(deltaY: real)
    | TopButtonClick
    | KeyDown(key: string)

  /** `e.button` of the secondary (right) mouse button. */
  const SECONDARY_BUTTON: int := 2

  const START: View := View(INITIAL_RIG, Pointer(false, OrbitMode, 0.0, 0.0, false))

  /** `e.key.toLowerCase() === 't'`. */
  predicate IsTKey(key: string)
  {
    key == "t" || key == "T"
  }

  /** `pointerdown`: start a drag; the right button or Ctrl makes it a pan. */
  function Down(p: Pointer, button: int, ctrl: bool, x: real, y: real): (r: Pointer)
    ensures r.dragging && r.lx == x && r.ly == y
    ensures r.rmbDown <==> button == SECONDARY_BUTTON
    ensures r.mode == PanMode <==> button == SECONDARY_BUTTON || ctrl
  {
    var pan := button == SECONDARY_BUTTON || ctrl;
    Pointer(true, if pan then PanMode else OrbitMode, x, y, button == SECONDARY_BUTTON)
  }

  /** `pointerup`: any button ends the drag; only the right button clears `rmbDown`. */
  function Up(p: Pointer, button: int): (r: Pointer)
    ensures !r.dragging
    ensures r.rmbDown <==> p.rmbDown && button != SECONDARY_BUTTON
    ensures r.mode == p.mode && r.lx == p.lx && r.ly == p.ly
  {
    p.(dragging := false, rmbDown := if button == SECONDARY_BUTTON then false else p.rmbDown)
  }

  /** `pointermove`: ignored unless dragging; otherwise orbit or pan by the
      movement since the last recorded position, and record the new one. */
  function Move(v: View, x: real, y: real, panOffset: Vec3): (r: View)
    ensures !v.ptr.dragging ==> r == v
    ensures v.ptr.dragging ==> r.ptr == v.ptr.(lx := x, ly := y)
    ensures v.ptr.dragging && v.ptr.mode == OrbitMode ==>
              r.rig.cam == Drag(v.rig.cam, x - v.ptr.lx, y - v.ptr.ly)
    ensures v.ptr.dragging && v.ptr.mode == PanMode ==>
              r.rig.cam == Pan(v.rig.cam, panOffset)
    ensures r.rig.topView == v.rig.topView && r.rig.saved == v.rig.saved
  {
    if !v.ptr.dragging then v
    else
      var dx, dy := x - v.ptr.lx, y - v.ptr.ly;
      var cam := if v.ptr.mode == OrbitMode then Drag(v.rig.cam, dx, dy) else Pan(v.rig.cam, panOffset);
      View(v.rig.(cam := cam), v.ptr.(lx := x, ly := y))
  }

  /** One event. Pointer down and up touch only the pointer bookkeeping, a
      move is `Move`; only the button touches `__topView` and `__savedOrbit`;
      the wheel reads `rmbDown` and the `t` key reads only the pitch. */
  function Step(v: View, e: Event): (r: View)
    ensures e.PointerDown? ==> r == v.(ptr := Down(v.ptr, e.button, e.ctrl, e.x, e.y))
    ensures e.PointerUp? ==> r == v.(ptr := Up(v.ptr, e.button))
    ensures e.PointerMove? ==> r == Move(v, e.x, e.y, e.panOffset)
    ensures e.KeyDown? ==> r.ptr == v.ptr
    ensures !e.TopButtonClick? ==> r.rig.topView == v.rig.topView && r.rig.saved == v.rig.saved
    ensures e.TopButtonClick? ==> r.rig == TopButton(v.rig) && r.ptr == v.ptr
    ensures e.KeyDown? && IsTKey(e.key) ==> r.rig.cam == KeyT(v.rig.cam)
    ensures e.KeyDown? && !IsTKey(e.key) ==> r == v
    ensures e.Wheel? ==> r.rig.cam == Zoom(v.rig.cam, e.deltaY, v.ptr.rmbDown) && r.ptr == v.ptr
  {
    match e
    case PointerDown(button, ctrl, x, y) => v.(ptr := Down(v.ptr, button, ctrl, x, y))
    case PointerUp(button) => v.(ptr := Up(v.ptr, button))
    case PointerMove(x, y, offset) => Move(v, x, y, offset)
    case Wheel(deltaY) => v.(rig := v.rig.(cam := Zoom(v.rig.cam, deltaY, v.ptr.rmbDown)))
    case TopButtonClick => v.(rig := TopButton(v.rig))
    case KeyDown(key) => if IsTKey(key) then v.(rig := v.rig.(cam := KeyT(v.rig.cam))) else v
  }

  /** The events applied one after another. */
  function Run(v: View, es: seq<Event>): View
    decreases |es|
  {
    if |es| == 0 then v else Run(Step(v, es[0]), es[1..])
  }

  /** Pitches the camera can be in: anything an orbit drag allows, or the
      top-down value the wheel, the button and the key set. */
  predicate ReachablePitch(pitch: real)
  {
    InDragRange(pitch) || pitch == TOP_PITCH
  }

  predicate GoodOrbit(c: Orbit)
  {
    ReachablePitch(c.pitch) && InZoomRange(c.dist)
  }

  /** What every state reachable from start-up satisfies. */
  predicate Inv(v: View)
  {
    && GoodOrbit(v.rig.cam)
    && SnapshotHeld(v.rig)
    && (v.rig.saved.Some? ==> GoodOrbit(v.rig.saved.value))
    && (v.ptr.rmbDown ==> v.ptr.mode == PanMode)
  }

  lemma StartInv()
    ensures Inv(START)
  {
  }

  lemma StepKeepsInv(v: View, e: Event)
    requires Inv(v)
    ensures Inv(Step(v, e))
  {
    match e
    case PointerMove(x, y, offset) =>
      if v.ptr.dragging && v.ptr.mode == OrbitMode {
        assert InDragRange(Step(v, e).rig.cam.pitch);
      }
    case _ =>
  }

  lemma {:induction false} RunKeepsInv(v: View, es: seq<Event>)
    requires Inv(v)
    ensures Inv(Run(v, es))
    decreases |es|
  {
    if |es| > 0 {
      StepKeepsInv(v, es[0]);
      RunKeepsInv(Step(v, es[0]), es[1..]);
    }
  }

  /** Whatever the user does, the button's default-values fallback is never
      taken: in top view a snapshot is always there, and leaving restores it.
      The distance stays in range and the pitch is either within the drag
      range or the top-down value. */
  lemma FallbackUnreachable(es: seq<Event>)
    ensures Run(START, es).rig.topView ==> Run(START, es).rig.saved.Some?
    ensures Run(START, es).rig.topView ==>
              TopButton(Run(START, es).rig).cam == Run(START, es).rig.saved.value
    ensures InZoomRange(Run(START, es).rig.cam.dist)
    ensures ReachablePitch(Run(START, es).rig.cam.pitch)
  {
    StartInv();
    RunKeepsInv(START, es);
  }

  /** While the right button is held, a drag pans and never orbits. */
  lemma RightButtonDragPans(es: seq<Event>)
    ensures Run(START, es).ptr.rmbDown ==> Run(START, es).ptr.mode == PanMode
  {
    StartInv();
    RunKeepsInv(START, es);
  }

  /** The `t` key and the button disagree. In orbital view (flag off, camera
      not top-down), `t` turns the camera top-down but leaves the flag off;
      the button then "enters" top view by saving the top-down camera, and the
      next press "restores" that top-down camera: after the three presses the
      camera still looks straight down while the flag says orbital view. */
  lemma KeyThenButtonTwiceStaysTopDown(v: View)
    requires !v.rig.topView
    requires !NearTop(v.rig.cam.pitch)
    ensures Run(v, [KeyDown("t"), TopButtonClick, TopButtonClick]).rig.cam.pitch == TOP_PITCH
    ensures !Run(v, [KeyDown("t"), TopButtonClick, TopButtonClick]).rig.topView
  {
    var es := [KeyDown("t"), TopButtonClick, TopButtonClick];
    var v1 := Step(v, es[0]);
    var v2 := Step(v1, es[1]);
    var v3 := Step(v2, es[2]);
    assert v1.rig.cam.pitch == TOP_PITCH && !v1.rig.topView;
    assert v2.rig.saved == Some(v1.rig.cam);
    assert Run(v, es) == Run(v1, es[1..]);
    assert Run(v1, es[1..]) == Run(v2, es[2..]);
    assert Run(v2, es[2..]) == Run(v3, []);
  }

  /** ... and the other way round: in top view, `t` returns the camera to the
      orbital pitch while the flag still says top view. */
  lemma ButtonThenKeyLeavesFlagOn(v: View)
    requires !v.rig.topView
    ensures Run(v, [TopButtonClick, KeyDown("t")]).rig.topView
    ensures Run(v, [TopButtonClick, KeyDown("t")]).rig.cam.pitch == ORBITAL_PITCH
  {
    var es := [TopButtonClick, KeyDown("t")];
    var v1 := Step(v, es[0]);
    var v2 := Step(v1, es[1]);
    assert NearTop(v1.rig.cam.pitch);
    assert Run(v, es) == Run(v1, es[1..]);
    assert Run(v1, es[1..]) == Run(v2, []);
  }
}
