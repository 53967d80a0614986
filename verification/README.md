# Solar-System viewer: camera, real scale and clock, in Dafny

This project models three parts of `script.js`, a three.js solar-system
viewer, and proves properties about them:

- **The camera rig.** The orbit camera `cam = {yaw, pitch, dist, target}`,
  the `__topView` flag and the `__savedOrbit` snapshot are the state. The
  inputs that change it are the pointer handlers (orbit drag and pan), the
  wheel zoom (which forces a top-down pitch while the right button is held),
  the "Top View" button and the `t` key. Module `Camera` holds each
  handler's effect on the camera. Module `Viewer` adds the pointer
  bookkeeping (`dragging`, `mode`, `lx`, `ly`, `rmbDown`) and runs streams
  of DOM events. It proves an invariant that every state reachable from
  start-up keeps. It also shows how the `t` key and the button come to
  disagree about whether the view is top-down.
- **Real-scale sizing.** Module `RealScale` models `applyRealScale`, which
  gives a scale to every planet mesh and to the Sun mesh. The Sun is capped
  so that it never reaches Mercury's perihelion. The module also holds the
  shipped planet table and eccentricities.
- **The clock.** Module `AnimationLoop` models the pause button, the speed
  input and the `running`/`simDays` update in `tick`.

Module `Basics` holds `Math.min`, `Math.max`, `Math.abs`, the clamp idiom,
powers, and an `Option` for nullable slots.

Numbers are exact reals. `Math.PI / 2` is the decimal 1.5707963267948966,
which is the value the double prints as. The offset the pan branch adds to
the target comes from trigonometry, so it is a field of the pointer-move
event. Frame timestamps are inputs to the clock model.

Leaving top view restores `__savedOrbit` without clearing it
(script.js:161-178). The snapshot stays until the next time top view is
entered, which overwrites it.

## Model

| member | source | states |
|---|---|---|
| Camera.Drag | script.js:120-123 | An orbit drag turns yaw by 0.005 rad per pixel. Pitch moves by 0.005 rad per pixel but always ends in [-1.45, 1.45]: exactly the moved value when that is in range, the nearer limit otherwise. Distance and target are untouched. |
| Camera.DragUndo | script.js:120-123 | A drag that stays inside the pitch range is undone by the opposite drag. |
| Camera.DragPastLimitIsLossy | script.js:122-123 | The clamp loses information: from pitch 1.4, 20 px down then 20 px up ends at 1.35. |
| Camera.DragPitchMonotone | script.js:122-123 | A larger vertical movement never gives a smaller pitch. |
| Camera.Pan | script.js:124-131 | The pan branch moves only the target. Yaw, pitch and distance are kept. |
| Camera.ZoomDist | script.js:137-138 | A wheel step multiplies the distance by 1.12 (deltaY > 0) or 0.89 (otherwise), then clamps it to [150, 4000]. The result is always in range. From an in-range distance, zooming out never shrinks it and zooming in never grows it. |
| Camera.Zoom | script.js:134-141 | With the right button held, the wheel first sets pitch to -π/2 + 0.001. That pitch is near top-down and outside the drag range. Otherwise pitch is kept. Yaw and target are never touched. |
| Camera.ZoomStepsMoveDistOnly | script.js:134-141 | Any number of wheel steps without the right button changes the distance and nothing else. |
| Camera.ZoomInNotch | script.js:137-138 | From an in-range distance, one step in can only meet the lower limit. |
| Camera.ZoomOutNotch | script.js:137-138 | From an in-range distance, one step out can only meet the upper limit. |
| Camera.ZoomInSteps | script.js:137-138 | n steps in from an in-range distance give max(150, dist·0.89ⁿ). Clamping between steps loses nothing. |
| Camera.ZoomOutSteps | script.js:137-138 | n steps out from an in-range distance give min(4000, dist·1.12ⁿ). |
| Camera.ZoomSaturates | script.js:137-138 | From anywhere in range, 29 or more steps in one direction reach the limit exactly. Every other camera field is unchanged. |
| Camera.ZoomInReachBelowMin | script.js:137-138 | 29 factors of 0.89 bring even 4000 below 150. |
| Camera.ZoomOutReachAboveMax | script.js:137-138 | 29 factors of 1.12 bring even 150 above 4000. |
| Camera.KeyT | script.js:182-188 | The `t` key decides "top-down" from the pitch alone: within 0.05 of -π/2. It flips that verdict by setting pitch to -0.35 or to -π/2 + 0.001. It leaves yaw, distance, target and the top-view flag alone. |
| Camera.KeyTPeriodTwo | script.js:183-186 | After the first press, the key alternates between exactly two pitches. |
| Camera.TopButton | script.js:144-181 | The button flips `__topView`. Entering saves a copy of the whole camera and changes only the pitch. Leaving restores the snapshot, or the defaults (-0.8, -0.35, 1200, origin) when there is none, and keeps the snapshot. Afterwards the flag never says top view without a snapshot. |
| Camera.EnterLeaveRestores | script.js:149-174 | Entering then leaving top view puts every camera field back. Only the snapshot remains. |
| Camera.LeaveEnterForgetsTopViewEdits | script.js:161-178 | Leaving and re-entering top view discards any zoom or pan done while in it. Only the snapshot's yaw, distance and target survive. |
| Viewer.Down | script.js:101-108 | Pointer down starts a drag at the pointer. `rmbDown` is true exactly for button 2. The mode is pan exactly for button 2 or Ctrl. |
| Viewer.Up | script.js:110-114 | Any pointer up ends the drag. Only button 2 clears `rmbDown`. Mode and last position are kept. |
| Viewer.Move | script.js:115-133 | A move is ignored unless dragging. Otherwise it orbits or pans by the movement since the recorded position, then records the new one. It never touches the top-view state. |
| Viewer.Step | script.js:100-188 | Pointer down and pointer up change only the pointer bookkeeping, as `Down` and `Up` do. A move is exactly `Move`. No key touches the pointer. Only the button changes `__topView` and `__savedOrbit`. The wheel reads `rmbDown`. The `t` key (either case) applies the key's effect, and any other key does nothing. |
| Viewer.StartInv | script.js:86-100 | The start-up state satisfies the invariant. |
| Viewer.StepKeepsInv | script.js:100-188 | Every event keeps the invariant: distance in [150, 4000], pitch within the drag range or the top-down value, a snapshot whenever in top view (and itself a good camera), and `rmbDown` implying pan mode. |
| Viewer.RunKeepsInv | script.js:100-188 | Any event stream keeps the invariant. |
| Viewer.FallbackUnreachable | script.js:163-174 | From start-up, no event stream ever reaches the button's default-values fallback. In top view a snapshot is always present and leaving restores it. |
| Viewer.RightButtonDragPans | script.js:105-106 | From start-up, whenever the right button is held the drag mode is pan. |
| Viewer.KeyThenButtonTwiceStaysTopDown | script.js:144-188 | In orbital view: `t`, then the button twice, leaves the camera top-down while `__topView` says orbital view. |
| Viewer.ButtonThenKeyLeavesFlagOn | script.js:144-188 | Entering top view and then pressing `t` puts the camera back at the orbital pitch while `__topView` still says top view. |
| RealScale.BaseRadius | script.js:329 | A planet's mesh radius is its size in Earth radii times 22, but at least 6. |
| RealScale.FindIndex | script.js:380 | `findIndex` returns the first position with the id, or -1 exactly when no entry has it. |
| RealScale.EarthBase | script.js:380-382 | The Earth base radius is the Earth mesh's radius, or the first body's when there is no Earth. |
| RealScale.MercuryAxis | script.js:445 | Mercury's axis in scene units is the table's `a` times 160. It falls back to 0.387 when Mercury is missing or its `a` is 0. |
| RealScale.MaxSunMag | script.js:446-449 | The cap is the slider value at which the Sun's radius, 109 Earth bases times the value, equals 0.58 of Mercury's perihelion. |
| RealScale.PlanetScale | script.js:436-441 | The planet's rendered radius (scale times mesh radius) is its real size in Earth radii times the Earth base times `mag`. |
| RealScale.PlanetScales | script.js:436-442 | The same relation holds for every planet in the table, in order. |
| RealScale.SunScale | script.js:444-457 | The Sun's rendered radius never exceeds 0.58 of Mercury's perihelion. Below the cap it is 109 Earth bases times `mag`. Past the cap it sits exactly at the limit. |
| RealScale.ApplyRealScale | script.js:426-463 | Off: every mesh and the Sun are back to scale 1 and nothing is capped. On: planets follow their real sizes times `mag`, the Sun stays clear of Mercury, and "(limited)" shows exactly when `mag` exceeds the cap. |
| RealScale.PlanetScaleIsMag | script.js:436-441 | A planet whose radius is not raised to the minimum gets scale exactly `mag` when the Earth base is 22. |
| RealScale.ShippedEarthBase | script.js:292-301 | In the shipped table, Earth is at index 2 and its base radius is 22. |
| RealScale.ShippedMercury | script.js:445-447 | In the shipped table, Mercury is first and its perihelion is 0.387·160·(1 - 0.206). |
| RealScale.ShippedPlanetsFollowSlider | script.js:436-442 | With the shipped table, every planet's scale is exactly the slider value. |
| RealScale.ShippedSunClearsMercury | script.js:444-461 | With the shipped constants, the Sun is always drawn strictly inside Mercury's perihelion. The cap is below 0.012, so every slider position from its minimum 0.02 up shows "(limited)". |
| AnimationLoop.Start | script.js:487 | The clock starts running at day zero with the speed input's value. |
| AnimationLoop.TogglePause | script.js:488-491 | The pause button flips `running` and changes nothing else. |
| AnimationLoop.SetSpeed | script.js:492-495 | The speed input sets the speed and nothing else. |
| AnimationLoop.Frame | script.js:529-533 | A frame records its timestamp. While running, simulated days grow by the elapsed seconds times the speed. While paused they stay put. |
| AnimationLoop.FramesLast | script.js:531-532 | After a run of frames, the clock holds the last frame's timestamp. The running flag and speed are unchanged. |
| AnimationLoop.PausedFramesFreeze | script.js:533 | While paused, no run of frames changes simulated time. |
| AnimationLoop.RunningFramesTelescope | script.js:531-533 | While running, frames at any spacing add up to the whole elapsed time times the speed. |
| AnimationLoop.PauseTwice | script.js:488-491 | Pressing pause twice restores the clock. |
| AnimationLoop.SimDaysNeverDecrease | script.js:487-533 | Simulated time never decreases when timestamps do not go backwards and the speed is never negative, whatever mix of frames, pauses and speed changes arrives. |

## Left out

- `updateCamera`: turning yaw, pitch and distance into an eye position is trigonometry on three.js vectors. The camera state it reads is modelled.
- Camera.Pan: the offset that the pan branch computes from yaw, pitch, field of view and window height is a parameter. Only the fact that a pan moves the target alone is stated.
- `setPointerCapture`, `releasePointerCapture` and the `contextmenu` handler: browser plumbing with no effect on the state.
- Button label and title text, the real-scale value label's number formatting, and the FPS counter: DOM text only. The "(limited)" decision is modelled as `capped`.
- Planet positions in `tick` (ellipses, `applyEuler`, random start phases), orbit lines, labels, textures, lights and resize: rendering, not state.
- The search for the Sun mesh via `scene.traverse`: the Sun mesh is assumed found, with radius 30. If it is missing, the source skips the Sun's scale.
- RealScale.ApplyRealScale: `parseFloat` of the slider and `isFinite` guards are not modelled. `mag` is a real number, so NaN and infinities do not arise.
- The slider bounds 0.02 to 1.00 are browser-enforced. They are used only in RealScale.ShippedSunClearsMercury.
- The checkbox and slider handlers only store the input and call `applyRealScale`, which is modelled for any inputs.
- The input-blocking script at the top of script.js (context menu, long press, drag and select, clipboard, developer-tool shortcuts, and modified clicks): it is not modelled. Its capture-phase `click` filter drops middle-button clicks and clicks with Ctrl, Shift or Meta held before they reach the Top View and pause buttons. So the model's `TopButtonClick` and `PauseClick` stand for unmodified clicks only. Its key filter never stops a plain `t`.
- IEEE-754 rounding: all arithmetic is exact, so `-Math.PI / 2 + 1e-3` and the repeated zoom products are exact reals.
