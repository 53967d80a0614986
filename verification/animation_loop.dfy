/** The simulation clock of the animation loop: `running`, `simDays`, the
    speed multiplier and the timestamp of the previous frame. Each frame
    advances simulated days by elapsed seconds times the speed, but only
    while running; the pause button flips `running`.

    Frame timestamps are milliseconds, as `requestAnimationFrame` hands them
    out; they are inputs to the model, never read from a clock. */
module AnimationLoop {

  datatype Clock = Clock(running: bool, simDays: real, speed: real, last: real)

  /** The loop's state at start-up: running, day zero, the speed input's
      value and the time the page was set up. */
  function Start(speed: real, now: real): (c: Clock)
    ensures c.running && c.simDays == 0.0 && c.speed == speed && c.last == now
  {
    Clock(true, 0.0, speed, now)
  }

  /** `ui.pause.onclick`. */
  function TogglePause(c: Clock): (r: Clock)
    ensures r.running != c.running
    ensures r.simDays == c.simDays && r.speed == c.speed && r.last == c.last
  {
    c.(running := !c.running)
  }

  /** `ui.speed.oninput`, with the parsed value. */
  function SetSpeed(c: Clock, speed: real): (r: Clock)
    ensures r.speed == speed
    ensures r.running == c.running && r.simDays == c.simDays && r.last == c.last
  {
    c.(speed := speed)
  }

  /** Elapsed seconds between two frame timestamps in milliseconds. */
  function Seconds(from: real, to: real): real
  {
    (to - from) / 1000.0
  }

  /** One call of `tick(now)`. */
  function Frame(c: Clock, now: real): (r: Clock)
    ensures r.last == now
    ensures r.running == c.running && r.speed == c.speed
    ensures !c.running ==> r.simDays == c.simDays
    ensures c.running ==> r.simDays - c.simDays == Seconds(c.last, now) * c.speed
  {
    var dt := Seconds(c.last, now);
    c.(simDays := if c.running then c.simDays + dt * c.speed else c.simDays, last := now)
  }

  /** Frames at the given timestamps, one after another. */
  function Frames(c: Clock, times: seq<real>): Clock
    decreases |times|
  {
    if |times| == 0 then c else Frames(Frame(c, times[0]), times[1..])
  }

  /** After a run of frames the clock remembers the last timestamp. */
  lemma {:induction false} FramesLast(c: Clock, times: seq<real>)
    ensures Frames(c, times).last == if |times| == 0 then c.last else times[|times| - 1]
    ensures Frames(c, times).running == c.running && Frames(c, times).speed == c.speed
    decreases |times|
  {
    if |times| > 0 {
      FramesLast(Frame(c, times[0]), times[1..]);
    }
  }

  /** Pausing freezes simulated time: no run of frames moves it. */
  lemma {:induction false} PausedFramesFreeze(c: Clock, times: seq<real>)
    requires !c.running
    ensures Frames(c, times).simDays == c.simDays
    decreases |times|
  {
    if |times| > 0 {
      PausedFramesFreeze(Frame(c, times[0]), times[1..]);
    }
  }

  /** While running, the per-frame increments telescope: a run of frames
      advances simulated time by the whole elapsed time times the speed,
      however the frames are spaced. */
  lemma {:induction false} RunningFramesTelescope(c: Clock, times: seq<real>)
    requires c.running
    ensures Frames(c, times).simDays == c.simDays + Seconds(c.last, Frames(c, times).last) * c.speed
    decreases |times|
  {
    if |times| > 0 {
      var c1 := Frame(c, times[0]);
      RunningFramesTelescope(c1, times[1..]);
      var l := Frames(c, times).last;
      assert Frames(c, times) == Frames(c1, times[1..]);
      TelescopeArith(c.simDays, c1.simDays, Frames(c, times).simDays, c.last, times[0], l, c.speed);
    }
  }

  lemma TelescopeArith(s0: real, s1: real, s2: real, t0: real, t1: real, t2: real, speed: real)
    requires s1 == s0 + Seconds(t0, t1) * speed
    requires s2 == s1 + Seconds(t1, t2) * speed
    ensures s2 == s0 + Seconds(t0, t2) * speed
  {
    assert Seconds(t0, t1) + Seconds(t1, t2) == Seconds(t0, t2);
    assert Seconds(t0, t1) * speed + Seconds(t1, t2) * speed == (Seconds(t0, t1) + Seconds(t1, t2)) * speed;
  }

  /** Pressing pause twice changes nothing. */
  lemma PauseTwice(c: Clock)
    ensures TogglePause(TogglePause(c)) == c
  {
  }

  /** The loop's inputs: a frame at a timestamp, the pause button, the speed input. */
  datatype Input = Tick(now: real) | PauseClick | SpeedInput(speed: real)

  function Apply(c: Clock, i: Input): Clock
  {
    match i
    case Tick(now) => Frame(c, now)
    case PauseClick => TogglePause(c)
    case SpeedInput(speed) => SetSpeed(c, speed)
  }

  function Replay(c: Clock, inputs: seq<Input>): Clock
    decreases |inputs|
  {
    if |inputs| == 0 then c else Replay(Apply(c, inputs[0]), inputs[1..])
  }

  /** Timestamps that never go backwards from the clock's last frame, and
      speeds that are never negative. */
  predicate Forward(last: real, inputs: seq<Input>)
    decreases |inputs|
  {
    |inputs| == 0 ||
    match inputs[0]
    case Tick(now) => last <= now && Forward(now, inputs[1..])
    case PauseClick => Forward(last, inputs[1..])
    case SpeedInput(speed) => speed >= 0.0 && Forward(last, inputs[1..])
  }

  /** With time moving forward and no negative speed, simulated time never
      decreases, whatever mixture of frames, pauses and speed changes arrives. */
  lemma {:induction false} SimDaysNeverDecrease(c: Clock, inputs: seq<Input>)
    requires c.speed >= 0.0
    requires Forward(c.last, inputs)
    ensures Replay(c, inputs).simDays >= c.simDays
    decreases |inputs|
  {
    if |inputs| > 0 {
      var c1 := Apply(c, inputs[0]);
      match inputs[0]
      case Tick(now) =>
        assert Seconds(c.last, now) >= 0.0;
        assert Seconds(c.last, now) * c.speed >= 0.0;
        SimDaysNeverDecrease(c1, inputs[1..]);
      case PauseClick =>
        SimDaysNeverDecrease(c1, inputs[1..]);
      case SpeedInput(speed) =>
        SimDaysNeverDecrease(c1, inputs[1..]);
    }
  }
}
