/**
 * The input side of the demo: the globals the event handlers keep
 * (Materials/CourseProject.cpp, lines 44-54), the handlers HandleKeyDown,
 * HandleMouseMotion and HandleMouseWheel, the event switch and the timing
 * bookkeeping of `main`, as functions from the globals before to the globals
 * after.  The camera is not modelled: the calls made to it are recorded, in
 * order, in `calls`.  Coordinates, times and the light position are reals.
 */
module Input {

  datatype Vec3 = Vec3(x: real, y: real, z: real)

  /** The camera movement directions ProcessKeyboard takes. */
  datatype Direction = Forward | Backward | Left | Right

  /** A call made to the camera. */
  datatype CameraCall =
    | ProcessKeyboard(direction: Direction, deltaTime: real)
    | ProcessMouseMovement(xoffset: real, yoffset: real)
    | ProcessMouseScroll(yoffset: real)

  /** The keys the demo reacts to; every other key is `OtherKey`. */
  datatype Key = Up | Down | LeftArrow | RightArrow | KeyW | KeyA | KeyS | KeyD | Escape | OtherKey(code: int)

  /** The SDL events the loop distinguishes; every other event is `OtherEvent`. */
  datatype Event = QuitEvent | KeyDown(key: Key) | MouseMotion(x: int, y: int) | MouseWheel(y: int) | OtherEvent

  /** SDL_GetTicks: milliseconds since SDL was initialised, an unsigned 32-bit value. */
  newtype Ticks = t: int | 0 <= t < 0x1_0000_0000

  /** One iteration of the main loop's inputs: the tick count read at its start and the events queued. */
  datatype FrameInput = FrameInput(ticks: Ticks, events: seq<Event>)

  /**
   * The state the input side keeps: the mouse baseline, the light position,
   * the frame clock, main's `quit` flag, and the calls made to the camera so far.
   */
  datatype Globals = Globals(
    firstMouse: bool,
    lastX: real,
    lastY: real,
    lightPos: Vec3,
    deltaTime: real,
    lastFrame: real,
    quit: bool,
    calls: seq<CameraCall>)

  /** How far one key press moves the light along an axis. */
  const LightStep: real := 0.2

  /** Lines 45-54 and 69: the globals when the program starts. */
  const Startup := Globals(true, -1.0, -1.0, Vec3(1.3, 2.0, 3.0), 0.0, 0.0, false, [])

  predicate IsArrow(k: Key)
  {
    k == Up || k == Down || k == LeftArrow || k == RightArrow
  }

  predicate MovesLight(k: Key)
  {
    k == KeyW || k == KeyA || k == KeyS || k == KeyD
  }

  function DirectionOf(k: Key): Direction
    requires IsArrow(k)
  {
    match k
    case Up => Forward
    case Down => Backward
    case LeftArrow => Left
    case RightArrow => Right
  }

  /**
   * HandleKeyDown (lines 134-163).  A key does exactly one thing: an arrow
   * makes one ProcessKeyboard call with the current deltaTime, W/S move the
   * light up/down and D/A right/left by 0.2, and any other key does nothing.
   */
  function OnKeyDown(g: Globals, key: Key): (r: Globals)
    ensures r.(lightPos := g.lightPos, calls := g.calls) == g
    ensures r.calls != g.calls <==> IsArrow(key)
    ensures IsArrow(key) ==> r.calls == g.calls + [ProcessKeyboard(DirectionOf(key), g.deltaTime)]
    ensures r.lightPos != g.lightPos <==> MovesLight(key)
    ensures r.lightPos.x == g.lightPos.x + (if key == KeyD then 0.2 else if key == KeyA then -0.2 else 0.0)
    ensures r.lightPos.y == g.lightPos.y + (if key == KeyW then 0.2 else if key == KeyS then -0.2 else 0.0)
    ensures r.lightPos.z == g.lightPos.z
  {
    match key
    case Up => g.(calls := g.calls + [ProcessKeyboard(Forward, g.deltaTime)])
    case Down => g.(calls := g.calls + [ProcessKeyboard(Backward, g.deltaTime)])
    case LeftArrow => g.(calls := g.calls + [ProcessKeyboard(Left, g.deltaTime)])
    case RightArrow => g.(calls := g.calls + [ProcessKeyboard(Right, g.deltaTime)])
    case KeyS => g.(lightPos := g.lightPos.(y := g.lightPos.y - LightStep))
    case KeyW => g.(lightPos := g.lightPos.(y := g.lightPos.y + LightStep))
    case KeyA => g.(lightPos := g.lightPos.(x := g.lightPos.x - LightStep))
    case KeyD => g.(lightPos := g.lightPos.(x := g.lightPos.x + LightStep))
    case _ => g
  }

  /**
   * HandleMouseMotion (lines 165-179).  The first sample only records the
   * baseline; every later one reports the offset from the previous sample,
   * with the vertical axis inverted.  Afterwards the sample is the baseline.
   */
  function OnMouseMotion(g: Globals, x: int, y: int): (r: Globals)
    ensures !r.firstMouse && r.lastX == x as real && r.lastY == y as real
    ensures r.(firstMouse := g.firstMouse, lastX := g.lastX, lastY := g.lastY, calls := g.calls) == g
    ensures g.firstMouse ==> r.calls == g.calls
    ensures !g.firstMouse ==> r.calls == g.calls + [ProcessMouseMovement(x as real - g.lastX, g.lastY - y as real)]
  {
    if g.firstMouse then
      g.(lastX := x as real, lastY := y as real, firstMouse := false)
    else
      g.(calls := g.calls + [ProcessMouseMovement(x as real - g.lastX, g.lastY - y as real)],
         lastX := x as real, lastY := y as real)
  }

  /** HandleMouseWheel (lines 181-184): the wheel's y is passed on unchanged. */
  function OnMouseWheel(g: Globals, y: int): (r: Globals)
    ensures r.(calls := g.calls) == g
    ensures r.calls == g.calls + [ProcessMouseScroll(y as real)]
  {
    g.(calls := g.calls + [ProcessMouseScroll(y as real)])
  }

  /** The events that end the main loop. */
  predicate RequestsQuit(e: Event)
  {
    e == QuitEvent || e == KeyDown(Escape)
  }

  /** The calls one event makes to the camera: at most one. */
  function EventCalls(g: Globals, e: Event): (cs: seq<CameraCall>)
    ensures |cs| <= 1
  {
    match e
    case KeyDown(k) => if IsArrow(k) then [ProcessKeyboard(DirectionOf(k), g.deltaTime)] else []
    case MouseMotion(x, y) => if g.firstMouse then [] else [ProcessMouseMovement(x as real - g.lastX, g.lastY - y as real)]
    case MouseWheel(y) => [ProcessMouseScroll(y as real)]
    case _ => []
  }

  /**
   * The body of the event loop (lines 81-105), including the check for
   * SDL_QUIT made before the switch as well as inside it.  A quit request
   * sets `quit` and does nothing else; Escape never reaches HandleKeyDown;
   * no other event touches `quit`.
   */
  function OnEvent(g: Globals, e: Event): (r: Globals)
    ensures r.quit <==> g.quit || RequestsQuit(e)
    ensures RequestsQuit(e) ==> r == g.(quit := true)
    ensures e.KeyDown? && e.key != Escape ==> r == OnKeyDown(g, e.key)
    ensures e.MouseMotion? ==> r == OnMouseMotion(g, e.x, e.y)
    ensures e.MouseWheel? ==> r == OnMouseWheel(g, e.y)
    ensures e.OtherEvent? ==> r == g
  {
    var g1 := if e.QuitEvent? then g.(quit := true) else g;
    match e
    case QuitEvent => g1.(quit := true)
    case KeyDown(k) => if k == Escape then g1.(quit := true) else OnKeyDown(g1, k)
    case MouseMotion(x, y) => OnMouseMotion(g1, x, y)
    case MouseWheel(y) => OnMouseWheel(g1, y)
    case OtherEvent => g1
  }

  /** The inner `while (SDL_PollEvent(&e))` loop: the queued events, handled in order. */
  function OnEvents(g: Globals, es: seq<Event>): (r: Globals)
    ensures r.deltaTime == g.deltaTime && r.lastFrame == g.lastFrame
  {
    if es == [] then g else OnEvent(OnEvents(g, es[..|es| - 1]), es[|es| - 1])
  }

  /** Lines 73-75: the clock is read, deltaTime is the time since the last read, which becomes lastFrame. */
  function OnTick(g: Globals, t: Ticks): (r: Globals)
    ensures r.lastFrame == t as real / 1000.0
    ensures r.lastFrame - g.lastFrame == r.deltaTime
    ensures r.(deltaTime := g.deltaTime, lastFrame := g.lastFrame) == g
  {
    var currentFrame := t as real / 1000.0;
    g.(deltaTime := currentFrame - g.lastFrame, lastFrame := currentFrame)
  }

  /**
   * One iteration of the main loop, as far as the globals are concerned: the
   * clock is read once, before the events, and handling them leaves it alone.
   */
  function OnFrame(g: Globals, f: FrameInput): (r: Globals)
    ensures r.lastFrame == f.ticks as real / 1000.0
    ensures r.deltaTime == r.lastFrame - g.lastFrame
  {
    OnEvents(OnTick(g, f.ticks), f.events)
  }

  /**
   * The main loop run over `frames`: an iteration starts only while `quit` is
   * false, so the loop stops early only on a quit request; if it ends with
   * `quit` clear, it ran every iteration it was given.
   */
  function RunFrom(g: Globals, frames: seq<FrameInput>): (r: Globals)
    ensures !r.quit ==> FramesRun(g, frames) == |frames|
    decreases |frames|
  {
    if g.quit || frames == [] then g else RunFrom(OnFrame(g, frames[0]), frames[1..])
  }

  /** The number of iterations, and so of frames drawn, in that run: never more than there are inputs. */
  function FramesRun(g: Globals, frames: seq<FrameInput>): (n: nat)
    ensures n <= |frames|
    decreases |frames|
  {
    if g.quit || frames == [] then 0 else 1 + FramesRun(OnFrame(g, frames[0]), frames[1..])
  }

  // ---------------------------------------------------------------------------
  // Summaries of event lists and camera-call logs

  function KeyCount(es: seq<Event>, k: Key): nat
  {
    if es == [] then 0
    else KeyCount(es[..|es| - 1], k) + (if es[|es| - 1] == KeyDown(k) then 1 else 0)
  }

  /** The directions of the arrow keys pressed, in order. */
  function ArrowDirections(es: seq<Event>): seq<Direction>
  {
    if es == [] then []
    else
      var e := es[|es| - 1];
      ArrowDirections(es[..|es| - 1]) + (if e.KeyDown? && IsArrow(e.key) then [DirectionOf(e.key)] else [])
  }

  /** The wheel movements, in order. */
  function WheelDeltas(es: seq<Event>): seq<real>
  {
    if es == [] then []
    else
      var e := es[|es| - 1];
      WheelDeltas(es[..|es| - 1]) + (if e.MouseWheel? then [e.y as real] else [])
  }

  /** The directions of the ProcessKeyboard calls, in order. */
  function KeyboardDirections(calls: seq<CameraCall>): seq<Direction>
  {
    if calls == [] then []
    else
      var c := calls[|calls| - 1];
      KeyboardDirections(calls[..|calls| - 1]) + (if c.ProcessKeyboard? then [c.direction] else [])
  }

  /** The offsets passed to ProcessMouseScroll, in order. */
  function ScrollOffsets(calls: seq<CameraCall>): seq<real>
  {
    if calls == [] then []
    else
      var c := calls[|calls| - 1];
      ScrollOffsets(calls[..|calls| - 1]) + (if c.ProcessMouseScroll? then [c.yoffset] else [])
  }

  /** The horizontal offsets passed to ProcessMouseMovement, added up. */
  function XOffsetSum(calls: seq<CameraCall>): real
  {
    if calls == [] then 0.0
    else
      var c := calls[|calls| - 1];
      XOffsetSum(calls[..|calls| - 1]) + (if c.ProcessMouseMovement? then c.xoffset else 0.0)
  }

  /** The vertical offsets passed to ProcessMouseMovement, added up. */
  function YOffsetSum(calls: seq<CameraCall>): real
  {
    if calls == [] then 0.0
    else
      var c := calls[|calls| - 1];
      YOffsetSum(calls[..|calls| - 1]) + (if c.ProcessMouseMovement? then c.yoffset else 0.0)
  }

  /** The summaries of a call log with one more call at its end. */
  lemma CallsAppend(calls: seq<CameraCall>, c: CameraCall)
    ensures KeyboardDirections(calls + [c]) == KeyboardDirections(calls) + (if c.ProcessKeyboard? then [c.direction] else [])
    ensures ScrollOffsets(calls + [c]) == ScrollOffsets(calls) + (if c.ProcessMouseScroll? then [c.yoffset] else [])
    ensures XOffsetSum(calls + [c]) == XOffsetSum(calls) + (if c.ProcessMouseMovement? then c.xoffset else 0.0)
    ensures YOffsetSum(calls + [c]) == YOffsetSum(calls) + (if c.ProcessMouseMovement? then c.yoffset else 0.0)
  {
    assert (calls + [c])[..|calls|] == calls;
  }

  /** An event appends its calls to the log, and that is all it does to the log. */
  lemma EventCallsMade(g: Globals, e: Event)
    ensures OnEvent(g, e).calls == g.calls + EventCalls(g, e)
  {
  }

  /** Which event makes which kind of call. */
  lemma EventCallKinds(g: Globals, e: Event)
    ensures e.MouseWheel? ==> EventCalls(g, e) == [ProcessMouseScroll(e.y as real)]
    ensures e.KeyDown? && IsArrow(e.key) ==> EventCalls(g, e) == [ProcessKeyboard(DirectionOf(e.key), g.deltaTime)]
    ensures EventCalls(g, e) != [] && !e.MouseWheel? ==> !EventCalls(g, e)[0].ProcessMouseScroll?
    ensures EventCalls(g, e) != [] && !(e.KeyDown? && IsArrow(e.key)) ==> !EventCalls(g, e)[0].ProcessKeyboard?
  {
  }

  /** Only motion moves the mouse baseline; motion past the first sample reports the offset. */
  lemma EventBaseline(g: Globals, e: Event)
    ensures var r := OnEvent(g, e);
      && (!e.MouseMotion? ==> r.lastX == g.lastX && r.lastY == g.lastY && r.firstMouse == g.firstMouse)
      && (e.MouseMotion? && !g.firstMouse ==>
            EventCalls(g, e) == [ProcessMouseMovement(r.lastX - g.lastX, g.lastY - r.lastY)])
      && (!e.MouseMotion? ==> forall c | c in EventCalls(g, e) :: !c.ProcessMouseMovement?)
  {
  }

  // ---------------------------------------------------------------------------
  // Properties of one batch of events

  /**
   * After a batch, `quit` is set exactly when it was already set or the batch
   * held a quit request.
   */
  lemma {:induction false} BatchQuit(g: Globals, es: seq<Event>)
    ensures OnEvents(g, es).quit <==> g.quit || exists i | 0 <= i < |es| :: RequestsQuit(es[i])
  {
    if es != [] {
      var init := es[..|es| - 1];
      BatchQuit(g, init);
      if exists i | 0 <= i < |init| :: RequestsQuit(init[i]) {
        var i :| 0 <= i < |init| && RequestsQuit(init[i]);
        assert es[i] == init[i];
      }
      if exists i | 0 <= i < |es| :: RequestsQuit(es[i]) {
        var i :| 0 <= i < |es| && RequestsQuit(es[i]);
        if i < |init| {
          assert init[i] == es[i];
        }
      }
    }
  }

  /**
   * `quit` is only read by the outer loop: once it is set, the rest of the
   * batch is handled exactly as if it were not.
   */
  lemma {:induction false} QuitDoesNotStopBatch(g: Globals, es: seq<Event>)
    ensures OnEvents(g.(quit := true), es) == OnEvents(g, es).(quit := true)
  {
    if es != [] {
      QuitDoesNotStopBatch(g, es[..|es| - 1]);
    }
  }

  /**
   * The mouse baseline survives a batch exactly when it was still pending
   * and the batch held no motion: `firstMouse` never becomes true again.
   */
  lemma {:induction false} BatchFirstMouse(g: Globals, es: seq<Event>)
    ensures OnEvents(g, es).firstMouse <==> g.firstMouse && forall i | 0 <= i < |es| :: !es[i].MouseMotion?
  {
    if es != [] {
      var init := es[..|es| - 1];
      BatchFirstMouse(g, init);
      assert forall i | 0 <= i < |init| :: init[i] == es[i];
    }
  }

  /** A batch moves the light by 0.2 per W/S/D/A press, along y for W/S and x for D/A. */
  lemma {:induction false} BatchLight(g: Globals, es: seq<Event>)
    ensures OnEvents(g, es).lightPos
         == Vec3(g.lightPos.x + 0.2 * (KeyCount(es, KeyD) as real - KeyCount(es, KeyA) as real),
                 g.lightPos.y + 0.2 * (KeyCount(es, KeyW) as real - KeyCount(es, KeyS) as real),
                 g.lightPos.z)
  {
    if es != [] {
      BatchLight(g, es[..|es| - 1]);
    }
  }

  /** Camera calls are only ever appended, and a batch makes at most one per event. */
  lemma {:induction false} BatchAppendsCalls(g: Globals, es: seq<Event>)
    ensures var r := OnEvents(g, es);
      && |g.calls| <= |r.calls| <= |g.calls| + |es|
      && r.calls[..|g.calls|] == g.calls
  {
    if es != [] {
      var init := es[..|es| - 1];
      BatchAppendsCalls(g, init);
      var m := OnEvents(g, init);
      var r := OnEvents(g, es);
      assert r.calls == m.calls || r.calls == m.calls + [r.calls[|r.calls| - 1]];
      assert r.calls[..|g.calls|] == m.calls[..|g.calls|];
    }
  }

  /** Each arrow key press makes one ProcessKeyboard call in its direction, in the order pressed, and nothing else does. */
  lemma {:induction false} BatchKeyboardCalls(g: Globals, es: seq<Event>)
    ensures KeyboardDirections(OnEvents(g, es).calls) == KeyboardDirections(g.calls) + ArrowDirections(es)
  {
    if es != [] {
      var init := es[..|es| - 1];
      BatchKeyboardCalls(g, init);
      var m := OnEvents(g, init);
      var e := es[|es| - 1];
      var cs := EventCalls(m, e);
      EventCallsMade(m, e);
      EventCallKinds(m, e);
      var tail := if e.KeyDown? && IsArrow(e.key) then [DirectionOf(e.key)] else [];
      assert ArrowDirections(es) == ArrowDirections(init) + tail;
      if cs != [] {
        assert cs == [cs[0]];
        CallsAppend(m.calls, cs[0]);
      }
    }
  }

  /** Every ProcessKeyboard call a batch makes carries the deltaTime the batch started with. */
  lemma {:induction false} BatchKeyboardDeltaTime(g: Globals, es: seq<Event>)
    ensures var r := OnEvents(g, es);
      forall i | |g.calls| <= i < |r.calls| :: r.calls[i].ProcessKeyboard? ==> r.calls[i].deltaTime == g.deltaTime
  {
    if es != [] {
      var init := es[..|es| - 1];
      BatchKeyboardDeltaTime(g, init);
      BatchAppendsCalls(g, init);
      var m := OnEvents(g, init);
      var e := es[|es| - 1];
      var cs := EventCalls(m, e);
      var r := OnEvents(g, es);
      EventCallsMade(m, e);
      EventCallKinds(m, e);
      forall i | |g.calls| <= i < |r.calls|
        ensures r.calls[i].ProcessKeyboard? ==> r.calls[i].deltaTime == g.deltaTime
      {
        if i < |m.calls| {
          assert r.calls[i] == m.calls[i];
        } else {
          assert r.calls[i] == cs[0];
        }
      }
    }
  }

  /** Each wheel event makes one ProcessMouseScroll call with its y, in order, and nothing else does. */
  lemma {:induction false} BatchScrollCalls(g: Globals, es: seq<Event>)
    ensures ScrollOffsets(OnEvents(g, es).calls) == ScrollOffsets(g.calls) + WheelDeltas(es)
  {
    if es != [] {
      var init := es[..|es| - 1];
      BatchScrollCalls(g, init);
      var m := OnEvents(g, init);
      var e := es[|es| - 1];
      var cs := EventCalls(m, e);
      var tail := if e.MouseWheel? then [e.y as real] else [];
      assert WheelDeltas(es) == WheelDeltas(init) + tail;
      EventCallsMade(m, e);
      EventCallKinds(m, e);
      var added: seq<real>;
      if cs == [] {
        assert m.calls + cs == m.calls;
        added := [];
      } else {
        assert cs == [cs[0]];
        CallsAppend(m.calls, cs[0]);
        added := if cs[0].ProcessMouseScroll? then [cs[0].yoffset] else [];
      }
      assert ScrollOffsets(m.calls + cs) == ScrollOffsets(m.calls) + added;
      assert added == tail;
      assert OnEvents(g, es).calls == m.calls + cs;
    }
  }

  /**
   * Once the baseline is set, the mouse offsets reported during a batch add
   * up to the distance between the baseline before and after it: no motion
   * is lost or counted twice (vertically, with the axis inverted).
   */
  lemma {:induction false} MotionOffsetsTelescope(g: Globals, es: seq<Event>)
    requires !g.firstMouse
    ensures var r := OnEvents(g, es);
      && XOffsetSum(r.calls) - XOffsetSum(g.calls) == r.lastX - g.lastX
      && YOffsetSum(r.calls) - YOffsetSum(g.calls) == g.lastY - r.lastY
  {
    if es != [] {
      var init := es[..|es| - 1];
      MotionOffsetsTelescope(g, init);
      BatchFirstMouse(g, init);
      var m := OnEvents(g, init);
      var e := es[|es| - 1];
      var cs := EventCalls(m, e);
      var r := OnEvents(g, es);
      EventCallsMade(m, e);
      EventBaseline(m, e);
      if cs != [] {
        CallsAppend(m.calls, cs[0]);
      }
    }
  }

  // ---------------------------------------------------------------------------
  // Properties of the main loop

  /** One step of the loop, seen from the `i`-th frame onwards. */
  lemma RunStep(g: Globals, frames: seq<FrameInput>, i: nat)
    requires !g.quit && i < |frames|
    ensures RunFrom(g, frames[i..]) == RunFrom(OnFrame(g, frames[i]), frames[i + 1..])
    ensures FramesRun(g, frames[i..]) == 1 + FramesRun(OnFrame(g, frames[i]), frames[i + 1..])
  {
    assert frames[i..][0] == frames[i];
    assert frames[i..][1..] == frames[i + 1..];
  }

  /**
   * The iteration in which a quit request arrives still finishes: its frame
   * is drawn, and the loop stops after it.
   */
  lemma QuitFrameIsLast(g: Globals, frames: seq<FrameInput>)
    requires !g.quit && frames != [] && OnFrame(g, frames[0]).quit
    ensures FramesRun(g, frames) == 1
    ensures RunFrom(g, frames) == OnFrame(g, frames[0])
  {
  }

  /**
   * After a run of at least one frame, lastFrame is the last tick count read,
   * in seconds, and deltaTime the time between the last two reads; for the
   * first frame that is the time since the clock started counting from
   * `g.lastFrame`.
   */
  lemma {:induction false} RunClock(g: Globals, frames: seq<FrameInput>)
    ensures var n := FramesRun(g, frames);
      var r := RunFrom(g, frames);
      && n <= |frames|
      && (n >= 1 ==> r.lastFrame == frames[n - 1].ticks as real / 1000.0)
      && (n == 1 ==> r.deltaTime == frames[0].ticks as real / 1000.0 - g.lastFrame)
      && (n >= 2 ==> r.deltaTime == (frames[n - 1].ticks as real - frames[n - 2].ticks as real) / 1000.0)
    decreases |frames|
  {
    if !g.quit && frames != [] {
      var h := OnFrame(g, frames[0]);
      var rest := frames[1..];
      RunClock(h, rest);
      BatchAppendsCalls(OnTick(g, frames[0].ticks), frames[0].events);
      var n := FramesRun(g, frames);
      if n >= 2 {
        assert frames[n - 1] == rest[n - 2];
        if n >= 3 {
          assert frames[n - 2] == rest[n - 3];
        } else {
          assert h.lastFrame == frames[0].ticks as real / 1000.0;
        }
      }
    }
  }

  /** While the tick counter does not wrap, time never runs backwards: every deltaTime is nonnegative. */
  lemma DeltaTimeNonnegative(g: Globals, frames: seq<FrameInput>)
    requires forall i, j | 0 <= i < j < |frames| :: frames[i].ticks <= frames[j].ticks
    requires |frames| > 0 ==> g.lastFrame <= frames[0].ticks as real / 1000.0
    ensures RunFrom(g, frames).deltaTime >= 0.0 || FramesRun(g, frames) == 0
  {
    RunClock(g, frames);
  }
}
