/**
 * The program itself (Materials/CourseProject.cpp): its globals as the fields
 * of one object, the event handlers and `main`'s loop as methods that update
 * them in place, and the GL context the loop draws on.  Each method is proved
 * against the function of module Input that describes it.
 */
module Demo {
  import opened GlModel
  import opened Frame
  import opened Texture
  import opened Input

  /**
   * initGL's calls into GL as far as the model tracks them (lines 257-279):
   * the four texture loads, then `gCubeShader.use()`.
   */
  function InitCommands(diffuse: Decoded, specular: Decoded, glass: Decoded, window: Decoded): seq<Command>
  {
    LoadCommands(DiffuseMap, diffuse) + LoadCommands(SpecularMap, specular)
    + LoadCommands(GlassMap, glass) + LoadCommands(WindowMap, window) + [UseProgram(CubeShader)]
  }

  /** The state initGL leaves the context in, whatever the decoder made of the four files. */
  const AfterInit := Initial.(program := CubeShader, unit0 := WindowMap)

  /**
   * Started on texture unit 0, initGL only binds textures there (a failed
   * load binds too) and selects the cube shader: the last texture bound, the
   * window map, stays on unit 0 and nothing else changes; no draw is made.
   */
  lemma InitEffect(s: State, diffuse: Decoded, specular: Decoded, glass: Decoded, window: Decoded)
    requires s.activeUnit == Unit0
    ensures Exec(s, InitCommands(diffuse, specular, glass, window)) == s.(program := CubeShader, unit0 := WindowMap)
    ensures DrawLog(s, InitCommands(diffuse, specular, glass, window)) == []
  {
    var a := LoadCommands(DiffuseMap, diffuse);
    var b := LoadCommands(SpecularMap, specular);
    var c := LoadCommands(GlassMap, glass);
    var d := LoadCommands(WindowMap, window);
    LoadEffect(s, DiffuseMap, diffuse);
    LoadEffect(s.(unit0 := DiffuseMap), SpecularMap, specular);
    LoadEffect(s.(unit0 := SpecularMap), GlassMap, glass);
    LoadEffect(s.(unit0 := GlassMap), WindowMap, window);
    ExecAppend(s, a, b);
    ExecAppend(s, a + b, c);
    ExecAppend(s, a + b + c, d);
    ExecAppend(s, a + b + c + d, [UseProgram(CubeShader)]);
  }

  /**
   * The program's first frame starts where initGL leaves the context, with
   * the depth test off and depth function LESS, so its opaque pass is drawn
   * untested.
   */
  lemma FirstFrameAfterInit(diffuse: Decoded, specular: Decoded, glass: Decoded, window: Decoded)
    ensures var s := Exec(Initial, InitCommands(diffuse, specular, glass, window));
      !s.depthTest && s.depthFunc == Less
      && var d := DrawLog(s, FrameCommands());
      |d| == 11 && forall i | 0 <= i < 3 :: !d[i].state.depthTest && d[i].state.depthFunc == Less
  {
    InitEffect(Initial, diffuse, specular, glass, window);
    FirstFrameOpaqueUntested(Exec(Initial, InitCommands(diffuse, specular, glass, window)));
  }

  class Demo {
    var firstMouse: bool
    var lastX: real
    var lastY: real
    var lightPos: Vec3
    var deltaTime: real
    var lastFrame: real
    /** main's local `quit`, kept with the globals the loop shares with it. */
    var quit: bool
    /** The calls made to the camera so far. */
    var cameraCalls: seq<CameraCall>
    const gl: Gl

    /** The globals as a value. */
    function Snapshot(): Globals
      reads this
    {
      Globals(firstMouse, lastX, lastY, lightPos, deltaTime, lastFrame, quit, cameraCalls)
    }

    /**
     * Program start-up as far as the model goes: the globals take their
     * initial values, and initGL loads the four textures on a fresh context
     * (what the decoder makes of each file is given) and selects the cube
     * shader, leaving the context in `AfterInit`.
     */
    constructor (diffuse: Decoded, specular: Decoded, glass: Decoded, window: Decoded)
      ensures Snapshot() == Startup
      ensures gl.origin == Initial
      ensures gl.trace == InitCommands(diffuse, specular, glass, window)
      ensures gl.Current() == AfterInit
    {
      firstMouse := true;
      lastX := -1.0;
      lastY := -1.0;
      lightPos := Vec3(1.3, 2.0, 3.0);
      deltaTime := 0.0;
      lastFrame := 0.0;
      quit := false;
      cameraCalls := [];
      var context := new Gl(Initial);
      gl := context;
      new;
      LoadTextures(gl, diffuse, specular, glass, window);
      gl.Issue(UseProgram(CubeShader));
      InitEffect(Initial, diffuse, specular, glass, window);
    }

    /** HandleKeyDown (lines 134-163). */
    method HandleKeyDown(key: Key)
      modifies this
      ensures Snapshot() == OnKeyDown(old(Snapshot()), key)
    {
      match key {
        case Up => cameraCalls := cameraCalls + [ProcessKeyboard(Forward, deltaTime)];
        case Down => cameraCalls := cameraCalls + [ProcessKeyboard(Backward, deltaTime)];
        case LeftArrow => cameraCalls := cameraCalls + [ProcessKeyboard(Left, deltaTime)];
        case RightArrow => cameraCalls := cameraCalls + [ProcessKeyboard(Right, deltaTime)];
        case KeyS => lightPos := lightPos.(y := lightPos.y - LightStep);
        case KeyW => lightPos := lightPos.(y := lightPos.y + LightStep);
        case KeyA => lightPos := lightPos.(x := lightPos.x - LightStep);
        case KeyD => lightPos := lightPos.(x := lightPos.x + LightStep);
        case _ =>
      }
    }

    /** HandleMouseMotion (lines 165-179). */
    method HandleMouseMotion(x: int, y: int)
      modifies this
      ensures Snapshot() == OnMouseMotion(old(Snapshot()), x, y)
    {
      if firstMouse {
        lastX := x as real;
        lastY := y as real;
        firstMouse := false;
      } else {
        cameraCalls := cameraCalls + [ProcessMouseMovement(x as real - lastX, lastY - y as real)];
        lastX := x as real;
        lastY := y as real;
      }
    }

    /** HandleMouseWheel (lines 181-184). */
    method HandleMouseWheel(y: int)
      modifies this
      ensures Snapshot() == OnMouseWheel(old(Snapshot()), y)
    {
      cameraCalls := cameraCalls + [ProcessMouseScroll(y as real)];
    }

    /** One pass of the event loop's body (lines 81-105). */
    method HandleEvent(e: Event)
      modifies this
      ensures Snapshot() == OnEvent(old(Snapshot()), e)
    {
      if e.QuitEvent? {
        quit := true;
      }
      match e {
        case QuitEvent =>
          quit := true;
        case KeyDown(k) =>
          if k == Escape {
            quit := true;
          } else {
            HandleKeyDown(k);
          }
        case MouseMotion(x, y) =>
          HandleMouseMotion(x, y);
        case MouseWheel(y) =>
          HandleMouseWheel(y);
        case OtherEvent =>
      }
    }

    /** The event loop (lines 78-106): every queued event is handled, in order. */
    method PollEvents(events: seq<Event>)
      modifies this
      ensures Snapshot() == OnEvents(old(Snapshot()), events)
    {
      var i := 0;
      while i < |events|
        invariant 0 <= i <= |events|
        invariant Snapshot() == OnEvents(old(Snapshot()), events[..i])
      {
        HandleEvent(events[i]);
        assert events[..i + 1][..i] == events[..i];
        i := i + 1;
      }
      assert events[..i] == events;
    }

    /** Lines 73-75. */
    method Tick(ticks: Ticks)
      modifies this
      ensures Snapshot() == OnTick(old(Snapshot()), ticks)
    {
      var currentFrame := ticks as real / 1000.0;
      deltaTime := currentFrame - lastFrame;
      lastFrame := currentFrame;
    }

    /**
     * The main loop (lines 70-127), fed one FrameInput per iteration for as
     * long as there are any.  Each iteration reads the clock, handles the
     * queued events and draws a frame; the loop stops once `quit` is set.
     * It returns how many frames it drew: the globals and the camera calls
     * end as RunFrom says, the context has received that many frames'
     * commands, and after at least one frame it is in the state `Steady`.
     */
    method Run(frames: seq<FrameInput>) returns (rendered: nat)
      modifies this, gl
      ensures rendered == FramesRun(old(Snapshot()), frames)
      ensures Snapshot() == RunFrom(old(Snapshot()), frames)
      ensures gl.trace == old(gl.trace) + Repeat(FrameCommands(), rendered)
      ensures rendered >= 1 ==> gl.Current() == Steady
    {
      rendered := 0;
      while !quit && rendered < |frames|
        invariant rendered <= |frames|
        invariant RunFrom(Snapshot(), frames[rendered..]) == RunFrom(old(Snapshot()), frames)
        invariant rendered + FramesRun(Snapshot(), frames[rendered..]) == FramesRun(old(Snapshot()), frames)
        invariant gl.trace == old(gl.trace) + Repeat(FrameCommands(), rendered)
        invariant rendered >= 1 ==> gl.Current() == Steady
        decreases |frames| - rendered
      {
        RunStep(Snapshot(), frames, rendered);
        Tick(frames[rendered].ticks);
        PollEvents(frames[rendered].events);
        RenderFrame(gl);
        RepeatOnceMore(old(gl.trace), FrameCommands(), rendered);
        rendered := rendered + 1;
      }
    }
  }
}
