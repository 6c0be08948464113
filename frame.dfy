/**
 * The per-frame render sequence: `DrawObject`, `render`, `renderGlass`,
 * `renderWindow` and the state toggles `main` issues around them, each as
 * the list of GL commands it issues (the specification) and as a method
 * that issues them on a context.
 */
module Frame {
  import opened GlModel

  /** Vertices in the meshes uploaded by CreateCube and CreateSquare. */
  function MeshVertexCount(v: Vao): nat
  {
    match v
    case NoVao => 0
    case CubeVao => 36
    case QuadVao => 6
  }

  /** DrawObject: bind the vertex array, draw 36 vertices as triangles, unbind. */
  function DrawObjectCommands(v: Vao): seq<Command>
  {
    [BindVertexArray(v), DrawArrays(36), BindVertexArray(NoVao)]
  }

  /** Select a program, then DrawObject. */
  function DrawWith(p: Program, v: Vao): seq<Command>
  {
    [UseProgram(p)] + DrawObjectCommands(v)
  }

  /** render: clear, two textured cubes with the cube shader, then the light marker. */
  function RenderCommands(): seq<Command>
  {
    [Clear, UseProgram(CubeShader),
     ActiveTexture(Unit0), BindTexture(DiffuseMap),
     ActiveTexture(Unit1), BindTexture(SpecularMap)]
    + DrawObjectCommands(CubeVao)
    + DrawWith(CubeShader, CubeVao)
    + DrawWith(LightShader, CubeVao)
  }

  /** renderGlass: one cube drawn with the transparent shader and the glass texture on unit 0. */
  function RenderGlassCommands(): seq<Command>
  {
    [UseProgram(TransparentShader), ActiveTexture(Unit0), BindTexture(GlassMap)]
    + DrawObjectCommands(CubeVao)
  }

  /** renderWindow: three quads drawn with the transparent shader and the window texture on unit 0. */
  function RenderWindowCommands(): seq<Command>
  {
    [UseProgram(TransparentShader), ActiveTexture(Unit0), BindTexture(WindowMap)]
    + DrawObjectCommands(QuadVao)
    + DrawWith(TransparentShader, QuadVao)
    + DrawWith(TransparentShader, QuadVao)
  }

  /** main, lines 108-109: lighting on, blending off, then render. */
  function OpaquePass(): seq<Command>
  {
    [Enable(Lighting), Disable(Blend)] + RenderCommands()
  }

  /** The transparent objects, windows first: renderWindow then renderGlass. */
  function TransparentObjects(): seq<Command>
  {
    RenderWindowCommands() + RenderGlassCommands()
  }

  /** main, lines 113-118: depth test on, lighting off, blending (ONE, ONE_MINUS_SRC_ALPHA). */
  function BlendedPass(): seq<Command>
  {
    [Enable(DepthTest), Disable(Lighting), Enable(Blend), BlendFunc(One, OneMinusSrcAlpha)]
    + TransparentObjects()
  }

  /** main, lines 120-123: lighting on, depth function LEQUAL, the transparent objects again. */
  function RedrawPass(): seq<Command>
  {
    [Enable(Lighting), DepthFunc(LEqual)] + TransparentObjects()
  }

  /** One iteration of the main loop after the events are handled, up to the buffer swap. */
  function FrameCommands(): seq<Command>
  {
    OpaquePass() + BlendedPass() + RedrawPass()
  }

  /** `n` copies of `xs` in a row: the command lists of `n` frames, or their draws. */
  function Repeat<T>(xs: seq<T>, n: nat): seq<T>
  {
    if n == 0 then [] else Repeat(xs, n - 1) + xs
  }

  /** The state every frame leaves behind, whatever state it started from. */
  const Steady := State(true, true, true, One, OneMinusSrcAlpha, LEqual, TransparentShader, Unit0, GlassMap, SpecularMap, NoVao)

  // ---------------------------------------------------------------------------
  // Which object a draw call renders, as far as the pipeline can tell it apart:
  // the mesh, the program and the textures bound.

  predicate IsCubeDraw(d: Draw)
  {
    d.vao == CubeVao && d.state.program == CubeShader && d.state.unit0 == DiffuseMap && d.state.unit1 == SpecularMap
  }

  predicate IsLightMarkerDraw(d: Draw)
  {
    d.vao == CubeVao && d.state.program == LightShader
  }

  predicate IsWindowDraw(d: Draw)
  {
    d.vao == QuadVao && d.state.program == TransparentShader && d.state.unit0 == WindowMap
  }

  predicate IsGlassDraw(d: Draw)
  {
    d.vao == CubeVao && d.state.program == TransparentShader && d.state.unit0 == GlassMap
  }

  /** Depth-tested, blended with (GL_ONE, GL_ONE_MINUS_SRC_ALPHA). */
  predicate BlendedOver(st: State)
  {
    st.depthTest && st.blend && st.blendSrc == One && st.blendDst == OneMinusSrcAlpha
  }

  // ---------------------------------------------------------------------------
  // The states the draws of a frame run under, for a frame started in `s`

  /** The two textured cubes: lighting on, blending off, cube shader, diffuse map on unit 0, specular map on unit 1. */
  function CubeState(s: State): State
  {
    s.(lighting := true, blend := false, program := CubeShader,
       activeUnit := Unit1, unit0 := DiffuseMap, unit1 := SpecularMap, vao := CubeVao)
  }

  /** The transparent objects' common state in the first transparent pass. */
  function BlendedState(s: State): State
  {
    CubeState(s).(depthTest := true, lighting := false, blend := true, blendSrc := One, blendDst := OneMinusSrcAlpha,
                  program := TransparentShader, activeUnit := Unit0)
  }

  /** The same in the second transparent pass. */
  function RedrawState(s: State): State
  {
    BlendedState(s).(lighting := true, depthFunc := LEqual)
  }

  /** renderWindow's three quads and renderGlass's cube, drawn from a common state `t`. */
  function TransparentDraws(t: State): seq<Draw>
  {
    var w := Draw(QuadVao, 36, t.(unit0 := WindowMap, vao := QuadVao));
    [w, w, w, Draw(CubeVao, 36, t.(unit0 := GlassMap, vao := CubeVao))]
  }

  /**
   * The eleven draws of a frame started in `s`, written out: the two cubes and
   * the light marker, then the transparent objects once blended and once
   * relit with depth function LEQUAL.
   */
  function FrameDraws(s: State): seq<Draw>
  {
    [Draw(CubeVao, 36, CubeState(s)), Draw(CubeVao, 36, CubeState(s)),
     Draw(CubeVao, 36, CubeState(s).(program := LightShader))]
    + TransparentDraws(BlendedState(s)) + TransparentDraws(RedrawState(s))
  }

  // ---------------------------------------------------------------------------
  // What each helper does to the state, and the draws it issues

  lemma DrawObjectEffect(s: State, v: Vao)
    ensures Exec(s, DrawObjectCommands(v)) == s.(vao := NoVao)
    ensures DrawLog(s, DrawObjectCommands(v)) == [Draw(v, 36, s.(vao := v))]
  {
    var cmds := DrawObjectCommands(v);
    var bound := s.(vao := v);
    var tail := [DrawArrays(36), BindVertexArray(NoVao)];
    assert cmds[1..] == tail;
    assert tail[1..] == [BindVertexArray(NoVao)];
    assert Exec(bound, [BindVertexArray(NoVao)]) == s.(vao := NoVao);
    assert DrawLog(bound, [BindVertexArray(NoVao)]) == [];
    assert Exec(bound, tail) == s.(vao := NoVao);
    assert DrawLog(bound, tail) == [Draw(v, 36, bound)];
  }

  lemma DrawWithEffect(s: State, p: Program, v: Vao)
    ensures Exec(s, DrawWith(p, v)) == s.(program := p, vao := NoVao)
    ensures DrawLog(s, DrawWith(p, v)) == [Draw(v, 36, s.(program := p, vao := v))]
  {
    ExecAppend(s, [UseProgram(p)], DrawObjectCommands(v));
    DrawObjectEffect(s.(program := p), v);
  }

  /** Two consecutive command lists whose effects are known. */
  lemma Sequence(s: State, a: seq<Command>, b: seq<Command>, sa: State, da: seq<Draw>, sb: State, db: seq<Draw>)
    requires Exec(s, a) == sa && DrawLog(s, a) == da
    requires Exec(sa, b) == sb && DrawLog(sa, b) == db
    ensures Exec(s, a + b) == sb && DrawLog(s, a + b) == da + db
  {
    ExecAppend(s, a, b);
  }

  /** A setup list followed by DrawObject. */
  lemma SetupThenDraw(s: State, setup: seq<Command>, t: State, v: Vao)
    requires Exec(s, setup) == t && DrawLog(s, setup) == []
    ensures Exec(s, setup + DrawObjectCommands(v)) == t.(vao := NoVao)
    ensures DrawLog(s, setup + DrawObjectCommands(v)) == [Draw(v, 36, t.(vao := v))]
  {
    DrawObjectEffect(t, v);
    Sequence(s, setup, DrawObjectCommands(v), t, [], t.(vao := NoVao), [Draw(v, 36, t.(vao := v))]);
  }

  lemma CubeSetupEffect(s: State)
    ensures Exec(s, [Clear, UseProgram(CubeShader),
                     ActiveTexture(Unit0), BindTexture(DiffuseMap),
                     ActiveTexture(Unit1), BindTexture(SpecularMap)])
         == s.(program := CubeShader, activeUnit := Unit1, unit0 := DiffuseMap, unit1 := SpecularMap)
    ensures DrawLog(s, [Clear, UseProgram(CubeShader),
                        ActiveTexture(Unit0), BindTexture(DiffuseMap),
                        ActiveTexture(Unit1), BindTexture(SpecularMap)]) == []
  {
  }

  /** render, started with lighting on and blending off (as `main` does). */
  lemma RenderEffect(s: State)
    requires s.lighting && !s.blend
    ensures Exec(s, RenderCommands()) == CubeState(s).(program := LightShader, vao := NoVao)
    ensures DrawLog(s, RenderCommands())
         == [Draw(CubeVao, 36, CubeState(s)), Draw(CubeVao, 36, CubeState(s)),
             Draw(CubeVao, 36, CubeState(s).(program := LightShader))]
  {
    var setup := [Clear, UseProgram(CubeShader),
                  ActiveTexture(Unit0), BindTexture(DiffuseMap),
                  ActiveTexture(Unit1), BindTexture(SpecularMap)];
    var c := CubeState(s).(vao := NoVao);
    var cube := Draw(CubeVao, 36, CubeState(s));
    CubeSetupEffect(s);
    SetupThenDraw(s, setup, c.(vao := s.vao), CubeVao);
    var p1 := setup + DrawObjectCommands(CubeVao);
    DrawWithEffect(c, CubeShader, CubeVao);
    Sequence(s, p1, DrawWith(CubeShader, CubeVao), c, [cube], c, [cube]);
    DrawWithEffect(c, LightShader, CubeVao);
    Sequence(s, p1 + DrawWith(CubeShader, CubeVao), DrawWith(LightShader, CubeVao),
             c, [cube, cube], c.(program := LightShader), [Draw(CubeVao, 36, CubeState(s).(program := LightShader))]);
  }

  lemma RenderWindowEffect(s: State)
    ensures Exec(s, RenderWindowCommands())
         == s.(program := TransparentShader, activeUnit := Unit0, unit0 := WindowMap, vao := NoVao)
    ensures var w := s.(program := TransparentShader, activeUnit := Unit0, unit0 := WindowMap, vao := QuadVao);
      DrawLog(s, RenderWindowCommands()) == [Draw(QuadVao, 36, w), Draw(QuadVao, 36, w), Draw(QuadVao, 36, w)]
  {
    var setup := [UseProgram(TransparentShader), ActiveTexture(Unit0), BindTexture(WindowMap)];
    var w := s.(program := TransparentShader, activeUnit := Unit0, unit0 := WindowMap, vao := NoVao);
    var quad := Draw(QuadVao, 36, w.(vao := QuadVao));
    SetupThenDraw(s, setup, w.(vao := s.vao), QuadVao);
    var p1 := setup + DrawObjectCommands(QuadVao);
    DrawWithEffect(w, TransparentShader, QuadVao);
    Sequence(s, p1, DrawWith(TransparentShader, QuadVao), w, [quad], w, [quad]);
    Sequence(s, p1 + DrawWith(TransparentShader, QuadVao), DrawWith(TransparentShader, QuadVao), w, [quad, quad], w, [quad]);
  }

  lemma RenderGlassEffect(s: State)
    ensures Exec(s, RenderGlassCommands())
         == s.(program := TransparentShader, activeUnit := Unit0, unit0 := GlassMap, vao := NoVao)
    ensures DrawLog(s, RenderGlassCommands())
         == [Draw(CubeVao, 36, s.(program := TransparentShader, activeUnit := Unit0, unit0 := GlassMap, vao := CubeVao))]
  {
    var setup := [UseProgram(TransparentShader), ActiveTexture(Unit0), BindTexture(GlassMap)];
    SetupThenDraw(s, setup, s.(program := TransparentShader, activeUnit := Unit0, unit0 := GlassMap), CubeVao);
  }

  /** Three windows, then the glass, all with the transparent shader. */
  lemma TransparentObjectsEffect(s: State)
    ensures Exec(s, TransparentObjects())
         == s.(program := TransparentShader, activeUnit := Unit0, unit0 := GlassMap, vao := NoVao)
    ensures DrawLog(s, TransparentObjects()) == TransparentDraws(s.(program := TransparentShader, activeUnit := Unit0))
  {
    RenderWindowEffect(s);
    var t := s.(program := TransparentShader, activeUnit := Unit0, unit0 := WindowMap, vao := NoVao);
    RenderGlassEffect(t);
    ExecAppend(s, RenderWindowCommands(), RenderGlassCommands());
  }

  lemma OpaquePassEffect(s: State)
    ensures Exec(s, OpaquePass()) == CubeState(s).(program := LightShader, vao := NoVao)
    ensures DrawLog(s, OpaquePass())
         == [Draw(CubeVao, 36, CubeState(s)), Draw(CubeVao, 36, CubeState(s)),
             Draw(CubeVao, 36, CubeState(s).(program := LightShader))]
  {
    var s1 := s.(lighting := true, blend := false);
    assert Exec(s, [Enable(Lighting), Disable(Blend)]) == s1;
    assert CubeState(s1) == CubeState(s);
    RenderEffect(s1);
    ExecAppend(s, [Enable(Lighting), Disable(Blend)], RenderCommands());
  }

  /** The first transparent pass, started where the opaque pass of a frame begun in `s` ends. */
  lemma BlendedPassEffect(s: State)
    ensures var e := CubeState(s).(program := LightShader, vao := NoVao);
      && Exec(e, BlendedPass()) == BlendedState(s).(unit0 := GlassMap, vao := NoVao)
      && DrawLog(e, BlendedPass()) == TransparentDraws(BlendedState(s))
  {
    var e := CubeState(s).(program := LightShader, vao := NoVao);
    var setup := [Enable(DepthTest), Disable(Lighting), Enable(Blend), BlendFunc(One, OneMinusSrcAlpha)];
    var e1 := e.(depthTest := true, lighting := false, blend := true, blendSrc := One, blendDst := OneMinusSrcAlpha);
    assert Exec(e, setup) == e1;
    TransparentObjectsEffect(e1);
    assert e1.(program := TransparentShader, activeUnit := Unit0) == BlendedState(s).(vao := NoVao);
    ExecAppend(e, setup, TransparentObjects());
  }

  /** The second transparent pass, started where the first one ends. */
  lemma RedrawPassEffect(s: State)
    ensures var e := BlendedState(s).(unit0 := GlassMap, vao := NoVao);
      && Exec(e, RedrawPass()) == RedrawState(s).(unit0 := GlassMap, vao := NoVao)
      && DrawLog(e, RedrawPass()) == TransparentDraws(RedrawState(s))
  {
    var e := BlendedState(s).(unit0 := GlassMap, vao := NoVao);
    var setup := [Enable(Lighting), DepthFunc(LEqual)];
    var e1 := e.(lighting := true, depthFunc := LEqual);
    assert Exec(e, setup) == e1;
    TransparentObjectsEffect(e1);
    ExecAppend(e, setup, TransparentObjects());
  }

  /** The whole frame from `s`: its draws pass by pass, and the state it ends in. */
  lemma FrameLog(s: State)
    ensures Exec(s, FrameCommands()) == RedrawState(s).(unit0 := GlassMap, vao := NoVao)
    ensures DrawLog(s, FrameCommands()) == FrameDraws(s)
  {
    OpaquePassEffect(s);
    BlendedPassEffect(s);
    RedrawPassEffect(s);
    ExecAppend(s, OpaquePass(), BlendedPass());
    ExecAppend(s, OpaquePass() + BlendedPass(), RedrawPass());
  }

  // ---------------------------------------------------------------------------
  // Properties of a frame

  /** Relighting a common state relights each of the transparent draws made from it. */
  lemma TransparentDrawsRelit(t: State)
    ensures forall i | 0 <= i < 4 ::
      TransparentDraws(t.(lighting := true, depthFunc := LEqual))[i]
      == TransparentDraws(t)[i].(state := TransparentDraws(t)[i].state.(lighting := true, depthFunc := LEqual))
  {
  }

  // ---------------------------------------------------------------------------
  // The properties below, first for the written-out draw list

  lemma OpaquePassDrawsListed(s: State)
    ensures var d := FrameDraws(s);
      && |d| == 11
      && IsCubeDraw(d[0]) && IsCubeDraw(d[1]) && IsLightMarkerDraw(d[2])
      && forall i | 0 <= i < 3 ::
           d[i].state.lighting && !d[i].state.blend
           && d[i].state.depthTest == s.depthTest && d[i].state.depthFunc == s.depthFunc
  {
  }

  lemma BlendedPassDrawsListed(s: State)
    ensures var d := FrameDraws(s);
      && |d| == 11
      && IsWindowDraw(d[3]) && IsWindowDraw(d[4]) && IsWindowDraw(d[5]) && IsGlassDraw(d[6])
      && forall i | 3 <= i < 7 :: BlendedOver(d[i].state) && !d[i].state.lighting && d[i].state.depthFunc == s.depthFunc
  {
  }

  lemma RedrawRepeatsBlendedPassListed(s: State)
    ensures var d := FrameDraws(s);
      && |d| == 11
      && forall i | 7 <= i < 11 :: d[i] == d[i - 4].(state := d[i - 4].state.(lighting := true, depthFunc := LEqual))
  {
    TransparentDrawsRelit(BlendedState(s));
  }

  lemma GlassDrawnTwiceListed(s: State)
    ensures var d := FrameDraws(s);
      forall i | 0 <= i < |d| :: IsGlassDraw(d[i]) <==> i == 6 || i == 10
  {
  }

  lemma WindowsDrawnTwiceListed(s: State)
    ensures var d := FrameDraws(s);
      forall i | 0 <= i < |d| :: IsWindowDraw(d[i]) <==> 3 <= i < 6 || 7 <= i < 10
  {
  }

  lemma QuadDrawsOverrunListed(s: State)
    ensures var d := FrameDraws(s);
      forall i | 0 <= i < |d| ::
        d[i].count == 36 && (d[i].count <= MeshVertexCount(d[i].vao) <==> d[i].vao == CubeVao)
  {
  }

  /**
   * The opaque pass: the two textured cubes, then the light marker, drawn with
   * lighting on and blending off; the depth test and depth function are as
   * the frame found them.
   */
  lemma OpaquePassDraws(s: State)
    ensures var d := DrawLog(s, FrameCommands());
      && |d| == 11
      && IsCubeDraw(d[0]) && IsCubeDraw(d[1]) && IsLightMarkerDraw(d[2])
      && forall i | 0 <= i < 3 ::
           d[i].state.lighting && !d[i].state.blend
           && d[i].state.depthTest == s.depthTest && d[i].state.depthFunc == s.depthFunc
  {
    FrameLog(s);
    OpaquePassDrawsListed(s);
  }

  /**
   * The first transparent pass: three windows, then the glass, drawn
   * depth-tested, with lighting off and blend function (ONE,
   * ONE_MINUS_SRC_ALPHA); the depth function is as the frame found it.
   */
  lemma BlendedPassDraws(s: State)
    ensures var d := DrawLog(s, FrameCommands());
      && |d| == 11
      && IsWindowDraw(d[3]) && IsWindowDraw(d[4]) && IsWindowDraw(d[5]) && IsGlassDraw(d[6])
      && forall i | 3 <= i < 7 :: BlendedOver(d[i].state) && !d[i].state.lighting && d[i].state.depthFunc == s.depthFunc
  {
    FrameLog(s);
    BlendedPassDrawsListed(s);
  }

  /**
   * The second transparent pass repeats the first draw for draw, with lighting
   * on and depth function LEQUAL and nothing else different (in particular
   * the blend state is the same).
   */
  lemma RedrawRepeatsBlendedPass(s: State)
    ensures var d := DrawLog(s, FrameCommands());
      && |d| == 11
      && forall i | 7 <= i < 11 :: d[i] == d[i - 4].(state := d[i - 4].state.(lighting := true, depthFunc := LEqual))
  {
    FrameLog(s);
    RedrawRepeatsBlendedPassListed(s);
  }

  /** The glass is drawn exactly twice per frame, last in each transparent pass. */
  lemma GlassDrawnTwice(s: State)
    ensures var d := DrawLog(s, FrameCommands());
      forall i | 0 <= i < |d| :: IsGlassDraw(d[i]) <==> i == 6 || i == 10
  {
    FrameLog(s);
    GlassDrawnTwiceListed(s);
  }

  /** The window quad is drawn three times in each transparent pass and nowhere else. */
  lemma WindowsDrawnTwice(s: State)
    ensures var d := DrawLog(s, FrameCommands());
      forall i | 0 <= i < |d| :: IsWindowDraw(d[i]) <==> 3 <= i < 6 || 7 <= i < 10
  {
    FrameLog(s);
    WindowsDrawnTwiceListed(s);
  }

  /**
   * DrawObject asks for 36 vertices whatever it is given: that matches the
   * cube's mesh, but the quad's mesh has only 6, so each of the six window
   * draws of a frame reads past the end of its vertex buffer.
   */
  lemma QuadDrawsOverrun(s: State)
    ensures var d := DrawLog(s, FrameCommands());
      forall i | 0 <= i < |d| ::
        d[i].count == 36 && (d[i].count <= MeshVertexCount(d[i].vao) <==> d[i].vao == CubeVao)
  {
    FrameLog(s);
    QuadDrawsOverrunListed(s);
  }

  /**
   * Every frame ends in the same state, whatever state it began in: every
   * piece of state the model tracks is set during the frame.
   */
  lemma FrameEndState(s: State)
    ensures Exec(s, FrameCommands()) == Steady
  {
    FrameLog(s);
  }

  /** One more copy at the end of a repetition. */
  lemma RepeatOnceMore<T>(prefix: seq<T>, xs: seq<T>, n: nat)
    ensures prefix + Repeat(xs, n) + xs == prefix + Repeat(xs, n + 1)
  {
  }

  /** Repeating a command list whose end state is a fixed point of the list ends in that state. */
  lemma {:induction false} RepeatEndState(s: State, f: seq<Command>, n: nat)
    requires n >= 1
    requires Exec(Exec(s, f), f) == Exec(s, f)
    ensures Exec(s, Repeat(f, n)) == Exec(s, f)
  {
    if n == 1 {
      assert Repeat(f, 1) == f;
    } else {
      RepeatEndState(s, f, n - 1);
      ExecAppend(s, Repeat(f, n - 1), f);
    }
  }

  /**
   * Repeating a command list whose end state is a fixed point of the list:
   * every repetition after the first starts from that end state, so it
   * draws what the second repetition draws.
   */
  lemma {:induction false} RepeatFromFixedPoint(s: State, f: seq<Command>, n: nat)
    requires n >= 1
    requires Exec(Exec(s, f), f) == Exec(s, f)
    ensures Exec(s, Repeat(f, n)) == Exec(s, f)
    ensures DrawLog(s, Repeat(f, n)) == DrawLog(s, f) + Repeat(DrawLog(Exec(s, f), f), n - 1)
  {
    RepeatEndState(s, f, n);
    if n == 1 {
      assert Repeat(f, 1) == f;
      assert Repeat(DrawLog(Exec(s, f), f), 0) == [];
    } else {
      var e := Exec(s, f);
      var later := DrawLog(e, f);
      var head := Repeat(f, n - 1);
      RepeatFromFixedPoint(s, f, n - 1);
      RepeatEndState(s, f, n - 1);
      ExecAppend(s, head, f);
      assert Repeat(later, n - 1) == Repeat(later, n - 2) + later;
      assert DrawLog(s, head + f) == DrawLog(s, head) + later;
    }
  }

  /**
   * Running frames back to back: after the first frame every frame starts
   * from `Steady` and draws what the second frame draws.
   */
  lemma RepeatedFrames(s: State, n: nat)
    requires n >= 1
    ensures Exec(s, Repeat(FrameCommands(), n)) == Steady
    ensures DrawLog(s, Repeat(FrameCommands(), n))
         == DrawLog(s, FrameCommands()) + Repeat(DrawLog(Exec(s, FrameCommands()), FrameCommands()), n - 1)
  {
    FrameEndState(s);
    FrameEndState(Exec(s, FrameCommands()));
    RepeatFromFixedPoint(s, FrameCommands(), n);
  }

  /**
   * A frame begun with the depth test off and depth function LESS (as the
   * program's first frame is: depth testing is first enabled after the opaque
   * pass) draws its cubes and light marker untested with LESS.
   */
  lemma FirstFrameOpaqueUntested(s: State)
    requires !s.depthTest && s.depthFunc == Less
    ensures var d := DrawLog(s, FrameCommands());
      |d| == 11 && forall i | 0 <= i < 3 :: !d[i].state.depthTest && d[i].state.depthFunc == Less
  {
    OpaquePassDraws(s);
  }

  /** A frame that starts depth-tested with LEQUAL draws all eleven of its draws that way. */
  lemma DepthTestedFrame(s: State)
    requires s.depthTest && s.depthFunc == LEqual
    ensures var d := DrawLog(s, FrameCommands());
      forall i | 0 <= i < |d| :: d[i].state.depthTest && d[i].state.depthFunc == LEqual
  {
    OpaquePassDraws(s);
    BlendedPassDraws(s);
    RedrawRepeatsBlendedPass(s);
    var d := DrawLog(s, FrameCommands());
    forall i | 0 <= i < |d| ensures d[i].state.depthTest && d[i].state.depthFunc == LEqual {
      if i < 3 { assert d[i].state.depthTest == s.depthTest && d[i].state.depthFunc == s.depthFunc; }
      else if i < 7 { assert BlendedOver(d[i].state) && d[i].state.depthFunc == s.depthFunc; }
      else { assert d[i] == d[i - 4].(state := d[i - 4].state.(lighting := true, depthFunc := LEqual)); }
    }
  }

  /** Every frame after the first draws all eleven of its draws depth-tested with LEQUAL. */
  lemma LaterFramesDepthTested(t: State)
    ensures var d := DrawLog(Exec(t, FrameCommands()), FrameCommands());
      forall i | 0 <= i < |d| :: d[i].state.depthTest && d[i].state.depthFunc == LEqual
  {
    FrameEndState(t);
    DepthTestedFrame(Exec(t, FrameCommands()));
  }

  // ---------------------------------------------------------------------------
  // The rendering routines, issuing their commands on a context

  /** DrawObject (lines 579-584). */
  method DrawObject(gl: Gl, v: Vao)
    modifies gl
    ensures gl.trace == old(gl.trace) + DrawObjectCommands(v)
  {
    gl.Issue(BindVertexArray(v));
    gl.Issue(DrawArrays(36));
    gl.Issue(BindVertexArray(NoVao));
  }

  /** render (lines 309-371), without the matrices and uniforms. */
  method Render(gl: Gl)
    modifies gl
    ensures gl.trace == old(gl.trace) + RenderCommands()
  {
    gl.Issue(Clear);
    gl.Issue(UseProgram(CubeShader));
    gl.Issue(ActiveTexture(Unit0));
    gl.Issue(BindTexture(DiffuseMap));
    gl.Issue(ActiveTexture(Unit1));
    gl.Issue(BindTexture(SpecularMap));
    DrawObject(gl, CubeVao);
    gl.Issue(UseProgram(CubeShader));
    DrawObject(gl, CubeVao);
    gl.Issue(UseProgram(LightShader));
    DrawObject(gl, CubeVao);
  }

  /** renderGlass (lines 373-413), without the matrices and uniforms. */
  method RenderGlass(gl: Gl)
    modifies gl
    ensures gl.trace == old(gl.trace) + RenderGlassCommands()
  {
    gl.Issue(UseProgram(TransparentShader));
    gl.Issue(ActiveTexture(Unit0));
    gl.Issue(BindTexture(GlassMap));
    DrawObject(gl, CubeVao);
  }

  /** renderWindow (lines 415-471), without the matrices and uniforms. */
  method RenderWindow(gl: Gl)
    modifies gl
    ensures gl.trace == old(gl.trace) + RenderWindowCommands()
  {
    gl.Issue(UseProgram(TransparentShader));
    gl.Issue(ActiveTexture(Unit0));
    gl.Issue(BindTexture(WindowMap));
    DrawObject(gl, QuadVao);
    gl.Issue(UseProgram(TransparentShader));
    DrawObject(gl, QuadVao);
    gl.Issue(UseProgram(TransparentShader));
    DrawObject(gl, QuadVao);
  }

  /** Lines 108-111. */
  method DrawOpaquePass(gl: Gl)
    modifies gl
    ensures gl.trace == old(gl.trace) + OpaquePass()
  {
    gl.Issue(Enable(Lighting));
    gl.Issue(Disable(Blend));
    Render(gl);
  }

  /** Lines 113-118. */
  method DrawBlendedPass(gl: Gl)
    modifies gl
    ensures gl.trace == old(gl.trace) + BlendedPass()
  {
    gl.Issue(Enable(DepthTest));
    gl.Issue(Disable(Lighting));
    gl.Issue(Enable(Blend));
    gl.Issue(BlendFunc(One, OneMinusSrcAlpha));
    RenderWindow(gl);
    RenderGlass(gl);
  }

  /** Lines 120-123. */
  method DrawRedrawPass(gl: Gl)
    modifies gl
    ensures gl.trace == old(gl.trace) + RedrawPass()
  {
    gl.Issue(Enable(Lighting));
    gl.Issue(DepthFunc(LEqual));
    RenderWindow(gl);
    RenderGlass(gl);
  }

  /**
   * The drawing half of one iteration of the main loop (lines 108-123): the
   * frame's commands are appended to the trace; whatever state the context was
   * in, it ends in `Steady`; and the draws issued are the eleven of
   * `FrameDraws`, under the state the context was in.
   */
  method RenderFrame(gl: Gl)
    modifies gl
    ensures gl.trace == old(gl.trace) + FrameCommands()
    ensures gl.Current() == Steady
    ensures DrawLog(gl.origin, gl.trace) == DrawLog(gl.origin, old(gl.trace)) + FrameDraws(old(gl.Current()))
  {
    ghost var before := gl.trace;
    DrawOpaquePass(gl);
    DrawBlendedPass(gl);
    DrawRedrawPass(gl);
    assert gl.trace == before + FrameCommands();
    gl.Extended(before, FrameCommands());
    FrameLog(Exec(gl.origin, before));
  }
}
