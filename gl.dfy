/**
 * An abstract OpenGL context: the small part of the pipeline state that the
 * demo toggles every frame, the commands that change it, and the log of
 * commands issued so far.  Matrices, uniforms and pixel data are not part of
 * this state (see README.md).
 */
module GlModel {

  /** The capabilities passed to glEnable / glDisable. */
  datatype Capability = Lighting | Blend | DepthTest

  /** The blend factors the demo passes to glBlendFunc, and GL's default destination factor. */
  datatype BlendFactor = Zero | One | OneMinusSrcAlpha

  /** GL_LESS is GL's default depth comparison; the demo switches to GL_LEQUAL. */
  datatype DepthFunction = Less | LEqual

  /** The three shader programs (cube, light marker, transparent panes). */
  datatype Program = NoProgram | CubeShader | LightShader | TransparentShader

  /** GL_TEXTURE0 and GL_TEXTURE1, the only units the demo uses. */
  datatype TextureUnit = Unit0 | Unit1

  /** The four texture names the demo creates, and texture name 0. */
  datatype Texture = NoTexture | DiffuseMap | SpecularMap | GlassMap | WindowMap

  /** Vertex array name 0, gVAO (the 36-vertex cube) and wVAO (the 6-vertex quad). */
  datatype Vao = NoVao | CubeVao | QuadVao

  /** GL_RGB and GL_RGBA. */
  datatype PixelFormat = Rgb | Rgba

  /** One call into GL.  DrawArrays stands for glDrawArrays(GL_TRIANGLES, 0, count). */
  datatype Command =
    | Clear
    | Enable(cap: Capability)
    | Disable(cap: Capability)
    | BlendFunc(src: BlendFactor, dst: BlendFactor)
    | DepthFunc(func: DepthFunction)
    | UseProgram(program: Program)
    | ActiveTexture(unit: TextureUnit)
    | BindTexture(texture: Texture)
    | BindVertexArray(vao: Vao)
    | DrawArrays(count: nat)
    | TexImage2D(format: PixelFormat, width: int, height: int)
    | GenerateMipmap

  /** The observable pipeline state. */
  datatype State = State(
    lighting: bool,
    blend: bool,
    depthTest: bool,
    blendSrc: BlendFactor,
    blendDst: BlendFactor,
    depthFunc: DepthFunction,
    program: Program,
    activeUnit: TextureUnit,
    unit0: Texture,
    unit1: Texture,
    vao: Vao)

  /** The state of a fresh context: every capability off, blend (ONE, ZERO), depth LESS, nothing bound. */
  const Initial := State(false, false, false, One, Zero, Less, NoProgram, Unit0, NoTexture, NoTexture, NoVao)

  /** A draw call as it reaches the pipeline: the bound vertex array, the vertex count and the state in force. */
  datatype Draw = Draw(vao: Vao, count: nat, state: State)

  function WithCapability(s: State, cap: Capability, on: bool): State
  {
    match cap
    case Lighting => s.(lighting := on)
    case Blend => s.(blend := on)
    case DepthTest => s.(depthTest := on)
  }

  /** What one command does to the state. */
  function Apply(s: State, c: Command): State
  {
    match c
    case Clear => s
    case Enable(cap) => WithCapability(s, cap, true)
    case Disable(cap) => WithCapability(s, cap, false)
    case BlendFunc(src, dst) => s.(blendSrc := src, blendDst := dst)
    case DepthFunc(f) => s.(depthFunc := f)
    case UseProgram(p) => s.(program := p)
    case ActiveTexture(u) => s.(activeUnit := u)
    case BindTexture(t) => if s.activeUnit == Unit0 then s.(unit0 := t) else s.(unit1 := t)
    case BindVertexArray(v) => s.(vao := v)
    case DrawArrays(_) => s
    case TexImage2D(_, _, _) => s
    case GenerateMipmap => s
  }

  /** The state reached by issuing `cmds` in order from `s`. */
  function Exec(s: State, cmds: seq<Command>): State
    decreases |cmds|
  {
    if cmds == [] then s else Exec(Apply(s, cmds[0]), cmds[1..])
  }

  /** The draw calls among `cmds`, each with the state in force when it is issued from `s`. */
  function DrawLog(s: State, cmds: seq<Command>): seq<Draw>
    decreases |cmds|
  {
    if cmds == [] then []
    else
      (if cmds[0].DrawArrays? then [Draw(s.vao, cmds[0].count, s)] else [])
      + DrawLog(Apply(s, cmds[0]), cmds[1..])
  }

  /**
   * Issuing two command lists one after the other is issuing their
   * concatenation: the state ends where the second list leaves it, and the
   * draws are those of the first list followed by those of the second, issued
   * from the state the first one left.
   */
  lemma {:induction false} ExecAppend(s: State, a: seq<Command>, b: seq<Command>)
    ensures Exec(s, a + b) == Exec(Exec(s, a), b)
    ensures DrawLog(s, a + b) == DrawLog(s, a) + DrawLog(Exec(s, a), b)
    decreases |a|
  {
    if a == [] {
      assert a + b == b;
    } else {
      assert (a + b)[0] == a[0];
      assert (a + b)[1..] == a[1..] + b;
      ExecAppend(Apply(s, a[0]), a[1..], b);
    }
  }

  /**
   * The GL context, observed through the commands it receives: `trace` is
   * every command issued since the context was created in state `origin`,
   * and the pipeline state is the one that trace leads to.
   */
  class Gl {
    var trace: seq<Command>
    ghost const origin: State

    /** The pipeline state now. */
    ghost function Current(): State
      reads this
    {
      Exec(origin, trace)
    }

    constructor (start: State)
      ensures origin == start && trace == [] && Current() == start
    {
      trace := [];
      origin := start;
    }

    /** Issue one GL call: it is appended to the trace. */
    method Issue(c: Command)
      modifies this
      ensures trace == old(trace) + [c]
    {
      trace := trace + [c];
    }

    /** Issuing `cmds` from the current state leads where executing them says. */
    lemma Extended(before: seq<Command>, cmds: seq<Command>)
      requires trace == before + cmds
      ensures Current() == Exec(Exec(origin, before), cmds)
      ensures DrawLog(origin, trace) == DrawLog(origin, before) + DrawLog(Exec(origin, before), cmds)
    {
      ExecAppend(origin, before, cmds);
    }
  }
}
