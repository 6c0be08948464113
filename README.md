# A verified model of CourseProject's main loop

`Materials/CourseProject.cpp` is a small SDL/OpenGL demo. It shows a lit scene made of two textured cubes, a light marker, three window quads and a glass cube. The arrow keys, mouse motion and mouse wheel drive a camera, and W/A/S/D move the light. This project models four parts of that program in Dafny and proves properties about them:

- the input side (`input.dfy`, module `Input`): the globals the event handlers share, `HandleKeyDown`, `HandleMouseMotion`, `HandleMouseWheel`, the event switch inside `main`, and the per-frame clock;
- the rendering side:
  - `gl.dfy` (module `GlModel`) is an abstract GL context: the capabilities, blend and depth settings, program, texture units and vertex array the demo changes. It is observed only through the trace of commands it receives.
  - `frame.dfy` (module `Frame`) describes `DrawObject`, `render`, `renderWindow`, `renderGlass` and the state toggles `main` issues around them. Each is given both as the list of commands it issues and as a method that issues them.
- texture loading (`texture.dfy`, module `Texture`): `LoadTexture`'s early failure path and its choice of pixel format, and the four loads made by `initGL`;
- the program object (`demo.dfy`, module `Demo`): the globals are fields of class `Demo.Demo`. The handlers and the main loop are methods that update those fields in place and issue commands on the context. Each method is proved against the function of module `Input` or `Frame` that describes it.

The camera belongs to another file and is not modelled. The calls made to it (`ProcessKeyboard`, `ProcessMouseMovement`, `ProcessMouseScroll`) are recorded in order, with their arguments.

Facts about the program that came out of the proofs:

- `DrawObject` always asks for 36 vertices. The window quad holds only 6, so each of the six window draws per frame reads past the end of its vertex buffer (`Frame.QuadDrawsOverrun`).
- `GL_DEPTH_TEST` is first enabled after `render()`, and `initGL` does not enable it. So the opaque pass of the first frame runs with the depth test off and depth function `GL_LESS` (`Demo.FirstFrameAfterInit`). Every later frame draws everything depth-tested with `GL_LEQUAL` (`Frame.LaterFramesDepthTested`).
- Every frame leaves the context in the same state, whatever state the frame began in (`Frame.FrameEndState`).
- A one- or two-channel image is uploaded as `GL_RGB`, so GL reads more bytes than the decoder returned. The same happens for a three-channel image with more than one row whose width is not a multiple of 4: the program never changes `GL_UNPACK_ALIGNMENT` from 4, so GL pads each row, but the decoder packs rows tight (`Texture.UploadSize`).
- A quit request does not cut the current iteration short. The rest of the queued events are still handled and the frame is still drawn (`Input.QuitDoesNotStopBatch`, `Input.QuitFrameIsLast`). The `SDL_QUIT` check before the `switch` repeats the one inside it and changes nothing (`Input.OnEvent`).

## Model

| member | source | states |
|---|---|---|
| `Input.OnKeyDown` | Materials/CourseProject.cpp:134-163 | Only the camera log and the light change. A camera call is appended exactly for the four arrow keys, in the key's direction, and it carries the current deltaTime. The light moves exactly for W/S/A/D: by +0.2/-0.2 on y for W/S and on x for D/A, and z never changes. |
| `Input.OnMouseMotion` | Materials/CourseProject.cpp:165-179 | The baseline becomes the pointer position and firstMouse becomes false. The first sample makes no camera call. Every later sample appends ProcessMouseMovement(x - lastX, lastY - y), with y inverted. Nothing else changes. |
| `Input.OnEvent` | Materials/CourseProject.cpp:81-105 | `quit` ends up set iff it was set already or the event is SDL_QUIT or Escape. A quit request does nothing else. Any other key goes to HandleKeyDown, motion to HandleMouseMotion and the wheel to HandleMouseWheel. Any other event changes nothing. |
| `Input.EventCallsMade` | Materials/CourseProject.cpp:78-106 | Handling an event only appends to the camera log: at most one call, which is the event's own. |
| `Input.EventCallKinds` | Materials/CourseProject.cpp:134-184 | A wheel event makes exactly ProcessMouseScroll(y). An arrow key makes exactly ProcessKeyboard(direction, deltaTime). No other event makes either kind of call. |
| `Input.EventBaseline` | Materials/CourseProject.cpp:165-179 | Only motion events move the mouse baseline or clear firstMouse, and only they make ProcessMouseMovement calls. After the first sample, the offsets reported are the moves of the baseline. |
| `Input.OnMouseWheel` | Materials/CourseProject.cpp:181-184 | Appends ProcessMouseScroll with the wheel's y and changes nothing else. |
| `Input.OnEvents` | Materials/CourseProject.cpp:78-106 | Handling a batch of events never touches the clock: deltaTime and lastFrame are unchanged. |
| `Input.OnTick` | Materials/CourseProject.cpp:73-75 | lastFrame becomes the tick count in seconds, and deltaTime is exactly the time since the previous lastFrame. Nothing else changes. |
| `Input.BatchQuit` | Materials/CourseProject.cpp:78-106 | After a batch of events, `quit` is set iff it was set before or some event in the batch was SDL_QUIT or Escape. |
| `Input.QuitDoesNotStopBatch` | Materials/CourseProject.cpp:78-106 | Once `quit` is set, the rest of the batch is handled exactly as if it were not. |
| `Input.BatchFirstMouse` | Materials/CourseProject.cpp:165-172 | firstMouse is still true after a batch iff it was true before and the batch held no motion event. |
| `Input.BatchLight` | Materials/CourseProject.cpp:150-161 | After a batch, the light has moved by 0.2 times (D presses - A presses) on x and 0.2 times (W presses - S presses) on y, and z is unchanged. |
| `Input.BatchAppendsCalls` | Materials/CourseProject.cpp:78-106 | The camera log only grows, by at most one call per event, and the earlier calls are kept. |
| `Input.BatchKeyboardCalls` | Materials/CourseProject.cpp:134-149 | The directions of the ProcessKeyboard calls a batch adds are exactly the directions of its arrow keys, in order. |
| `Input.BatchKeyboardDeltaTime` | Materials/CourseProject.cpp:134-149 | Every ProcessKeyboard call in a batch carries the deltaTime computed at the start of that frame. |
| `Input.BatchScrollCalls` | Materials/CourseProject.cpp:181-184 | The ProcessMouseScroll offsets a batch adds are exactly its wheel deltas, in order. |
| `Input.MotionOffsetsTelescope` | Materials/CourseProject.cpp:165-179 | Once the baseline is set, the x offsets sent to the camera during a batch add up to how far the baseline moved in x. The y offsets add up to the opposite of its move in y. |
| `Input.RunStep` | Materials/CourseProject.cpp:70-127 | When `quit` is false and a frame remains, the loop runs one iteration (clock, then events) and carries on from the next frame. |
| `Input.OnFrame` | Materials/CourseProject.cpp:70-106 | An iteration reads the clock once, before the events: lastFrame ends as that tick count in seconds, and deltaTime as the time since the previous lastFrame. |
| `Input.RunFrom` | Materials/CourseProject.cpp:69-127 | The loop stops early only on a quit request: if it ends with `quit` clear, it ran every iteration it was given. |
| `Input.FramesRun` | Materials/CourseProject.cpp:70-127 | The loop never runs more iterations than there are inputs. |
| `Input.QuitFrameIsLast` | Materials/CourseProject.cpp:70-127 | The iteration in which a quit request arrives is the last, and it still completes. |
| `Input.RunClock` | Materials/CourseProject.cpp:73-75 | After n ≥ 1 iterations, lastFrame is the last tick count in seconds. deltaTime is the gap between the last two reads, or the time since the starting lastFrame when n = 1. |
| `Input.DeltaTimeNonnegative` | Materials/CourseProject.cpp:73-75 | If the tick counts never decrease, deltaTime is never negative after a run. |
| `GlModel.ExecAppend` | Materials/CourseProject.cpp:108-123 | Issuing two command lists in turn reaches the state, and makes the draws, of issuing their concatenation. |
| `Frame.DrawObjectEffect` | Materials/CourseProject.cpp:579-584 | DrawObject makes one draw of 36 vertices from the given vertex array, under the state in force, and leaves no vertex array bound. |
| `Frame.RenderEffect` | Materials/CourseProject.cpp:309-371 | render makes three draws from the cube vertex array: two with the cube shader, the diffuse map on unit 0 and the specular map on unit 1, then the light marker with the light shader. It ends with the light shader in use and unit 1 active. |
| `Frame.RenderWindowEffect` | Materials/CourseProject.cpp:415-471 | renderWindow makes three quad draws with the transparent shader and the window texture on unit 0. |
| `Frame.RenderGlassEffect` | Materials/CourseProject.cpp:373-413 | renderGlass makes one cube draw with the transparent shader and the glass texture on unit 0. |
| `Frame.FrameLog` | Materials/CourseProject.cpp:108-123 | A frame started in any state s makes exactly the eleven draws of FrameDraws(s), and the state it ends in is given. |
| `Frame.OpaquePassDraws` | Materials/CourseProject.cpp:108-111 | A frame makes 11 draws. The first three are the two textured cubes and the light marker, with lighting on and blending off; their depth test and depth function are whatever the frame inherited. |
| `Frame.BlendedPassDraws` | Materials/CourseProject.cpp:113-118 | Draws 3-6 are the three windows, then the glass. They are depth-tested and blended with (ONE, ONE_MINUS_SRC_ALPHA), with lighting off and the inherited depth function. |
| `Frame.RedrawRepeatsBlendedPass` | Materials/CourseProject.cpp:120-123 | Draws 7-10 equal draws 3-6 except for lighting on and depth function LEQUAL. |
| `Frame.GlassDrawnTwice` | Materials/CourseProject.cpp:117-123 | A draw of the frame is the glass iff it is draw 6 or draw 10. |
| `Frame.WindowsDrawnTwice` | Materials/CourseProject.cpp:117-122 | A draw of the frame is a window iff it is draw 3-5 or 7-9. |
| `Frame.QuadDrawsOverrun` | Materials/CourseProject.cpp:546-584 | Every draw of a frame asks for 36 vertices. That is within its mesh iff the mesh is the cube, so every quad draw overruns the 6-vertex quad. |
| `Frame.FrameEndState` | Materials/CourseProject.cpp:108-123 | Every frame ends in the same state, Steady, whatever state it started in. |
| `Frame.RepeatEndState` | Materials/CourseProject.cpp:70-127 | Repeating a command list whose end state is a fixed point of it ends in that fixed point. |
| `Frame.RepeatFromFixedPoint` | Materials/CourseProject.cpp:70-127 | In such a repetition every copy after the first makes the same draws as the second. |
| `Frame.RepeatedFrames` | Materials/CourseProject.cpp:70-127 | After n ≥ 1 frames the context is in Steady. The draws are the first frame's followed by n - 1 copies of the second frame's. |
| `Frame.FirstFrameOpaqueUntested` | Materials/CourseProject.cpp:108-113 | A frame that starts with the depth test off and depth function LESS draws its cubes and light marker that way, because depth testing is enabled only after them. |
| `Frame.DepthTestedFrame` | Materials/CourseProject.cpp:108-123 | A frame that starts depth-tested with LEQUAL makes all eleven of its draws that way. |
| `Frame.LaterFramesDepthTested` | Materials/CourseProject.cpp:70-127 | Every frame after the first makes all eleven draws depth-tested with LEQUAL. |
| `Frame.DrawObject` | Materials/CourseProject.cpp:579-584 | Appends DrawObject's three commands to the context's trace. |
| `Frame.Render` | Materials/CourseProject.cpp:309-371 | Appends render's commands to the trace. |
| `Frame.RenderGlass` | Materials/CourseProject.cpp:373-413 | Appends renderGlass's commands to the trace. |
| `Frame.RenderWindow` | Materials/CourseProject.cpp:415-471 | Appends renderWindow's commands to the trace. |
| `Frame.DrawOpaquePass` | Materials/CourseProject.cpp:108-111 | Appends the opaque pass to the trace. |
| `Frame.DrawBlendedPass` | Materials/CourseProject.cpp:113-118 | Appends the first transparent pass to the trace. |
| `Frame.DrawRedrawPass` | Materials/CourseProject.cpp:120-123 | Appends the second transparent pass to the trace. |
| `Frame.RenderFrame` | Materials/CourseProject.cpp:108-123 | Appends one frame's commands to the trace. The context ends in Steady, and the draws added are the eleven of FrameDraws for the state the context was in. |
| `Texture.FormatFor` | Materials/CourseProject.cpp:606-616 | The upload format is RGBA iff the image has 4 channels, and RGB for any other count. |
| `Texture.LoadTexture` | Materials/CourseProject.cpp:587-623 | Returns true iff the image decoded. It always binds the texture first, and it uploads (in the chosen format) and builds mipmaps only for a decoded image. |
| `Texture.LoadTextures` | Materials/CourseProject.cpp:257-272 | The four textures are loaded in turn. Each is attempted whatever became of the earlier ones. |
| `Texture.LoadEffect` | Materials/CourseProject.cpp:589-604 | A load leaves the texture bound to the active unit whether or not the image decoded, changes nothing else and draws nothing. |
| `Texture.FailedLoadUploadsNothing` | Materials/CourseProject.cpp:599-604 | A load issues no upload and no mipmap generation iff decoding failed. |
| `Texture.UploadSize` | Materials/CourseProject.cpp:606-617 | With rows padded to GL_UNPACK_ALIGNMENT (4, never changed), GL never reads less than the decoded w·h·c bytes. It reads exactly that iff the image has 4 channels, or 3 channels and one row or a width that is a multiple of 4. A 1- or 2-channel image is always read past its end. |
| `Texture.RgbaRead` | Materials/CourseProject.cpp:610-617 | An RGBA upload reads exactly w·h·4 bytes. |
| `Texture.RgbRead` | Materials/CourseProject.cpp:613-617 | An RGB upload reads at least w·h·3 bytes, and exactly that iff there is one row or the width is a multiple of 4. |
| `Demo.InitEffect` | Materials/CourseProject.cpp:257-279 | Starting on texture unit 0, initGL's loads and `gCubeShader.use()` leave the cube shader in use and the window map on unit 0 (a failed load binds too), change nothing else and draw nothing. |
| `Demo.FirstFrameAfterInit` | Materials/CourseProject.cpp:108-113 | The state initGL leaves a fresh context in has the depth test off and depth function LESS. So the program's first frame draws its cubes and light marker untested with LESS. |
| `Demo.Demo.constructor` | Materials/CourseProject.cpp:45-54 | The globals start with firstMouse true, lastX = lastY = -1, the light at (1.3, 2.0, 3.0), zero clock and no camera calls. A fresh context receives initGL's four texture loads and the cube shader selection, and ends in AfterInit. |
| `Demo.Demo.HandleKeyDown` | Materials/CourseProject.cpp:134-163 | Updates the fields as OnKeyDown says. |
| `Demo.Demo.HandleMouseMotion` | Materials/CourseProject.cpp:165-179 | Updates the fields as OnMouseMotion says. |
| `Demo.Demo.HandleMouseWheel` | Materials/CourseProject.cpp:181-184 | Appends ProcessMouseScroll(y) to the camera calls. |
| `Demo.Demo.HandleEvent` | Materials/CourseProject.cpp:80-105 | Updates the fields as OnEvent says. |
| `Demo.Demo.PollEvents` | Materials/CourseProject.cpp:78-106 | Handles the queued events in order. The fields end as OnEvents says. |
| `Demo.Demo.Tick` | Materials/CourseProject.cpp:73-75 | Updates the clock fields as OnTick says. |
| `Demo.Demo.Run` | Materials/CourseProject.cpp:64-127 | Runs as many iterations as FramesRun says, and the fields end as RunFrom says. The context receives that many frames' commands, and after at least one frame it is in Steady. |

## Left out

- SDL initialisation, window and context creation, `close()` and `SDL_GL_SwapWindow` are platform I/O and are not modelled.
- The loop's input is a finite list of per-iteration inputs. A run without quit stops when the list ends, and the real loop's unbounded iteration is not modelled.
- `SDL_PollEvent` and `SDL_GetTicks` are given as inputs. Events other than quit, key-down, motion and wheel are one `OtherEvent`.
- Matrices, uniforms and the glm calls are not part of the GL state: `setMat4`, `setVec3`, `setFloat`, the view and projection matrices, and the model transforms that place each object.
- The camera's internals are not modelled (`Camera.h` is not part of this model). Its calls are recorded, but their effects and its reads (`GetViewMatrix`, `Zoom`, `Position`) are not.
- Shader compilation and linking (`Shader.h`) are not modelled. Each program is a name.
- Image decoding (`stbi_load`), vertical flip and `stbi_image_free` are left out. The decoder's result is a parameter that gives the size and channel count or reports failure.
- `glGenTextures`, `glTexParameteri`, buffer and vertex-array creation (`CreateCube`, `CreateSquare`), `glewInit`, `glClearColor` and `glPolygonMode` are not in the trace. Only the vertex counts of the two meshes are kept.
- `GL_LIGHTING` does not exist in the 3.3 core profile the program requests (lines 199-201). There `glEnable(GL_LIGHTING)` and `glDisable(GL_LIGHTING)` raise `GL_INVALID_ENUM` and change nothing. The `lighting` flag records the calls the program makes, not a capability the context has. GL errors are not modelled.
- Uniform settings made in `initGL` (`setInt`, lines 280-281) are not modelled. Of its GL calls, only the texture loads and `gCubeShader.use()` are in the trace.
- `Input.OnTick`: `float` arithmetic is modelled with `real`, so rounding of coordinates, times and the light position is not captured.
- `Input.DeltaTimeNonnegative`: assumes the 32-bit tick counter does not wrap around. After about 49.7 days the source's deltaTime would be negative once.
- `Demo.Demo.Run`: main's local `quit` is a field of the object so that the handlers and the loop share it.
