# Box2D debug-draw adapter

This project models the debug-draw adapter `DebugDraw` in `Box2D/src/DebugDraw.js`. The adapter connects Box2D's debug-draw callbacks to the Lemon renderer. It owns one `Lemon.Geometry` buffer. Each primitive (segment, polygon, circle, body axes) overwrites that buffer and then submits it through `drawMesh`.

`drawMesh` works in three steps:

1. It binds the debug program. If the bind answers -1, it stops there.
2. It uploads the camera matrix, but only on a fresh bind (answer 1). It then always uploads the colour, sets the alpha blend mode and binds the geometry.
3. It issues one indexed draw for each set bit of the mode mask, in this order: triangle fan, line loop, points.

The files:

- `geometry.dfy` (module `Geometry`): Box2D points and colours. It defines the flat `[x0, y0, x1, y1, ...]` position layout (`Flatten`), the sequential index list (`Range`) and the well-formedness of a buffer.
- `render.dfy` (module `Render`): the renderer side.
  - `GeometryBuffer` is a class whose `format`, `positions` and `indices` are overwritten in place.
  - `RenderApi` is a class that records, in order, every command it receives, as a trace of `Command` values.
- `submission.dfy` (module `Submission`): `DrawingModes` and `drawMesh` as a function of its inputs (`MeshCommands`), plus what that command sequence promises:
  - the gate on the bind status;
  - the camera upload exactly on a fresh bind;
  - colour, blend mode and geometry in that order;
  - one draw per mode bit;
  - each stage at most once and in stage order.
- `shapes.dfy` (module `Shapes`): the circle ring (16 vertices, vertex i at the angle `theta` reaches after i steps of `2π/16`) and the local `transform` of `drawAxes`, with their geometric properties. `Math.PI`, `Math.cos` and `Math.sin` stay uninterpreted: they are fields of a `MathLib` value.
- `debug_draw.dfy` (module `Box2DDebugDraw`): the `DebugDraw` class.
  - Its fields are the render API, the geometry buffer, the flag word and the blend preset.
  - `DrawMesh` and each primitive are proved to leave exactly the specified buffer and to append exactly the specified commands to the trace.
  - The `for` loops of `drawPolygon` and `drawCircle` are the methods `PolygonPositions`, `CirclePositions` and `IndexList`, each proved against a specification function.

The status that the render API's `setProgram` answers is not computed by the adapter. Every submitting method therefore takes it as a parameter, and `DrawAxes`/`DrawTransform` take one per submission.

The source has five defects. The model follows the evidently intended behaviour and marks each place with a comment:

- Line 43: the segment callback passes the undefined `vert1` and `vert2`. This line is part of the callback wiring, which is left out.
- Line 88: `drawSegment` reads the end point through the raw `vert2` instead of the unwrapped `vert2V`. The model uses the point itself.
- Line 90: `drawSegment` passes the misspelt `DrawingModes.Line` and an undeclared `indices`. The model submits `Lines` with index count 2.
- Line 182: the X axis is submitted as `drawMesh(2, [0.75, 0, 0])`, with the index count missing. The model submits `Lines`, index count 2 and colour `[0.75, 0, 0]`.
- Line 185: the Y axis is submitted with the misspelt `DrawingModes.Line`. See "## Findings".

The constructor sets the flag word `0x0001 + 0x0010 + 0x0008`, kept as written. In Box2D's flag layout these are the shape, pair and centre-of-mass bits. The comment beside them says "solids only". The model follows the code.

`drawAxes` applies its local `transform` to the body position itself as well as to the axis ends. The segments therefore start at the rotated position `transform(x, y)`, not at `(x, y)`: where cos = 0 and sin = 1, a body at (2, 3) gets its axes at (3, -2). The model follows the code here too.

## Model

| member | source | states |
|---|---|---|
| Geometry.ColorArrayInjective | Box2D/src/DebugDraw.js:118 | The `[r, g, b]` array uploaded for a colour determines the colour: two colours give the same array if and only if they are equal. |
| Geometry.Flatten | Box2D/src/DebugDraw.js:103-109 | The position array of n vertices has length 2n. Slots 2i and 2i+1 hold vertex i's x and y, in input order. |
| Geometry.FlattenSnoc | Box2D/src/DebugDraw.js:107-108 | Appending one vertex appends exactly its two coordinates to the position array. |
| Geometry.FlattenPair | Box2D/src/DebugDraw.js:181 | A two-point buffer is `[a.x, a.y, b.x, b.y]`. |
| Geometry.UnflattenFlatten | Box2D/src/DebugDraw.js:103-110 | Reading back a flattened buffer with the two-float position format recovers exactly the vertex list. |
| Geometry.FlattenUnflatten | Box2D/src/DebugDraw.js:72-74 | Conversely, every even-length position array is the flattening of the vertices the two-float format reads from it, so the flat layout and the vertex list determine each other. |
| Geometry.Range | Box2D/src/DebugDraw.js:113-115 | The index list for n vertices has length n, and entry i is i. |
| Geometry.SequentialBufferWellFormed | Box2D/src/DebugDraw.js:110-116 | A flattened vertex list with the sequential index list over it is well formed: whole vertices only, every index names a vertex, one index per vertex. |
| Render.GeometryBuffer.constructor | Box2D/src/DebugDraw.js:19 | A new geometry has no format, positions or indices. |
| Render.GeometryBuffer.SetVertexFormat | Box2D/src/DebugDraw.js:74 | Replaces the format and leaves positions and indices unchanged. |
| Render.GeometryBuffer.SetPositions | Box2D/src/DebugDraw.js:110 | Replaces the positions completely; format and indices are unchanged. |
| Render.GeometryBuffer.SetIndices | Box2D/src/DebugDraw.js:116 | Replaces the indices completely; format and positions are unchanged. |
| Render.RenderApi.constructor | Box2D/src/DebugDraw.js:209 | The render API starts with an empty command trace. |
| Render.RenderApi.SetProgram | Box2D/src/DebugDraw.js:210 | Appends one bind command carrying the status the backend answered. |
| Render.RenderApi.SetUniform | Box2D/src/DebugDraw.js:218 | Appends one uniform upload carrying its name, type and value. |
| Render.RenderApi.SetBlendMode | Box2D/src/DebugDraw.js:220 | Appends one blend-mode command. |
| Render.RenderApi.SetGeometry | Box2D/src/DebugDraw.js:221 | Appends one geometry bind that carries the buffer's positions and indices at that moment. |
| Render.RenderApi.DrawIndexedPrimitives | Box2D/src/DebugDraw.js:224 | Appends one draw command with its kind, start and count. |
| Submission.DrawSelectedByModeBit | Box2D/src/DebugDraw.js:223-230 | A draw of a given kind is issued if and only if that kind's `DrawingModes` bit is set: 0x01 for the triangle fan, 0x02 for the line loop, 0x04 for points. |
| Submission.DrawCommands | Box2D/src/DebugDraw.js:223-230 | Every draw starts at 0 with the given index count. A triangle-fan, line-loop or points draw is present if and only if its bit is set in `mode`. Draws come in the order fan, loop, points, at most one of each. |
| Submission.NoModeNoDraw | Box2D/src/DebugDraw.js:223-230 | Mode 0 issues no draw. |
| Submission.LinesModeDrawsOneLoop | Box2D/src/DebugDraw.js:226-227 | The `Lines` mode alone issues exactly one line-loop draw over the whole index list. |
| Submission.MeshCommands | Box2D/src/DebugDraw.js:209-212 | A submission always starts with the bind. It is the bind alone if and only if the status is -1. |
| Submission.MeshTrace | Box2D/src/DebugDraw.js:209-230 | A trace extended step by step by the bind, the camera stage, the state stage and the three tested draws has been extended by exactly one submission. |
| Submission.MeshStagesIncrease | Box2D/src/DebugDraw.js:209-230 | Commands appear strictly in stage order: bind, camera, colour, blend mode, geometry, fan, loop, points. No stage repeats. |
| Submission.StagesOfDraws | Box2D/src/DebugDraw.js:223-230 | The draw stages reached are exactly those of the set mode bits. |
| Submission.StagesOfPrefix | Box2D/src/DebugDraw.js:210-221 | Before the draws, an available bind reaches the bind, colour, blend and geometry stages, and the camera stage exactly when freshly bound. |
| Submission.MeshStagesReached | Box2D/src/DebugDraw.js:209-230 | A stage is reached if and only if it is expected. The bind is always reached. The camera stage is reached exactly on status 1. Colour, blend and geometry are reached unless the status is -1. Each draw stage is reached exactly when its bit is set and the status is not -1. |
| Submission.MeshCommandsCarry | Box2D/src/DebugDraw.js:210-230 | Every command carries the call's own values: the status, the camera matrix, the colour, the alpha preset, the current geometry contents, start 0 and the index count. |
| Submission.SelectState | Box2D/src/DebugDraw.js:218-221 | The state stage holds one colour upload and one geometry bind, and no camera upload or draw. |
| Submission.MeshSelect | Box2D/src/DebugDraw.js:209-230 | Seen through any view, a submission with status -1 is empty. Otherwise it is the camera stage, then the state stage, then the draws. |
| Submission.MeshCameraUploads | Box2D/src/DebugDraw.js:215-216 | `uCamera` is uploaded once, with the view-projection matrix, if the status is 1, and never otherwise. |
| Submission.MeshColorUploads | Box2D/src/DebugDraw.js:218 | `uColor` is uploaded exactly once, with the given colour, unless the status is -1. |
| Submission.MeshGeometryUploads | Box2D/src/DebugDraw.js:221 | The geometry is bound exactly once, with the buffer's current contents, unless the status is -1. |
| Submission.MeshDraws | Box2D/src/DebugDraw.js:223-230 | The draws of a submission are exactly the mode's draws, or none when the status is -1. |
| Submission.MisspeltLinesModeDrawsNothing | Box2D/src/DebugDraw.js:185 | As written, the misspelt `DrawingModes.Line` reads `undefined` and so issues no draw. The intended `Lines` issues one line loop of 2 indices. |
| Shapes.CircleAngleClosedForm | Box2D/src/DebugDraw.js:136-144 | The angle `theta` accumulated by `k_increment` for ring vertex i equals i·`k_increment`. |
| Shapes.CircleRingStep | Box2D/src/DebugDraw.js:142-144 | One loop step appends the coordinates of the vertex at the current `theta` to the flattened ring. `theta + k_increment` is the angle of the next vertex. |
| Shapes.CirclePoints | Box2D/src/DebugDraw.js:140-145 | The ring has the requested number of vertices. Vertex i is the centre moved by `radius` along the accumulated angle of vertex i. |
| Shapes.CircleRingSpansOneTurn | Box2D/src/DebugDraw.js:134-136 | The ring starts at angle 0, advances by `k_increment` per vertex and closes after 16 steps at 2π. |
| Shapes.CircleVertexOnCircle | Box2D/src/DebugDraw.js:142-143 | Where cos² + sin² = 1 at its angle, a ring vertex lies at distance `radius` from the centre. |
| Shapes.CircleFirstVertex | Box2D/src/DebugDraw.js:136 | With cos 0 = 1 and sin 0 = 0, the first vertex is `(center.x + radius, center.y)`. |
| Shapes.AxesTransformIsRotation | Box2D/src/DebugDraw.js:170-173 | The local `transform` is linear in its displacement. Where cos² + sin² = 1 it preserves length. |
| Shapes.AxesSegmentsAreFrame | Box2D/src/DebugDraw.js:175-177 | Both axis segments share the transformed origin. Under cos² + sin² = 1 they have length 0.1 and are perpendicular. |
| Shapes.AxesOriginAtQuarterTurn | Box2D/src/DebugDraw.js:170-175 | The segments' common origin is the body position rotated: at a quarter turn (cos = 0, sin = 1), a body at (x, y) gets its axes at (y, -x). |
| Shapes.AxesAtZeroAngle | Box2D/src/DebugDraw.js:175-177 | At angle 0 the segments run from (x, y) to (x + 0.1, y) and to (x, y + 0.1). |
| Box2DDebugDraw.PolygonPositions | Box2D/src/DebugDraw.js:103-109 | The positions loop builds exactly `Flatten(vertices)`. |
| Box2DDebugDraw.CirclePositions | Box2D/src/DebugDraw.js:134-145 | The positions loop, with `theta` accumulated by `k_increment`, builds exactly the flattened 16-vertex ring. |
| Box2DDebugDraw.IndexList | Box2D/src/DebugDraw.js:149-151 | The index loop builds exactly `[0, ..., count - 1]`. |
| Box2DDebugDraw.LineLoopSubmission | Box2D/src/DebugDraw.js:154 | A `Lines` submission draws exactly one line loop over its whole index list, unless the status is -1. |
| Box2DDebugDraw.AxesColors | Box2D/src/DebugDraw.js:181-185 | A `drawAxes` pass uploads `[0.75, 0, 0]` and then `[0, 0.75, 0]`, each unless its own bind answered -1. |
| Box2DDebugDraw.AxesGeometries | Box2D/src/DebugDraw.js:179-185 | A `drawAxes` pass binds, per available bind, a 2-vertex buffer with indices [0, 1]: origin to X end, then the same origin to Y end. |
| Box2DDebugDraw.AxesDraws | Box2D/src/DebugDraw.js:182-185 | A `drawAxes` pass draws one line loop of 2 indices per available bind. |
| Box2DDebugDraw.DebugDraw.constructor | Box2D/src/DebugDraw.js:1-29 | Sets flags `0x0001 + 0x0010 + 0x0008`, a fresh geometry with the one two-float position element (lines 72-74) and the alpha blend preset. Nothing is sent to the render API. |
| Box2DDebugDraw.DebugDraw.DrawMesh | Box2D/src/DebugDraw.js:207-231 | Appends exactly `MeshCommands` for the current buffer contents to the trace and leaves the buffer alone. |
| Box2DDebugDraw.DebugDraw.DrawSegment | Box2D/src/DebugDraw.js:83-91 | Leaves the buffer `[v1.x, v1.y, v2.x, v2.y]` with indices [0, 1], keeping the format. The buffer is well formed. Appends one `Lines` submission with index count 2 and the segment's colour. |
| Box2DDebugDraw.DebugDraw.DrawPolygon | Box2D/src/DebugDraw.js:100-119 | Overwrites the buffer with the flattened vertices and `[0, ..., n - 1]`; nothing earlier survives. The buffer is well formed. Appends one `Lines` submission with index count n. The result does not depend on `fill`. |
| Box2DDebugDraw.DebugDraw.DrawCircle | Box2D/src/DebugDraw.js:129-155 | Overwrites the buffer with the 16-vertex ring (32 floats) and `[0, ..., 15]`. The buffer is well formed. Appends one `Lines` submission with index count 16. The result does not depend on `axis` or `fill`. |
| Box2DDebugDraw.DebugDraw.DrawAxes | Box2D/src/DebugDraw.js:163-186 | Sets indices [0, 1] once and submits the X segment (red) and then the Y segment (green). Both start at the same rotated origin `transform(x, y)`. The buffer is left holding the Y segment and is well formed. |
| Box2DDebugDraw.DebugDraw.DrawTransform | Box2D/src/DebugDraw.js:192-198 | Gives the transform's position and angle to `drawAxes`: the same buffer and trace, with both segments starting at the rotated position `transform(x, y)`. The buffer is left well formed. |

## Left out

- The callback wiring in `init` (Box2D/src/DebugDraw.js:36-70), which registers the adapter's methods on `Box2D.JSDraw`, is left out. The engine drives it, and line 43 there references undefined variables. The vertex-format setup at the end of `init` is modelled in the constructor.
- `draw` (`world.DrawDebugData()`, lines 236-239) and the world's traversal order are left out: Box2D calls the primitives and decides their order.
- Box2D pointer unwrapping and byte-offset addressing (`Box2D.wrapPointer`, `vertices + i*8`, `get_x()` and so on) are left out. The methods take typed points, colours and transforms, including the angle of `trans.get_q()`.
- The numeric values of `Math.PI`, `Math.cos` and `Math.sin` are left out; they stay uninterpreted. Properties that need cos² + sin² = 1 or cos 0 = 1 take it as a precondition.
- Floating-point rounding is left out. Numbers are reals, so `theta` accumulated by `k_increment` equals `i * k_increment` exactly, and the products of the axis transform are exact.
- Loading `DebugDrawShader` through `Lemon.ProgramLibrary`, the program handle, the active camera and its view-projection matrix are the renderer's. They appear only as command arguments: `ViewProjection` is opaque and the program handle is implicit.
- The status that `setProgram` answers is an input to each submitting method, not something the model computes. A status that is neither -1 nor 1 means "already bound".
- Registering the debug draw with the world (line 16) is a foreign call with no state in this model.
- Box2D/src/PhysicModule.js and Box2D/src/GraphicModule.js (body creation, stepping, scene and camera setup, render loop) are not part of this model.
- Submission.HasMode: `mode & bit` is modelled for integer modes only, as the bit of the two's-complement value. Non-integer or out-of-range JavaScript numbers, and their `ToInt32` conversion, are not modelled.
- Box2DDebugDraw.DebugDraw.DrawSegment: models the intended call, not the as-written line 90. Line 90 would throw a `ReferenceError` on the undeclared `indices`.
- Box2DDebugDraw.DebugDraw.DrawAxes: models the intended X-axis call `drawMesh(Lines, 2, [0.75, 0, 0])`, not the as-written line 182. That line passes the colour array as the index count and no colour at all.

## Findings

| source | as written | input that shows it | evidently intended | confidence | as-written member | corrected member |
|---|---|---|---|---|---|---|
| Box2D/src/DebugDraw.js:185 | `drawMesh(DebugDraw.DrawingModes.Line, 2, ...)`. `DrawingModes` has no `Line` property, so the mode reads `undefined`, `mode & bit` is 0 for every bit, and no draw is issued. | any `drawAxes(x, y, angle)` whose bind status is not -1: the Y-axis submission binds its geometry but draws nothing | `DrawingModes.Lines`: one line-loop draw of 2 indices for the Y axis | not executed | Submission.MisspeltLinesModeDrawsNothing | Box2DDebugDraw.AxesDraws |
