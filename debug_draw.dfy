/**
 * The debug-draw adapter (`DebugDraw` in Box2D/src/DebugDraw.js): Box2D
 * calls one of its primitive methods per shape, joint or body transform
 * during a debug pass; each primitive overwrites the adapter's one geometry
 * buffer and submits it to the render API.
 *
 * The status the render API's `setProgram` answers is not computed by the
 * adapter: every submitting method takes it as a parameter.
 */
module Box2DDebugDraw {
  import opened Geometry
  import opened Render
  import opened Submission
  import opened Shapes

  /** A Box2D `b2Transform`: position and the angle of its rotation. */
  datatype Transform = Transform(p: Vec2, angle: real)

  /** The debug-draw flag word set at construction. */
  const DefaultDrawFlags := 0x0001 + 0x0010 + 0x0008

  /** One position attribute of two floats per vertex. */
  const PositionFormat := [VertexElement(Position, 0, VertexFloat, 2, false)]

  /** The first loop of drawPolygon: the vertices' coordinates, flattened in input order. */
  method PolygonPositions(vertices: seq<Vec2>) returns (positions: seq<real>)
    ensures positions == Flatten(vertices)
  {
    positions := [];
    var i := 0;
    while i < |vertices|
      invariant 0 <= i <= |vertices|
      invariant positions == Flatten(vertices[..i])
    {
      assert vertices[..i + 1] == vertices[..i] + [vertices[i]];
      FlattenSnoc(vertices[..i], vertices[i]);
      // Slots j and j + 1, with j = 2 * i = |positions|.
      positions := positions + [vertices[i].x, vertices[i].y];
      i := i + 1;
    }
    assert vertices[..i] == vertices;
  }

  /**
   * The first loop of drawCircle: 16 ring vertices, the angle `theta`
   * accumulated by `k_increment` from 0.
   */
  method CirclePositions(center: Vec2, radius: real, math: MathLib) returns (positions: seq<real>)
    ensures positions == Flatten(CirclePoints(center, radius, math, CirclePrecision))
  {
    var precision := CirclePrecision;
    var kIncrement := 2.0 * math.pi / precision as real;
    var theta := 0.0;
    positions := [];
    var i := 0;
    while i < precision
      invariant 0 <= i <= precision
      invariant theta == CircleAngle(math, i)
      invariant positions == Flatten(CirclePoints(center, radius, math, i))
    {
      CircleRingStep(center, radius, math, i, theta);
      positions := positions + [center.x + radius * math.cos(theta), center.y + radius * math.sin(theta)];
      theta := theta + kIncrement;
      i := i + 1;
    }
  }

  /** The index loop of drawPolygon and drawCircle: `indices[i] = i` for every vertex. */
  method IndexList(count: nat) returns (indices: seq<int>)
    ensures indices == Range(count)
  {
    indices := [];
    var i := 0;
    while i < count
      invariant 0 <= i <= count
      invariant indices == Range(i)
    {
      indices := indices + [i];
      i := i + 1;
    }
  }

  /** The commands drawAxes issues: one line-loop submission per axis, X first. */
  function AxesCommands(x: real, y: real, angle: real, math: MathLib, statusX: int, statusY: int): seq<Command>
  {
    var o := AxesOrigin(x, y, angle, math);
    MeshCommands(statusX, ModeLines, 2, XAxisColor, Flatten([o, XAxisEnd(x, y, angle, math)]), [0, 1])
    + MeshCommands(statusY, ModeLines, 2, YAxisColor, Flatten([o, YAxisEnd(x, y, angle, math)]), [0, 1])
  }

  /**
   * What every primitive submits: with the `Lines` mode, exactly one
   * line-loop draw over its whole index list, unless the program is
   * unavailable.
   */
  lemma LineLoopSubmission(programStatus: int, indexCount: int, color: seq<real>, positions: seq<real>, indices: seq<int>)
    ensures Select(MeshCommands(programStatus, ModeLines, indexCount, color, positions, indices), DrawView) ==
      if programStatus == ProgramUnavailable then [] else [DrawIndexedPrimitives(LinesLoop, 0, indexCount)]
  {
    MeshDraws(programStatus, ModeLines, indexCount, color, positions, indices);
    LinesModeDrawsOneLoop(indexCount);
  }

  /** A drawAxes pass uploads red, then green, each unless its bind failed. */
  lemma AxesColors(x: real, y: real, angle: real, math: MathLib, statusX: int, statusY: int)
    ensures Select(AxesCommands(x, y, angle, math, statusX, statusY), ColorView) ==
      (if statusX == ProgramUnavailable then [] else [SetUniform(ColorUniform, Float, Floats(XAxisColor))])
      + (if statusY == ProgramUnavailable then [] else [SetUniform(ColorUniform, Float, Floats(YAxisColor))])
  {
    var o := AxesOrigin(x, y, angle, math);
    var px, py := Flatten([o, XAxisEnd(x, y, angle, math)]), Flatten([o, YAxisEnd(x, y, angle, math)]);
    var rx := MeshCommands(statusX, ModeLines, 2, XAxisColor, px, [0, 1]);
    var ry := MeshCommands(statusY, ModeLines, 2, YAxisColor, py, [0, 1]);
    SelectAppend(rx, ry, ColorView);
    MeshColorUploads(statusX, ModeLines, 2, XAxisColor, px, [0, 1]);
    MeshColorUploads(statusY, ModeLines, 2, YAxisColor, py, [0, 1]);
  }

  /**
   * A drawAxes pass binds, per successful bind, a 2-vertex geometry with
   * indices [0, 1]: first from the origin to the X end, then from the same
   * origin to the Y end.
   */
  lemma AxesGeometries(x: real, y: real, angle: real, math: MathLib, statusX: int, statusY: int)
    ensures var o, ex, ey := AxesOrigin(x, y, angle, math), XAxisEnd(x, y, angle, math), YAxisEnd(x, y, angle, math);
      Select(AxesCommands(x, y, angle, math, statusX, statusY), GeometryView) ==
        (if statusX == ProgramUnavailable then [] else [SetGeometry([o.x, o.y, ex.x, ex.y], [0, 1])])
        + (if statusY == ProgramUnavailable then [] else [SetGeometry([o.x, o.y, ey.x, ey.y], [0, 1])])
  {
    var o, ex, ey := AxesOrigin(x, y, angle, math), XAxisEnd(x, y, angle, math), YAxisEnd(x, y, angle, math);
    var px, py := Flatten([o, ex]), Flatten([o, ey]);
    FlattenPair(o, ex);
    FlattenPair(o, ey);
    var rx := MeshCommands(statusX, ModeLines, 2, XAxisColor, px, [0, 1]);
    var ry := MeshCommands(statusY, ModeLines, 2, YAxisColor, py, [0, 1]);
    SelectAppend(rx, ry, GeometryView);
    MeshGeometryUploads(statusX, ModeLines, 2, XAxisColor, px, [0, 1]);
    MeshGeometryUploads(statusY, ModeLines, 2, YAxisColor, py, [0, 1]);
  }

  /** A drawAxes pass draws one line loop of 2 indices per successful bind. */
  lemma AxesDraws(x: real, y: real, angle: real, math: MathLib, statusX: int, statusY: int)
    ensures Select(AxesCommands(x, y, angle, math, statusX, statusY), DrawView) ==
      (if statusX == ProgramUnavailable then [] else [DrawIndexedPrimitives(LinesLoop, 0, 2)])
      + (if statusY == ProgramUnavailable then [] else [DrawIndexedPrimitives(LinesLoop, 0, 2)])
  {
    var o := AxesOrigin(x, y, angle, math);
    var px, py := Flatten([o, XAxisEnd(x, y, angle, math)]), Flatten([o, YAxisEnd(x, y, angle, math)]);
    var rx := MeshCommands(statusX, ModeLines, 2, XAxisColor, px, [0, 1]);
    var ry := MeshCommands(statusY, ModeLines, 2, YAxisColor, py, [0, 1]);
    SelectAppend(rx, ry, DrawView);
    LineLoopSubmission(statusX, 2, XAxisColor, px, [0, 1]);
    LineLoopSubmission(statusY, 2, YAxisColor, py, [0, 1]);
  }

  class DebugDraw {
    /** The render API of the renderer the adapter was built with. */
    const api: RenderApi
    /** The one geometry buffer, overwritten by every primitive. */
    const geometry: GeometryBuffer
    /** The flag word given to Box2D's debug draw. */
    const flags: int
    /** Alpha blending for every debug primitive. */
    const blendMode: BlendPreset := Alpha

    /**
     * Sets the default flags, builds the geometry with a two-float position
     * format and the alpha blend mode; nothing is sent to the render API.
     */
    constructor (api: RenderApi)
      ensures this.api == api && fresh(geometry)
      ensures flags == DefaultDrawFlags && blendMode == Alpha
      ensures geometry.format == PositionFormat && geometry.positions == [] && geometry.indices == []
      ensures api.trace == old(api.trace)
    {
      this.api := api;
      flags := DefaultDrawFlags;
      var g := new GeometryBuffer();
      geometry := g;
      new;
      geometry.SetVertexFormat(PositionFormat);
    }

    /**
     * drawMesh: binds the debug program and, unless it is unavailable,
     * uploads the uniforms, sets blend mode and geometry and draws once per
     * set bit of `mode`. The buffer itself is left as it is.
     */
    method DrawMesh(mode: int, indexCount: int, color: seq<real>, programStatus: int)
      modifies api
      ensures api.trace == old(api.trace) + MeshCommands(programStatus, mode, indexCount, color, geometry.positions, geometry.indices)
    {
      api.SetProgram(programStatus);
      if programStatus == ProgramUnavailable {
        return;
      }
      ghost var bound := api.trace;
      if programStatus == ProgramFreshlyBound {
        api.SetUniform(CameraUniform, Matrix, ViewProjection);
      }
      ghost var uploaded := api.trace;
      api.SetUniform(ColorUniform, Float, Floats(color));
      api.SetBlendMode(blendMode);
      api.SetGeometry(geometry);
      ghost var prepared := api.trace;
      if HasMode(mode, ModeTriangles) {
        api.DrawIndexedPrimitives(TrianglesFan, 0, indexCount);
      }
      if HasMode(mode, ModeLines) {
        api.DrawIndexedPrimitives(LinesLoop, 0, indexCount);
      }
      if HasMode(mode, ModePoints) {
        api.DrawIndexedPrimitives(Points, 0, indexCount);
      }
      MeshTrace(old(api.trace), bound, uploaded, prepared, api.trace,
                programStatus, mode, indexCount, color, geometry.positions, geometry.indices);
    }

    /**
     * drawSegment: a 2-vertex buffer with indices [0, 1], submitted as lines
     * with index count 2.
     */
    method DrawSegment(vert1: Vec2, vert2: Vec2, color: Color, programStatus: int)
      modifies geometry, api
      ensures geometry.positions == Flatten([vert1, vert2]) && geometry.indices == [0, 1]
      ensures geometry.format == old(geometry.format)
      ensures WellFormed(geometry.positions, geometry.indices)
      ensures api.trace == old(api.trace) + MeshCommands(programStatus, ModeLines, 2, ColorArray(color), geometry.positions, geometry.indices)
    {
      FlattenPair(vert1, vert2);
      // The source reads the end point through the raw `vert2` instead of the unwrapped `vert2V`.
      geometry.SetPositions([vert1.x, vert1.y, vert2.x, vert2.y]);
      geometry.SetIndices([0, 1]);
      // The source passes the misspelt `DrawingModes.Line` and an undeclared `indices`.
      DrawMesh(ModeLines, |geometry.indices|, ColorArray(color), programStatus);
    }

    /**
     * drawPolygon: the vertices flattened in input order, indices
     * [0, ..., n - 1], submitted as lines with index count n whether or not
     * `fill` is set.
     */
    method DrawPolygon(vertices: seq<Vec2>, fill: bool, color: Color, programStatus: int)
      modifies geometry, api
      ensures geometry.positions == Flatten(vertices) && geometry.indices == Range(|vertices|)
      ensures geometry.format == old(geometry.format)
      ensures WellFormed(geometry.positions, geometry.indices)
      ensures api.trace == old(api.trace) + MeshCommands(programStatus, ModeLines, |vertices|, ColorArray(color), geometry.positions, geometry.indices)
    {
      var positions := PolygonPositions(vertices);
      geometry.SetPositions(positions);
      var indices := IndexList(|vertices|);
      geometry.SetIndices(indices);
      SequentialBufferWellFormed(vertices);
      DrawMesh(ModeLines, |indices|, ColorArray(color), programStatus);
    }

    /**
     * drawCircle: a 16-vertex ring around `center`, indices [0, ..., 15],
     * submitted as lines with index count 16; `axis` and `fill` are unused.
     */
    method DrawCircle(center: Vec2, radius: real, axis: Vec2, fill: bool, color: Color, programStatus: int, math: MathLib)
      modifies geometry, api
      ensures geometry.positions == Flatten(CirclePoints(center, radius, math, CirclePrecision))
      ensures geometry.indices == Range(CirclePrecision)
      ensures geometry.format == old(geometry.format)
      ensures WellFormed(geometry.positions, geometry.indices)
      ensures api.trace == old(api.trace) + MeshCommands(programStatus, ModeLines, CirclePrecision, ColorArray(color), geometry.positions, geometry.indices)
    {
      var positions := CirclePositions(center, radius, math);
      geometry.SetPositions(positions);
      var indices := IndexList(CirclePrecision);
      geometry.SetIndices(indices);
      SequentialBufferWellFormed(CirclePoints(center, radius, math, CirclePrecision));
      DrawMesh(ModeLines, |indices|, ColorArray(color), programStatus);
    }

    /**
     * drawAxes: indices [0, 1] set once; the X segment, then the Y segment,
     * both from the transformed origin, each submitted as lines with index
     * count 2. The buffer is left holding the Y segment.
     */
    method DrawAxes(x: real, y: real, angle: real, math: MathLib, statusX: int, statusY: int)
      modifies geometry, api
      ensures geometry.positions == Flatten([AxesOrigin(x, y, angle, math), YAxisEnd(x, y, angle, math)])
      ensures geometry.indices == [0, 1]
      ensures geometry.format == old(geometry.format)
      ensures WellFormed(geometry.positions, geometry.indices)
      ensures api.trace == old(api.trace) + AxesCommands(x, y, angle, math, statusX, statusY)
    {
      var sin := math.sin(angle);
      var cos := math.cos(angle);
      var origin := AxesTransform(x, y, cos, sin);
      var xAxis := AxesTransform(x + AxisLength, y, cos, sin);
      var yAxis := AxesTransform(x, y + AxisLength, cos, sin);
      FlattenPair(origin, xAxis);
      FlattenPair(origin, yAxis);

      geometry.SetIndices([0, 1]);

      geometry.SetPositions([origin.x, origin.y, xAxis.x, xAxis.y]);
      // The source calls drawMesh(2, [0.75, 0, 0]), leaving out the index count.
      DrawMesh(ModeLines, 2, XAxisColor, statusX);

      geometry.SetPositions([origin.x, origin.y, yAxis.x, yAxis.y]);
      // The source passes the misspelt `DrawingModes.Line` (see MisspeltLinesModeDrawsNothing).
      DrawMesh(ModeLines, 2, YAxisColor, statusY);
    }

    /**
     * drawTransform: the axes of a body from its position and angle. As in
     * drawAxes, the segments start at the rotated position `transform(x, y)`,
     * not at the position itself.
     */
    method DrawTransform(transform: Transform, math: MathLib, statusX: int, statusY: int)
      modifies geometry, api
      ensures geometry.positions == Flatten([AxesOrigin(transform.p.x, transform.p.y, transform.angle, math),
                                             YAxisEnd(transform.p.x, transform.p.y, transform.angle, math)])
      ensures geometry.indices == [0, 1]
      ensures geometry.format == old(geometry.format)
      ensures WellFormed(geometry.positions, geometry.indices)
      ensures api.trace == old(api.trace) + AxesCommands(transform.p.x, transform.p.y, transform.angle, math, statusX, statusY)
    {
      DrawAxes(transform.p.x, transform.p.y, transform.angle, math, statusX, statusY);
    }
  }
}
