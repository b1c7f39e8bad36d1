/**
 * The part of the Lemon renderer the debug-draw adapter talks to, reduced
 * to what the adapter can observe: a geometry object it fills, and a
 * render API that records, in order, every command it is given.
 */
module Render {

  /** `Lemon.DrawingMode`: how an index list is turned into primitives. */
  datatype PrimitiveKind = TrianglesFan | LinesLoop | Points

  /** `Lemon.Type`: the semantic type of an uploaded uniform. */
  datatype UniformType = Matrix | Float

  /**
   * The value of an uploaded uniform: the active camera's view-projection
   * matrix (owned by the renderer and opaque here) or a float array.
   */
  datatype UniformValue = ViewProjection | Floats(values: seq<real>)

  /** `Lemon.BlendMode.Mode`; the adapter only ever builds the alpha preset. */
  datatype BlendPreset = Alpha

  /** One element of a `Lemon.VertexFormat`. */
  datatype VertexUsage = Position
  /** `Lemon.VertexElement.Type`: the component type of a vertex attribute. */
  datatype VertexType = VertexFloat
  datatype VertexElement = VertexElement(usage: VertexUsage, index: nat, componentType: VertexType, components: nat, normalized: bool)

  /**
   * A command issued to the render API. `SetProgram` carries the status the
   * backend answered (-1: program unavailable, 1: freshly bound, otherwise
   * already bound); `SetGeometry` carries the geometry's contents at the
   * moment it was bound.
   */
  datatype Command =
    | SetProgram(status: int)
    | SetUniform(name: string, uniformType: UniformType, value: UniformValue)
    | SetBlendMode(blend: BlendPreset)
    | SetGeometry(positions: seq<real>, indices: seq<int>)
    | DrawIndexedPrimitives(kind: PrimitiveKind, start: int, count: int)

  /** A `Lemon.Geometry`: a vertex format, a flat position array and an index array. */
  class GeometryBuffer {
    var format: seq<VertexElement>
    var positions: seq<real>
    var indices: seq<int>

    constructor ()
      ensures format == [] && positions == [] && indices == []
    {
      format, positions, indices := [], [], [];
    }

    method SetVertexFormat(f: seq<VertexElement>)
      modifies this
      ensures format == f && positions == old(positions) && indices == old(indices)
    {
      format := f;
    }

    method SetPositions(p: seq<real>)
      modifies this
      ensures positions == p && format == old(format) && indices == old(indices)
    {
      positions := p;
    }

    method SetIndices(i: seq<int>)
      modifies this
      ensures indices == i && format == old(format) && positions == old(positions)
    {
      indices := i;
    }
  }

  /** The render API, observed as the trace of commands it has received. */
  class RenderApi {
    var trace: seq<Command>

    constructor ()
      ensures trace == []
    {
      trace := [];
    }

    /** Binds a program; `status` is the backend's answer, which lies outside this model. */
    method SetProgram(status: int)
      modifies this
      ensures trace == old(trace) + [Command.SetProgram(status)]
    {
      trace := trace + [Command.SetProgram(status)];
    }

    method SetUniform(name: string, uniformType: UniformType, value: UniformValue)
      modifies this
      ensures trace == old(trace) + [Command.SetUniform(name, uniformType, value)]
    {
      trace := trace + [Command.SetUniform(name, uniformType, value)];
    }

    method SetBlendMode(blend: BlendPreset)
      modifies this
      ensures trace == old(trace) + [Command.SetBlendMode(blend)]
    {
      trace := trace + [Command.SetBlendMode(blend)];
    }

    method SetGeometry(g: GeometryBuffer)
      modifies this
      ensures trace == old(trace) + [Command.SetGeometry(g.positions, g.indices)]
    {
      trace := trace + [Command.SetGeometry(g.positions, g.indices)];
    }

    method DrawIndexedPrimitives(kind: PrimitiveKind, start: int, count: int)
      modifies this
      ensures trace == old(trace) + [Command.DrawIndexedPrimitives(kind, start, count)]
    {
      trace := trace + [Command.DrawIndexedPrimitives(kind, start, count)];
    }
  }
}
