/**
 * Vertex and index data as the debug-draw adapter hands it to the renderer:
 * Box2D points, the flat position layout `[x0, y0, x1, y1, ...]` of a
 * two-float position-only vertex format, and sequential index lists.
 * Floating-point numbers are modelled as reals.
 */
module Geometry {

  /** A Box2D `b2Vec2`, passed by value. */
  datatype Vec2 = Vec2(x: real, y: real)

  /** A Box2D `b2Color`; the renderer receives it as the array `[r, g, b]`. */
  datatype Color = Color(r: real, g: real, b: real)

  function ColorArray(c: Color): seq<real>
  {
    [c.r, c.g, c.b]
  }

  /** Two colours upload the same array exactly when they are the same colour. */
  lemma ColorArrayInjective(a: Color, b: Color)
    ensures ColorArray(a) == ColorArray(b) <==> a == b
  {
    if ColorArray(a) == ColorArray(b) {
      assert ColorArray(a)[0] == ColorArray(b)[0];
      assert ColorArray(a)[1] == ColorArray(b)[1];
      assert ColorArray(a)[2] == ColorArray(b)[2];
    }
  }

  /** Vertex `i` of a flat position array, read with the two-float layout. */
  function VertexAt(positions: seq<real>, i: nat): Vec2
    requires 2 * i + 1 < |positions|
  {
    Vec2(positions[2 * i], positions[2 * i + 1])
  }

  /**
   * The flat position array of a vertex list: vertex `i` occupies slots
   * `2i` and `2i + 1`, in input order.
   */
  function Flatten(vs: seq<Vec2>): (r: seq<real>)
    ensures |r| == 2 * |vs|
    ensures forall i :: 0 <= i < |vs| ==> VertexAt(r, i) == vs[i]
  {
    if vs == [] then []
    else
      var init := vs[..|vs| - 1];
      var last := vs[|vs| - 1];
      var r := Flatten(init) + [last.x, last.y];
      assert forall i :: 0 <= i < |init| ==> VertexAt(r, i) == VertexAt(Flatten(init), i);
      r
  }

  /** Appending a vertex appends its two coordinates. */
  lemma FlattenSnoc(vs: seq<Vec2>, v: Vec2)
    ensures Flatten(vs + [v]) == Flatten(vs) + [v.x, v.y]
  {
    assert (vs + [v])[..|vs|] == vs;
  }

  /** A two-vertex buffer, as segments and axes build it. */
  lemma FlattenPair(a: Vec2, b: Vec2)
    ensures Flatten([a, b]) == [a.x, a.y, b.x, b.y]
  {
    assert [a, b] == [a] + [b];
    FlattenSnoc([a], b);
    FlattenSnoc([], a);
  }

  /** Reading a flattened array back vertex by vertex recovers the vertex list. */
  function Unflatten(positions: seq<real>): seq<Vec2>
    requires |positions| % 2 == 0
  {
    seq(|positions| / 2, i requires 0 <= i < |positions| / 2 => VertexAt(positions, i))
  }

  lemma UnflattenFlatten(vs: seq<Vec2>)
    ensures Unflatten(Flatten(vs)) == vs
  {
  }

  /** Every even-length position array is the flattening of the vertices it holds. */
  lemma FlattenUnflatten(positions: seq<real>)
    requires |positions| % 2 == 0
    ensures Flatten(Unflatten(positions)) == positions
  {
    var vs := Unflatten(positions);
    var r := Flatten(vs);
    assert |r| == |positions|;
    forall k | 0 <= k < |positions|
      ensures r[k] == positions[k]
    {
      var i := k / 2;
      assert VertexAt(r, i) == vs[i] == VertexAt(positions, i);
    }
  }

  /** The index list `[0, 1, ..., n - 1]`. */
  function Range(n: nat): (r: seq<int>)
    ensures |r| == n
    ensures forall i :: 0 <= i < n ==> r[i] == i
  {
    if n == 0 then [] else Range(n - 1) + [n - 1]
  }

  /**
   * A buffer the renderer can draw: whole vertices only, and every index
   * names one of them.
   */
  predicate WellFormed(positions: seq<real>, indices: seq<int>)
  {
    && |positions| % 2 == 0
    && forall k :: 0 <= k < |indices| ==> 0 <= indices[k] < |positions| / 2
  }

  /** A vertex list with the sequential index list over it is always drawable. */
  lemma SequentialBufferWellFormed(vs: seq<Vec2>)
    ensures WellFormed(Flatten(vs), Range(|vs|))
    ensures |Range(|vs|)| == |Flatten(vs)| / 2
  {
  }
}
