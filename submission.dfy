/**
 * `DebugDraw.prototype.drawMesh` as a function of its inputs: the commands
 * one submission sends to the render API, and what that sequence promises.
 * The class method `DebugDraw.DrawMesh` is proved to issue exactly these
 * commands.
 */
module Submission {
  import opened Render

  /** `DebugDraw.DrawingModes`, a bitmask. */
  const ModeTriangles := 0x01
  const ModeLines := 0x02
  const ModePoints := 0x04

  const CameraUniform := "uCamera"
  const ColorUniform := "uColor"

  /** The status `setProgram` answers when the debug program cannot be bound. */
  const ProgramUnavailable := -1
  /** The status `setProgram` answers when the debug program was freshly bound. */
  const ProgramFreshlyBound := 1

  predicate IsModeBit(bit: int) {
    bit == ModeTriangles || bit == ModeLines || bit == ModePoints
  }

  /**
   * JavaScript's `mode & bit` is non-zero, for a single-bit `bit`: the bit of
   * the two's-complement `mode` is set (Dafny's division rounds down for a
   * positive divisor, so this holds for negative modes too).
   */
  predicate HasMode(mode: int, bit: int)
    requires IsModeBit(bit)
  {
    (mode / bit) % 2 == 1
  }

  /** The drawing-mode bit that selects each primitive kind. */
  function ModeBit(kind: PrimitiveKind): (bit: int)
    ensures IsModeBit(bit)
  {
    match kind
    case TrianglesFan => ModeTriangles
    case LinesLoop => ModeLines
    case Points => ModePoints
  }

  /** A draw of each kind is issued exactly when that kind's bit is set. */
  lemma DrawSelectedByModeBit(mode: int, indexCount: int, kind: PrimitiveKind)
    ensures DrawIndexedPrimitives(kind, 0, indexCount) in DrawCommands(mode, indexCount) <==> HasMode(mode, ModeBit(kind))
  {
  }

  /** The order in which `drawMesh` tests the bits. */
  function KindRank(kind: PrimitiveKind): nat
  {
    match kind
    case TrianglesFan => 0
    case LinesLoop => 1
    case Points => 2
  }

  /**
   * The draw calls of one submission: one `drawIndexedPrimitives(kind, 0,
   * indexCount)` for every set bit of `mode`, in the order triangle fan,
   * line loop, points.
   */
  function DrawCommands(mode: int, indexCount: int): (r: seq<Command>)
    ensures forall c :: c in r ==> c.DrawIndexedPrimitives? && c.start == 0 && c.count == indexCount
    ensures DrawIndexedPrimitives(TrianglesFan, 0, indexCount) in r <==> HasMode(mode, ModeTriangles)
    ensures DrawIndexedPrimitives(LinesLoop, 0, indexCount) in r <==> HasMode(mode, ModeLines)
    ensures DrawIndexedPrimitives(Points, 0, indexCount) in r <==> HasMode(mode, ModePoints)
    ensures forall i, j :: 0 <= i < j < |r| ==> KindRank(r[i].kind) < KindRank(r[j].kind)
  {
    DrawIf(HasMode(mode, ModeTriangles), TrianglesFan, indexCount)
    + DrawIf(HasMode(mode, ModeLines), LinesLoop, indexCount)
    + DrawIf(HasMode(mode, ModePoints), Points, indexCount)
  }

  /** The draw call one tested bit contributes: one call when it is set, none otherwise. */
  function DrawIf(bitSet: bool, kind: PrimitiveKind, indexCount: int): seq<Command>
  {
    if bitSet then [DrawIndexedPrimitives(kind, 0, indexCount)] else []
  }

  /** Mode 0 issues no draw at all. */
  lemma NoModeNoDraw(indexCount: int)
    ensures DrawCommands(0, indexCount) == []
  {
  }

  /** The `Lines` mode alone issues exactly one line-loop draw over the whole index list. */
  lemma LinesModeDrawsOneLoop(indexCount: int)
    ensures DrawCommands(ModeLines, indexCount) == [DrawIndexedPrimitives(LinesLoop, 0, indexCount)]
  {
  }

  /** The camera upload: only when the debug program was freshly bound. */
  function CameraCommands(programStatus: int): seq<Command>
  {
    if programStatus == ProgramFreshlyBound then [SetUniform(CameraUniform, Matrix, ViewProjection)] else []
  }

  /** The per-call state: the flat colour, the alpha blend mode, the geometry. */
  function StateCommands(color: seq<real>, positions: seq<real>, indices: seq<int>): seq<Command>
  {
    [SetUniform(ColorUniform, Float, Floats(color)), SetBlendMode(Alpha), SetGeometry(positions, indices)]
  }

  /**
   * The commands of one `drawMesh(mode, indexCount, color)` call, given the
   * status `programStatus` that binding the debug program answered and the
   * geometry's contents `positions` and `indices`. An unavailable program
   * ends the call right after the bind.
   */
  function MeshCommands(programStatus: int, mode: int, indexCount: int, color: seq<real>,
                        positions: seq<real>, indices: seq<int>): (r: seq<Command>)
    ensures |r| >= 1 && r[0] == SetProgram(programStatus)
    ensures programStatus == ProgramUnavailable <==> r == [SetProgram(programStatus)]
  {
    if programStatus == ProgramUnavailable then [SetProgram(programStatus)]
    else
      [SetProgram(programStatus)] + CameraCommands(programStatus)
      + StateCommands(color, positions, indices) + DrawCommands(mode, indexCount)
  }

  /** Concatenating command lists is associative. */
  lemma AppendAssoc(a: seq<Command>, b: seq<Command>, c: seq<Command>)
    ensures (a + b) + c == a + (b + c)
  {
  }

  /** Once the program is available, a submission is the bind followed by its three stages. */
  lemma MeshCommandsBound(programStatus: int, mode: int, indexCount: int, color: seq<real>,
                          positions: seq<real>, indices: seq<int>)
    requires programStatus != ProgramUnavailable
    ensures MeshCommands(programStatus, mode, indexCount, color, positions, indices)
         == [SetProgram(programStatus)] + (CameraCommands(programStatus)
            + (StateCommands(color, positions, indices) + DrawCommands(mode, indexCount)))
  {
  }

  /**
   * A trace that grew by the bind, the camera stage, the state stage and the
   * three tested draws, in that order, grew by exactly one submission.
   */
  lemma MeshTrace(t0: seq<Command>, t1: seq<Command>, t2: seq<Command>, t3: seq<Command>, t4: seq<Command>,
                  programStatus: int, mode: int, indexCount: int, color: seq<real>,
                  positions: seq<real>, indices: seq<int>)
    requires programStatus != ProgramUnavailable
    requires t1 == t0 + [SetProgram(programStatus)]
    requires t2 == t1 + CameraCommands(programStatus)
    requires t3 == t2 + StateCommands(color, positions, indices)
    requires t4 == t3 + DrawIf(HasMode(mode, ModeTriangles), TrianglesFan, indexCount)
                      + DrawIf(HasMode(mode, ModeLines), LinesLoop, indexCount)
                      + DrawIf(HasMode(mode, ModePoints), Points, indexCount)
    ensures t4 == t0 + MeshCommands(programStatus, mode, indexCount, color, positions, indices)
  {
    var fan := DrawIf(HasMode(mode, ModeTriangles), TrianglesFan, indexCount);
    var loop := DrawIf(HasMode(mode, ModeLines), LinesLoop, indexCount);
    var pts := DrawIf(HasMode(mode, ModePoints), Points, indexCount);
    var draws := DrawCommands(mode, indexCount);
    AppendAssoc(t3 + fan, loop, pts);
    AppendAssoc(t3, fan, loop + pts);
    AppendAssoc(fan, loop, pts);
    assert t4 == t3 + draws;
    var state := StateCommands(color, positions, indices) + draws;
    AppendAssoc(t2, StateCommands(color, positions, indices), draws);
    var stages := CameraCommands(programStatus) + state;
    AppendAssoc(t1, CameraCommands(programStatus), state);
    AppendAssoc(t0, [SetProgram(programStatus)], stages);
    MeshCommandsBound(programStatus, mode, indexCount, color, positions, indices);
  }

  /**
   * The stage of a command within one submission: bind, camera upload, colour
   * upload, blend mode, geometry, then the three kinds of draw.
   */
  function Stage(c: Command): nat
  {
    match c
    case SetProgram(_) => 0
    case SetUniform(name, _, _) => if name == CameraUniform then 1 else 2
    case SetBlendMode(_) => 3
    case SetGeometry(_, _) => 4
    case DrawIndexedPrimitives(kind, _, _) => 5 + KindRank(kind)
  }

  /** The stages one submission reaches, for each bind status and mode. */
  predicate StageExpected(programStatus: int, mode: int, s: nat)
  {
    if s == 0 then true
    else if programStatus == ProgramUnavailable then false
    else if s == 1 then programStatus == ProgramFreshlyBound
    else if s <= 4 then true
    else if s == 5 then HasMode(mode, ModeTriangles)
    else if s == 6 then HasMode(mode, ModeLines)
    else if s == 7 then HasMode(mode, ModePoints)
    else false
  }

  function Stages(r: seq<Command>): set<nat>
  {
    set c | c in r :: Stage(c)
  }

  /** Commands appear strictly in stage order, so each stage at most once. */
  predicate InStageOrder(r: seq<Command>)
  {
    forall i, j :: 0 <= i < j < |r| ==> Stage(r[i]) < Stage(r[j])
  }

  /** Each command carries the values `drawMesh` was given. */
  predicate Carries(c: Command, programStatus: int, indexCount: int, color: seq<real>,
                    positions: seq<real>, indices: seq<int>)
  {
    match c
    case SetProgram(s) => s == programStatus
    case SetUniform(name, t, v) =>
      if name == CameraUniform then t == Matrix && v == ViewProjection
      else name == ColorUniform && t == Float && v == Floats(color)
    case SetBlendMode(b) => b == Alpha
    case SetGeometry(p, i) => p == positions && i == indices
    case DrawIndexedPrimitives(_, start, count) => start == 0 && count == indexCount
  }

  /** The two uniform names differ, so a colour upload is never taken for a camera upload. */
  lemma UniformNamesDiffer()
    ensures ColorUniform != CameraUniform
  {
    assert ColorUniform[2] != CameraUniform[2];
  }

  lemma InStageOrderAppend(a: seq<Command>, b: seq<Command>, k: nat)
    requires InStageOrder(a) && InStageOrder(b)
    requires forall c :: c in a ==> Stage(c) < k
    requires forall c :: c in b ==> k <= Stage(c)
    ensures InStageOrder(a + b)
  {
    forall i, j | 0 <= i < j < |a + b| ensures Stage((a + b)[i]) < Stage((a + b)[j]) {
      if j < |a| {
        assert (a + b)[i] == a[i] && (a + b)[j] == a[j];
      } else if |a| <= i {
        assert (a + b)[i] == b[i - |a|] && (a + b)[j] == b[j - |a|];
      } else {
        assert (a + b)[i] in a && (a + b)[j] in b;
      }
    }
  }

  /**
   * One submission issues its commands strictly in stage order: the bind
   * first, then the camera matrix, then colour, blend mode and geometry, then
   * the draws, each at most once.
   */
  lemma MeshStagesIncrease(programStatus: int, mode: int, indexCount: int, color: seq<real>,
                           positions: seq<real>, indices: seq<int>)
    ensures InStageOrder(MeshCommands(programStatus, mode, indexCount, color, positions, indices))
  {
    UniformNamesDiffer();
    if programStatus != ProgramUnavailable {
      var cam := CameraCommands(programStatus);
      var st := StateCommands(color, positions, indices);
      var d := DrawCommands(mode, indexCount);
      InStageOrderAppend([SetProgram(programStatus)], cam, 1);
      InStageOrderAppend([SetProgram(programStatus)] + cam, st, 2);
      InStageOrderAppend([SetProgram(programStatus)] + cam + st, d, 5);
    }
  }

  lemma StagesAppend(a: seq<Command>, b: seq<Command>)
    ensures Stages(a + b) == Stages(a) + Stages(b)
  {
  }

  lemma StagesOfDraws(mode: int, indexCount: int)
    ensures Stages(DrawCommands(mode, indexCount)) ==
      (if HasMode(mode, ModeTriangles) then {5} else {})
      + (if HasMode(mode, ModeLines) then {6} else {})
      + (if HasMode(mode, ModePoints) then {7} else {})
  {
    var d := DrawCommands(mode, indexCount);
    var t := DrawIndexedPrimitives(TrianglesFan, 0, indexCount);
    var l := DrawIndexedPrimitives(LinesLoop, 0, indexCount);
    var p := DrawIndexedPrimitives(Points, 0, indexCount);
    forall c | c in d ensures c == t || c == l || c == p {
    }
    assert Stage(t) == 5 && Stage(l) == 6 && Stage(p) == 7;
  }

  lemma StagesOfPrefix(programStatus: int, color: seq<real>, positions: seq<real>, indices: seq<int>)
    requires programStatus != ProgramUnavailable
    ensures Stages([SetProgram(programStatus)] + CameraCommands(programStatus) + StateCommands(color, positions, indices)) ==
      (if programStatus == ProgramFreshlyBound then {0, 1, 2, 3, 4} else {0, 2, 3, 4})
  {
    UniformNamesDiffer();
    var cam := CameraCommands(programStatus);
    var st := StateCommands(color, positions, indices);
    StagesAppend([SetProgram(programStatus)] + cam, st);
    StagesAppend([SetProgram(programStatus)], cam);
    assert Stages([SetProgram(programStatus)]) == {0} by {
      assert SetProgram(programStatus) in [SetProgram(programStatus)];
    }
    assert Stages(cam) == if programStatus == ProgramFreshlyBound then {1} else {} by {
      if programStatus == ProgramFreshlyBound {
        assert cam[0] in cam;
      }
    }
    assert Stages(st) == {2, 3, 4} by {
      assert st[0] in st && st[1] in st && st[2] in st;
    }
  }

  /**
   * One submission reaches exactly the expected stages: the bind always; the
   * camera matrix exactly when freshly bound; colour, blend mode and geometry
   * unless the program is unavailable; one draw stage per set mode bit.
   */
  lemma MeshStagesReached(programStatus: int, mode: int, indexCount: int, color: seq<real>,
                          positions: seq<real>, indices: seq<int>)
    ensures forall s: nat :: s in Stages(MeshCommands(programStatus, mode, indexCount, color, positions, indices))
                             <==> StageExpected(programStatus, mode, s)
  {
    var r := MeshCommands(programStatus, mode, indexCount, color, positions, indices);
    if programStatus == ProgramUnavailable {
      assert Stages(r) == {0} by {
        assert r[0] in r;
      }
    } else {
      var prefix := [SetProgram(programStatus)] + CameraCommands(programStatus) + StateCommands(color, positions, indices);
      assert r == prefix + DrawCommands(mode, indexCount);
      StagesAppend(prefix, DrawCommands(mode, indexCount));
      StagesOfPrefix(programStatus, color, positions, indices);
      StagesOfDraws(mode, indexCount);
      forall s: nat ensures s in Stages(r) <==> StageExpected(programStatus, mode, s) {
        ExpectedStagesSplit(programStatus, mode, s);
      }
    }
  }

  lemma ExpectedStagesSplit(programStatus: int, mode: int, s: nat)
    requires programStatus != ProgramUnavailable
    ensures var early: set<nat> := if programStatus == ProgramFreshlyBound then {0, 1, 2, 3, 4} else {0, 2, 3, 4};
      var late: set<nat> := (if HasMode(mode, ModeTriangles) then {5} else {})
        + (if HasMode(mode, ModeLines) then {6} else {})
        + (if HasMode(mode, ModePoints) then {7} else {});
      s in early + late <==> StageExpected(programStatus, mode, s)
  {
  }

  /** Every command of one submission carries the values the call was given. */
  lemma MeshCommandsCarry(programStatus: int, mode: int, indexCount: int, color: seq<real>,
                          positions: seq<real>, indices: seq<int>)
    ensures forall c :: c in MeshCommands(programStatus, mode, indexCount, color, positions, indices)
                        ==> Carries(c, programStatus, indexCount, color, positions, indices)
  {
    UniformNamesDiffer();
    if programStatus != ProgramUnavailable {
      var cam := CameraCommands(programStatus);
      var st := StateCommands(color, positions, indices);
      var d := DrawCommands(mode, indexCount);
      assert MeshCommands(programStatus, mode, indexCount, color, positions, indices) == [SetProgram(programStatus)] + cam + st + d;
      forall c | c in [SetProgram(programStatus)] + cam + st + d
        ensures Carries(c, programStatus, indexCount, color, positions, indices)
      {
        assert c == SetProgram(programStatus) || c in cam || c in st || c in d;
      }
    }
  }

  /** The kinds of command one looks at in a trace. */
  datatype View = DrawView | ColorView | CameraView | GeometryView

  predicate InView(c: Command, v: View)
  {
    match v
    case DrawView => c.DrawIndexedPrimitives?
    case ColorView => c.SetUniform? && c.name == ColorUniform
    case CameraView => c.SetUniform? && c.name == CameraUniform
    case GeometryView => c.SetGeometry?
  }

  /** The commands of a trace that belong to view `v`, in trace order. */
  function Select(r: seq<Command>, v: View): seq<Command>
  {
    if r == [] then []
    else (if InView(r[0], v) then [r[0]] else []) + Select(r[1..], v)
  }

  lemma {:induction false} SelectAppend(a: seq<Command>, b: seq<Command>, v: View)
    ensures Select(a + b, v) == Select(a, v) + Select(b, v)
  {
    if a == [] {
      assert a + b == b;
    } else {
      var head := if InView(a[0], v) then [a[0]] else [];
      assert (a + b)[0] == a[0];
      assert (a + b)[1..] == a[1..] + b;
      assert Select(a + b, v) == head + Select(a[1..] + b, v);
      assert Select(a, v) == head + Select(a[1..], v);
      SelectAppend(a[1..], b, v);
      AppendAssoc(head, Select(a[1..], v), Select(b, v));
    }
  }

  lemma SelectAppend4(a: seq<Command>, b: seq<Command>, c: seq<Command>, d: seq<Command>, v: View)
    ensures Select(a + b + c + d, v) == Select(a, v) + Select(b, v) + Select(c, v) + Select(d, v)
  {
    SelectAppend(a + b + c, d, v);
    SelectAppend(a + b, c, v);
    SelectAppend(a, b, v);
  }

  lemma SelectSingle(c: Command, v: View)
    ensures Select([c], v) == if InView(c, v) then [c] else []
  {
    assert [c][1..] == [];
  }

  /** A sequence of draws, looked at through each view. */
  lemma {:induction false} SelectDraws(d: seq<Command>, v: View)
    requires forall c :: c in d ==> c.DrawIndexedPrimitives?
    ensures Select(d, v) == if v == DrawView then d else []
  {
    if d != [] {
      assert d[0] in d;
      assert forall c :: c in d[1..] ==> c in d;
      SelectDraws(d[1..], v);
    }
  }

  lemma SelectState(color: seq<real>, positions: seq<real>, indices: seq<int>, v: View)
    ensures Select(StateCommands(color, positions, indices), v) ==
      match v
      case ColorView => [SetUniform(ColorUniform, Float, Floats(color))]
      case GeometryView => [SetGeometry(positions, indices)]
      case _ => []
  {
    UniformNamesDiffer();
    var st := StateCommands(color, positions, indices);
    assert st == [st[0]] + [st[1]] + [st[2]];
    SelectAppend([st[0]] + [st[1]], [st[2]], v);
    SelectAppend([st[0]], [st[1]], v);
    SelectSingle(st[0], v);
    SelectSingle(st[1], v);
    SelectSingle(st[2], v);
  }

  /** One submission seen through view `v`: the bind itself is in no view. */
  lemma MeshSelect(programStatus: int, mode: int, indexCount: int, color: seq<real>,
                   positions: seq<real>, indices: seq<int>, v: View)
    ensures Select(MeshCommands(programStatus, mode, indexCount, color, positions, indices), v) ==
      if programStatus == ProgramUnavailable then []
      else Select(CameraCommands(programStatus), v) + Select(StateCommands(color, positions, indices), v)
           + Select(DrawCommands(mode, indexCount), v)
  {
    var r := MeshCommands(programStatus, mode, indexCount, color, positions, indices);
    var bind := [SetProgram(programStatus)];
    SelectSingle(SetProgram(programStatus), v);
    if programStatus != ProgramUnavailable {
      var cam := CameraCommands(programStatus);
      var st := StateCommands(color, positions, indices);
      var d := DrawCommands(mode, indexCount);
      assert r == bind + cam + st + d;
      SelectAppend4(bind, cam, st, d, v);
    } else {
      assert r == bind;
    }
  }

  /** The camera matrix is uploaded once if the program was freshly bound, and never otherwise. */
  lemma MeshCameraUploads(programStatus: int, mode: int, indexCount: int, color: seq<real>,
                          positions: seq<real>, indices: seq<int>)
    ensures Select(MeshCommands(programStatus, mode, indexCount, color, positions, indices), CameraView) ==
      if programStatus == ProgramFreshlyBound then [SetUniform(CameraUniform, Matrix, ViewProjection)] else []
  {
    MeshSelect(programStatus, mode, indexCount, color, positions, indices, CameraView);
    SelectState(color, positions, indices, CameraView);
    SelectDraws(DrawCommands(mode, indexCount), CameraView);
    if programStatus == ProgramFreshlyBound {
      SelectSingle(SetUniform(CameraUniform, Matrix, ViewProjection), CameraView);
    }
  }

  /** The colour is uploaded exactly once, unless the program is unavailable. */
  lemma MeshColorUploads(programStatus: int, mode: int, indexCount: int, color: seq<real>,
                         positions: seq<real>, indices: seq<int>)
    ensures Select(MeshCommands(programStatus, mode, indexCount, color, positions, indices), ColorView) ==
      if programStatus == ProgramUnavailable then [] else [SetUniform(ColorUniform, Float, Floats(color))]
  {
    UniformNamesDiffer();
    MeshSelect(programStatus, mode, indexCount, color, positions, indices, ColorView);
    SelectState(color, positions, indices, ColorView);
    SelectDraws(DrawCommands(mode, indexCount), ColorView);
    if programStatus == ProgramFreshlyBound {
      SelectSingle(SetUniform(CameraUniform, Matrix, ViewProjection), ColorView);
    }
  }

  /** The geometry is bound exactly once, unless the program is unavailable. */
  lemma MeshGeometryUploads(programStatus: int, mode: int, indexCount: int, color: seq<real>,
                            positions: seq<real>, indices: seq<int>)
    ensures Select(MeshCommands(programStatus, mode, indexCount, color, positions, indices), GeometryView) ==
      if programStatus == ProgramUnavailable then [] else [SetGeometry(positions, indices)]
  {
    MeshSelect(programStatus, mode, indexCount, color, positions, indices, GeometryView);
    SelectState(color, positions, indices, GeometryView);
    SelectDraws(DrawCommands(mode, indexCount), GeometryView);
    if programStatus == ProgramFreshlyBound {
      SelectSingle(SetUniform(CameraUniform, Matrix, ViewProjection), GeometryView);
    }
  }

  /** The draws of the mode are issued, unless the program is unavailable. */
  lemma MeshDraws(programStatus: int, mode: int, indexCount: int, color: seq<real>,
                  positions: seq<real>, indices: seq<int>)
    ensures Select(MeshCommands(programStatus, mode, indexCount, color, positions, indices), DrawView) ==
      if programStatus == ProgramUnavailable then [] else DrawCommands(mode, indexCount)
  {
    MeshSelect(programStatus, mode, indexCount, color, positions, indices, DrawView);
    SelectState(color, positions, indices, DrawView);
    SelectDraws(DrawCommands(mode, indexCount), DrawView);
    if programStatus == ProgramFreshlyBound {
      SelectSingle(SetUniform(CameraUniform, Matrix, ViewProjection), DrawView);
    }
  }

  /** A JavaScript value read from the `DrawingModes` object. */
  datatype JsNumber = Number(n: int) | Undefined

  /** Property lookup on `DebugDraw.DrawingModes`; a misspelt name reads `undefined`. */
  function DrawingModesProperty(name: string): JsNumber
  {
    if name == "Triangles" then Number(ModeTriangles)
    else if name == "Lines" then Number(ModeLines)
    else if name == "Points" then Number(ModePoints)
    else Undefined
  }

  /** The operand `&` sees: `undefined` converts to NaN, and then to 0. */
  function BitOperand(v: JsNumber): int
  {
    match v
    case Number(n) => n
    case Undefined => 0
  }

  /**
   * As written, drawAxes passes `DrawingModes.Line` for the Y axis: the
   * lookup reads `undefined`, so that submission issues no draw at all,
   * while the intended `DrawingModes.Lines` draws one line loop.
   */
  lemma MisspeltLinesModeDrawsNothing(programStatus: int, color: seq<real>, positions: seq<real>, indices: seq<int>)
    requires programStatus != ProgramUnavailable
    ensures Select(MeshCommands(programStatus, BitOperand(DrawingModesProperty("Line")), 2, color, positions, indices), DrawView) == []
    ensures Select(MeshCommands(programStatus, BitOperand(DrawingModesProperty("Lines")), 2, color, positions, indices), DrawView)
            == [DrawIndexedPrimitives(LinesLoop, 0, 2)]
  {
    assert BitOperand(DrawingModesProperty("Line")) == 0;
    assert BitOperand(DrawingModesProperty("Lines")) == ModeLines;
    MeshDraws(programStatus, 0, 2, color, positions, indices);
    MeshDraws(programStatus, ModeLines, 2, color, positions, indices);
    NoModeNoDraw(2);
    LinesModeDrawsOneLoop(2);
  }
}
