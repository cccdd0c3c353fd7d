// The command-replay tessellator: `FillTessellator` and the second half of
// `fill_tessellate` (nice-path-tessellator/src/lib.rs).
//
// The replay walks the path once, keeping the contour start and the pen. Only
// quadratic curves produce output: one "wedge" triangle (pen, control, end)
// per curve, appended to the quadratic index list. Straight edges are covered
// by the external fill triangulation, whose output seeds the vertex and fill
// index lists before the replay starts.

module Tessellator {
  import opened Paths
  import opened Bounds
  import opened Sinks

  /** A triangle corner: a position not yet in the vertex list, or the index of one that is. */
  datatype Vert = Pos(pos: Point) | Idx(idx: u16)

  /** `[Vert; 3]`. */
  type VertTri = s: seq<Vert> | |s| == 3 witness [Idx(0), Idx(0), Idx(0)]

  const Origin: Point := Point(0.0, 0.0)

  /** The external fill triangulation's output: vertices and a flat triangle index list. */
  datatype Triangulation = Triangulation(vertices: seq<Point>, indices: seq<u16>)

  // ---------------------------------------------------------------------------
  // Specification of the replay on sink states
  // ---------------------------------------------------------------------------

  /** The positions of the `Pos` corners, in order: the vertices `make_tri` pushes. */
  function FreshPositions(verts: seq<Vert>): seq<Point>
  {
    if verts == [] then []
    else
      var last := verts[|verts| - 1];
      FreshPositions(verts[..|verts| - 1]) + (if last.Pos? then [last.pos] else [])
  }

  /** One iteration of the loop in `make_tri`: a `Pos` corner is pushed and
      gets the index `verts_len()` had just before; an `Idx` corner keeps its index. */
  function MakeTriCorner(acc: (SinkState, seq<u16>), v: Vert): (r: (SinkState, seq<u16>))
    ensures |r.1| == |acc.1| + 1 && r.1[..|acc.1|] == acc.1
    ensures r.0.VecState? == acc.0.VecState?
    ensures v.Idx? ==> r.0 == acc.0 && r.1[|acc.1|] == v.idx
    ensures v.Pos? && acc.0.VecState? && |acc.0.verts| < U16Limit ==>
      r.1[|acc.1|] < |r.0.verts| && r.0.verts[r.1[|acc.1|]] == v.pos
  {
    match v
    case Pos(p) =>
      var r := (acc.0.PushVert(p), acc.1 + [acc.0.VertsLen()]);
      assert r.1[..|acc.1|] == acc.1;
      r
    case Idx(i) =>
      var r := (acc.0, acc.1 + [i]);
      assert r.1[..|acc.1|] == acc.1;
      r
  }

  /** `make_tri`: the corners handled in order. */
  function MakeTriSpec(s: SinkState, verts: seq<Vert>): (r: (SinkState, seq<u16>))
    ensures |r.1| == |verts|
    ensures r.0.VecState? == s.VecState?
  {
    if verts == [] then (s, [])
    else MakeTriCorner(MakeTriSpec(s, verts[..|verts| - 1]), verts[|verts| - 1])
  }

  /** `quadratic_curve_to`: one wedge triangle (pen, ctrl, to); the pen then
      becomes the index of the curve's end point. */
  function CurveStep(s: SinkState, t: FillTessellator, ctrl: Point, to: Point): (r: (SinkState, FillTessellator))
    ensures r.0.VecState? == s.VecState?
    ensures r.1.start == t.start && r.1.pen.Idx?
  {
    var (s1, idxs) := MakeTriSpec(s, [t.pen, Pos(ctrl), Pos(to)]);
    (s1.PushQuadraticTri(idxs), t.(pen := Idx(idxs[0])).LineToImpl(Idx(idxs[2])))
  }

  /** One command of the replay loop in `fill_tessellate`. */
  function Step(s: SinkState, t: FillTessellator, cmd: PathCommand): (r: (SinkState, FillTessellator))
    ensures r.0.VecState? == s.VecState?
    ensures !cmd.QuadraticCurveTo? ==> r.0 == s
    ensures cmd.MoveTo? ==> r.1.start == Pos(cmd.to) && r.1.pen == Pos(cmd.to)
    ensures cmd.LineTo? ==> r.1.start == t.start && r.1.pen == Pos(cmd.to)
    ensures cmd.QuadraticCurveTo? ==> r.1.start == t.start && r.1.pen.Idx?
  {
    match cmd
    case MoveTo(to) => (s, t.MoveTo(to))
    case LineTo(to) => (s, t.LineTo(to))
    case QuadraticCurveTo(ctrl, to) => CurveStep(s, t, ctrl, to)
  }

  /** The replay of a whole command list, in order. */
  function Replay(s: SinkState, t: FillTessellator, cmds: seq<PathCommand>): (r: (SinkState, FillTessellator))
    ensures r.0.VecState? == s.VecState?
  {
    if cmds == [] then (s, t)
    else
      var r := Replay(s, t, cmds[..|cmds| - 1]);
      Step(r.0, r.1, cmds[|cmds| - 1])
  }

  /** `VecPathVertBufs::new()` with the triangulation's vertices and indices assigned to it. */
  function Seeded(tri: Triangulation): (s: SinkState)
    ensures s == EmptyVec.(verts := tri.vertices, fillIdxs := tri.indices)
  {
    VecState(tri.vertices, tri.indices, [], Unset, Unset)
  }

  /** What `fill_tessellate` returns for a path and its triangulation. */
  function Tessellate(path: Path, tri: Triangulation): (r: SinkState)
    ensures r.VecState?
  {
    Replay(Seeded(tri), FillTessellator.Start(), path.commands).0
  }

  // ---------------------------------------------------------------------------
  // The tessellator
  // ---------------------------------------------------------------------------

  /** The tessellator's own state. The source's struct also borrows the sink
      (`bufs: &mut dyn BufsBuilder`); here the borrowed sink is passed to the
      operations that use it. */
  datatype FillTessellator = FillTessellator(start: Vert, pen: Vert)
  {
    static function Start(): (t: FillTessellator)
      ensures t.start == t.pen == Pos(Origin)
    {
      FillTessellator(Pos(Origin), Pos(Origin))
    }

    function MoveTo(to: Point): (t: FillTessellator)
      ensures t.start == t.pen == Pos(to)
    {
      this.(start := Pos(to), pen := Pos(to))
    }

    function LineTo(to: Point): (t: FillTessellator)
      ensures t.start == start && t.pen == Pos(to)
    {
      LineToImpl(Pos(to))
    }

    function LineToImpl(to: Vert): (t: FillTessellator)
      ensures t.start == start && t.pen == to
    {
      this.(pen := to)
    }

    method QuadraticCurveTo(bufs: Sink, ctrl: Point, to: Point) returns (t: FillTessellator)
      modifies bufs.Obj()
      ensures (bufs.State(), t) == CurveStep(old(bufs.State()), this, ctrl, to)
    {
      var out := PushQuadraticTri(bufs, [pen, Pos(ctrl), Pos(to)]);
      t := this.(pen := out[0]);
      t := t.LineToImpl(out[2]);
    }

    method PushQuadraticTri(bufs: Sink, verts: VertTri) returns (out: VertTri)
      modifies bufs.Obj()
      ensures var (s1, idxs) := MakeTriSpec(old(bufs.State()), verts);
        && bufs.State() == s1.PushQuadraticTri(idxs)
        && out == [Idx(idxs[0]), Idx(idxs[1]), Idx(idxs[2])]
    {
      var idxs := MakeTri(bufs, verts);
      bufs.PushQuadraticTri(idxs);
      out := [Idx(idxs[0]), Idx(idxs[1]), Idx(idxs[2])];
    }

    method MakeTri(bufs: Sink, verts: VertTri) returns (idxs: Tri)
      modifies bufs.Obj()
      ensures (bufs.State(), idxs) == MakeTriSpec(old(bufs.State()), verts)
    {
      ghost var s0 := bufs.State();
      var a := new u16[3](_ => 0);
      for i := 0 to 3
        invariant (bufs.State(), a[..i]) == MakeTriSpec(s0, verts[..i])
      {
        assert verts[..i + 1][..i] == verts[..i];
        match verts[i] {
          case Pos(pos) =>
            a[i] := bufs.VertsLen();
            bufs.PushVert(pos);
          case Idx(idx) =>
            a[i] := idx;
        }
        assert a[..i + 1] == a[..i] + [a[i]];
      }
      assert verts[..3] == verts && a[..3] == a[..];
      idxs := a[..];
    }
  }

  /** `fill_tessellate`, from the triangulation on: seed the storing sink, then
      replay the commands through a fresh tessellator. */
  method FillTessellate(path: Path, tri: Triangulation) returns (bufs: VecPathVertBufs)
    ensures fresh(bufs)
    ensures bufs.State() == Tessellate(path, tri)
  {
    bufs := new VecPathVertBufs();
    bufs.verts := tri.vertices;
    bufs.fillIdxs := tri.indices;
    var sink := Vec(bufs);
    var tess := FillTessellator.Start();
    for i := 0 to |path.commands|
      invariant (bufs.State(), tess) == Replay(Seeded(tri), FillTessellator.Start(), path.commands[..i])
    {
      assert path.commands[..i + 1][..i] == path.commands[..i];
      match path.commands[i]
      case MoveTo(to) => tess := tess.MoveTo(to);
      case LineTo(to) => tess := tess.LineTo(to);
      case QuadraticCurveTo(ctrl, to) => tess := tess.QuadraticCurveTo(sink, ctrl, to);
    }
    assert path.commands[..|path.commands|] == path.commands;
  }
}
