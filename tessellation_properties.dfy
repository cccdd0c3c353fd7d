// What the replay guarantees: how `make_tri` numbers vertices, what one curve
// adds, what a whole replay leaves behind, and that the storing and the
// counting sink see the same calls and agree on every count.

module TessellationProperties {
  import opened Paths
  import opened Bounds
  import opened Sinks
  import opened Tessellator

  /** Every entry of `xs` lies in `[lo, hi)`. */
  predicate InRange(xs: seq<u16>, lo: int, hi: int)
  {
    forall i :: 0 <= i < |xs| ==> lo <= xs[i] < hi
  }

  /** A pen holding an index points into `[lo, hi)`. */
  predicate PenInRange(t: FillTessellator, lo: int, hi: int)
  {
    t.pen.Idx? ==> lo <= t.pen.idx < hi
  }

  /** The vertices one command makes the tessellator push: those of the
      curve's `Pos` corners, and none for a straight edge. */
  function PushedBy(t: FillTessellator, cmd: PathCommand): seq<Point>
  {
    match cmd
    case QuadraticCurveTo(ctrl, to) => FreshPositions([t.pen, Pos(ctrl), Pos(to)])
    case _ => []
  }

  /** A curve pushes (pen, ctrl, to) from a position pen and (ctrl, to) from an index pen. */
  lemma CurvePushes(pen: Vert, ctrl: Point, to: Point)
    ensures FreshPositions([pen, Pos(ctrl), Pos(to)])
         == if pen.Pos? then [pen.pos, ctrl, to] else [ctrl, to]
  {
    var v1, v2, v3 := [pen], [pen, Pos(ctrl)], [pen, Pos(ctrl), Pos(to)];
    assert v3[..2] == v2 && v2[..1] == v1 && v1[..0] == [];
    var f1 := FreshPositions(v1);
    assert f1 == FreshPositions([]) + (if pen.Pos? then [pen.pos] else []);
    assert FreshPositions(v2) == f1 + [ctrl];
    assert FreshPositions(v3) == f1 + [ctrl] + [to];
  }

  // ---------------------------------------------------------------------------
  // make_tri
  // ---------------------------------------------------------------------------

  /** `verts_len()` moves up by the number of `Pos` corners `make_tri` pushes (mod 2^16). */
  lemma {:induction false} MakeTriVertsLen(s: SinkState, verts: seq<Vert>)
    ensures MakeTriSpec(s, verts).0.VertsLen() == WrapU16(s.VertsLen() + |FreshPositions(verts)|)
  {
    if verts != [] {
      var k := |verts| - 1;
      var init, last := verts[..k], verts[k];
      MakeTriVertsLen(s, init);
      assert MakeTriSpec(s, verts) == MakeTriCorner(MakeTriSpec(s, init), last);
      if last.Pos? {
        assert FreshPositions(verts) == FreshPositions(init) + [last.pos];
        WrapU16Add(s.VertsLen() + |FreshPositions(init)|, 1);
      } else {
        assert FreshPositions(verts) == FreshPositions(init);
      }
    }
  }

  /** `make_tri` keeps every `Idx` corner's index. */
  lemma {:induction false} MakeTriKeepsIndices(s: SinkState, verts: seq<Vert>)
    ensures forall i :: 0 <= i < |verts| && verts[i].Idx? ==> MakeTriSpec(s, verts).1[i] == verts[i].idx
  {
    if verts != [] {
      var k := |verts| - 1;
      var init := verts[..k];
      MakeTriKeepsIndices(s, init);
      var r0 := MakeTriSpec(s, init);
      var r := MakeTriSpec(s, verts);
      assert r == MakeTriCorner(r0, verts[k]);
      forall i | 0 <= i < k
        ensures verts[i] == init[i] && r.1[i] == r0.1[i]
      {
      }
    }
  }

  /** `make_tri` gives the k-th `Pos` corner the index `verts_len() + k`
      (mod 2^16), so fresh indices are consecutive. */
  lemma {:induction false} MakeTriFreshIndices(s: SinkState, verts: seq<Vert>)
    ensures forall i :: 0 <= i < |verts| && verts[i].Pos? ==>
      MakeTriSpec(s, verts).1[i] == WrapU16(s.VertsLen() + |FreshPositions(verts[..i])|)
  {
    if verts != [] {
      var k := |verts| - 1;
      var init := verts[..k];
      MakeTriFreshIndices(s, init);
      MakeTriVertsLen(s, init);
      var r0 := MakeTriSpec(s, init);
      var r := MakeTriSpec(s, verts);
      assert r == MakeTriCorner(r0, verts[k]);
      assert verts[..k] == init;
      forall i | 0 <= i < k
        ensures verts[i] == init[i] && r.1[i] == r0.1[i] && verts[..i] == init[..i]
      {
      }
    }
  }

  /** On the storing sink `make_tri` pushes exactly the `Pos` positions, in
      order, and leaves both index lists alone. */
  lemma {:induction false} MakeTriPushes(s: SinkState, verts: seq<Vert>)
    requires s.VecState?
    ensures var s1 := MakeTriSpec(s, verts).0;
      && s1.verts == s.verts + FreshPositions(verts)
      && s1.fillIdxs == s.fillIdxs
      && s1.quadraticIdxs == s.quadraticIdxs
  {
    if verts != [] {
      var init := verts[..|verts| - 1];
      MakeTriPushes(s, init);
      var s0 := MakeTriSpec(s, init).0;
      var s1 := MakeTriSpec(s, verts).0;
      var ps := FreshPositions(init);
      match verts[|verts| - 1] {
        case Pos(p) =>
          assert s1 == s0.PushVert(p);
          assert FreshPositions(verts) == ps + [p];
        case Idx(_) =>
          assert s1 == s0;
          assert FreshPositions(verts) == ps;
      }
    }
  }

  /** ... and grows the box over exactly those positions. */
  lemma {:induction false} MakeTriBox(s: SinkState, verts: seq<Vert>)
    requires s.VecState?
    ensures var s1 := MakeTriSpec(s, verts).0;
      (s1.leftTop, s1.rightBottom) == GrowAll((s.leftTop, s.rightBottom), FreshPositions(verts))
  {
    if verts != [] {
      var init := verts[..|verts| - 1];
      MakeTriBox(s, init);
      var s0 := MakeTriSpec(s, init).0;
      var s1 := MakeTriSpec(s, verts).0;
      var ps := FreshPositions(init);
      var b := (s.leftTop, s.rightBottom);
      match verts[|verts| - 1] {
        case Pos(p) =>
          assert s1 == s0.PushVert(p);
          assert FreshPositions(verts) == ps + [p];
          assert (ps + [p])[..|ps|] == ps;
          assert GrowAll(b, ps + [p]) == Grow(GrowAll(b, ps), p);
          assert (s1.leftTop, s1.rightBottom) == Grow((s0.leftTop, s0.rightBottom), p);
        case Idx(_) =>
          assert s1 == s0;
          assert FreshPositions(verts) == ps;
      }
    }
  }

  /** `make_tri` on three corners is three steps of its loop. */
  lemma ThreeCorners(s: SinkState, a: Vert, b: Vert, c: Vert)
    ensures var r := MakeTriSpec(s, [a, b, c]);
      var q := MakeTriCorner(MakeTriCorner(MakeTriCorner((s, []), a), b), c);
      r.0 == q.0 && r.1 == q.1
  {
    var v1, v2, v3 := [a], [a, b], [a, b, c];
    assert v3[..2] == v2 && v2[..1] == v1 && v1[..0] == [];
    var r0 := MakeTriSpec(s, []);
    assert r0.0 == s && r0.1 == [];
    var r1 := MakeTriSpec(s, v1);
    assert r1 == MakeTriCorner(r0, a);
    var r2 := MakeTriSpec(s, v2);
    assert r2 == MakeTriCorner(r1, b);
    var r3 := MakeTriSpec(s, v3);
    assert r3 == MakeTriCorner(r2, c);
  }

  /** Each `push_vert` moves `verts_len()` up by one, modulo 2^16. */
  lemma TwoPushes(s: SinkState, p: Point, q: Point)
    ensures s.PushVert(p).VertsLen() == WrapU16(s.VertsLen() as int + 1)
    ensures s.PushVert(p).PushVert(q).VertsLen() == WrapU16(s.VertsLen() as int + 2)
  {
    WrapU16Add(s.VertsLen() as int + 1, 1);
  }

  /** `make_tri` on a curve's triple when the pen is a position: all three
      corners are pushed and get three consecutive indices. */
  lemma MakeTriFromPosition(s: SinkState, p: Point, ctrl: Point, to: Point)
    ensures var n := s.VertsLen() as int;
      var r := MakeTriSpec(s, [Pos(p), Pos(ctrl), Pos(to)]);
      && r.0 == s.PushVert(p).PushVert(ctrl).PushVert(to)
      && r.1 == [WrapU16(n), WrapU16(n + 1), WrapU16(n + 2)]
  {
    ThreeCorners(s, Pos(p), Pos(ctrl), Pos(to));
    TwoPushes(s, p, ctrl);
    var r1 := MakeTriCorner((s, []), Pos(p));
    var r2 := MakeTriCorner(r1, Pos(ctrl));
    var r3 := MakeTriCorner(r2, Pos(to));
    assert r3.1 == [] + [s.VertsLen()] + [s.PushVert(p).VertsLen()] + [s.PushVert(p).PushVert(ctrl).VertsLen()];
  }

  /** `make_tri` on a curve's triple when the pen is an index: the pen keeps
      its index, the other two corners are pushed and get the next two. */
  lemma MakeTriFromIndex(s: SinkState, i: u16, ctrl: Point, to: Point)
    ensures var n := s.VertsLen() as int;
      var r := MakeTriSpec(s, [Idx(i), Pos(ctrl), Pos(to)]);
      && r.0 == s.PushVert(ctrl).PushVert(to)
      && r.1 == [i, WrapU16(n), WrapU16(n + 1)]
  {
    ThreeCorners(s, Idx(i), Pos(ctrl), Pos(to));
    TwoPushes(s, ctrl, to);
    var r1 := MakeTriCorner((s, []), Idx(i));
    var r2 := MakeTriCorner(r1, Pos(ctrl));
    var r3 := MakeTriCorner(r2, Pos(to));
    assert r3.1 == [] + [i] + [s.VertsLen()] + [s.PushVert(ctrl).VertsLen()];
  }

  /** Three `push_vert` calls on the storing sink append the three positions
      and grow the box over them. */
  lemma PushThreeVerts(s: SinkState, p: Point, q: Point, u: Point)
    requires s.VecState?
    ensures var s1 := s.PushVert(p).PushVert(q).PushVert(u);
      && s1.verts == s.verts + [p, q, u]
      && s1.fillIdxs == s.fillIdxs && s1.quadraticIdxs == s.quadraticIdxs
      && (s1.leftTop, s1.rightBottom) == GrowAll((s.leftTop, s.rightBottom), [p, q, u])
  {
    var b := (s.leftTop, s.rightBottom);
    var ps := [p, q, u];
    assert ps[..2] == [p, q] && [p, q][..1] == [p] && [p][..0] == [];
    assert GrowAll(b, [p]) == Grow(b, p);
    assert GrowAll(b, [p, q]) == Grow(Grow(b, p), q);
    assert GrowAll(b, ps) == Grow(Grow(Grow(b, p), q), u);
    assert s.verts + [p] + [q] + [u] == s.verts + ps;
  }

  /** The same for two `push_vert` calls. */
  lemma PushTwoVerts(s: SinkState, p: Point, q: Point)
    requires s.VecState?
    ensures var s1 := s.PushVert(p).PushVert(q);
      && s1.verts == s.verts + [p, q]
      && s1.fillIdxs == s.fillIdxs && s1.quadraticIdxs == s.quadraticIdxs
      && (s1.leftTop, s1.rightBottom) == GrowAll((s.leftTop, s.rightBottom), [p, q])
  {
    var b := (s.leftTop, s.rightBottom);
    var ps := [p, q];
    assert ps[..1] == [p] && [p][..0] == [];
    assert GrowAll(b, [p]) == Grow(b, p);
    assert GrowAll(b, ps) == Grow(Grow(b, p), q);
    assert s.verts + [p] + [q] == s.verts + ps;
  }

  // ---------------------------------------------------------------------------
  // One command
  // ---------------------------------------------------------------------------

  /** On the storing sink the next indices are the vertex count and its successors, mod 2^16. */
  lemma VecVertsLen(s: SinkState)
    requires s.VecState?
    ensures s.VertsLen() == WrapU16(|s.verts|)
    ensures WrapU16(s.VertsLen() as int + 1) == WrapU16(|s.verts| + 1)
    ensures WrapU16(s.VertsLen() as int + 2) == WrapU16(|s.verts| + 2)
  {
    WrapU16Add(|s.verts|, 1);
    WrapU16Add(|s.verts|, 2);
  }

  /** A curve drawn from a pen that holds a position. */
  lemma CurveFromPosition(s: SinkState, start: Vert, p: Point, ctrl: Point, to: Point)
    requires s.VecState?
    ensures var (s1, t1) := CurveStep(s, FillTessellator(start, Pos(p)), ctrl, to);
      var n := |s.verts|;
      && s1.verts == s.verts + [p, ctrl, to]
      && s1.fillIdxs == s.fillIdxs
      && s1.quadraticIdxs == s.quadraticIdxs + [WrapU16(n), WrapU16(n + 1), WrapU16(n + 2)]
      && (s1.leftTop, s1.rightBottom) == GrowAll((s.leftTop, s.rightBottom), [p, ctrl, to])
      && t1 == FillTessellator(start, Idx(WrapU16(n + 2)))
  {
    MakeTriFromPosition(s, p, ctrl, to);
    PushThreeVerts(s, p, ctrl, to);
    VecVertsLen(s);
    var n := |s.verts|;
    var r := MakeTriSpec(s, [Pos(p), Pos(ctrl), Pos(to)]);
    var idxs: Tri := [WrapU16(n), WrapU16(n + 1), WrapU16(n + 2)];
    assert r.1 == idxs;
    assert CurveStep(s, FillTessellator(start, Pos(p)), ctrl, to).0 == r.0.PushQuadraticTri(idxs);
  }

  /** A curve drawn from a pen that holds an index. */
  lemma CurveFromIndex(s: SinkState, start: Vert, i: u16, ctrl: Point, to: Point)
    requires s.VecState?
    ensures var (s1, t1) := CurveStep(s, FillTessellator(start, Idx(i)), ctrl, to);
      var n := |s.verts|;
      && s1.verts == s.verts + [ctrl, to]
      && s1.fillIdxs == s.fillIdxs
      && s1.quadraticIdxs == s.quadraticIdxs + [i, WrapU16(n), WrapU16(n + 1)]
      && (s1.leftTop, s1.rightBottom) == GrowAll((s.leftTop, s.rightBottom), [ctrl, to])
      && t1 == FillTessellator(start, Idx(WrapU16(n + 1)))
  {
    MakeTriFromIndex(s, i, ctrl, to);
    PushTwoVerts(s, ctrl, to);
    VecVertsLen(s);
    var n := |s.verts|;
    var r := MakeTriSpec(s, [Idx(i), Pos(ctrl), Pos(to)]);
    var idxs: Tri := [i, WrapU16(n), WrapU16(n + 1)];
    assert r.1 == idxs;
    assert CurveStep(s, FillTessellator(start, Idx(i)), ctrl, to).0 == r.0.PushQuadraticTri(idxs);
  }

  /** One command on the storing sink: `MoveTo` and `LineTo` change nothing; a
      curve whose pen is a position pushes (pen, ctrl, to) and the triple
      (n, n+1, n+2); a curve whose pen is an index pushes (ctrl, to) and the
      triple (pen, n, n+1). The fill list is never touched, the box grows over
      exactly the pushed vertices, and after a curve the pen is the index of
      its end point. */
  lemma StepFacts(s: SinkState, t: FillTessellator, cmd: PathCommand)
    requires s.VecState?
    ensures var (s1, t1) := Step(s, t, cmd);
      var n := |s.verts|;
      && s1.verts == s.verts + PushedBy(t, cmd)
      && s1.fillIdxs == s.fillIdxs
      && s1.quadraticIdxs == s.quadraticIdxs +
           (if !cmd.QuadraticCurveTo? then []
            else if t.pen.Pos? then [WrapU16(n), WrapU16(n + 1), WrapU16(n + 2)]
            else [t.pen.idx, WrapU16(n), WrapU16(n + 1)])
      && (s1.leftTop, s1.rightBottom) == GrowAll((s.leftTop, s.rightBottom), PushedBy(t, cmd))
      && (cmd.QuadraticCurveTo? ==>
            t1 == FillTessellator(t.start, Idx(s1.quadraticIdxs[|s1.quadraticIdxs| - 1])))
  {
    match cmd
    case QuadraticCurveTo(ctrl, to) =>
      CurvePushes(t.pen, ctrl, to);
      match t.pen {
        case Pos(p) => CurveFromPosition(s, t.start, p, ctrl, to);
        case Idx(i) => CurveFromIndex(s, t.start, i, ctrl, to);
      }
    case MoveTo(_) =>
      assert s.verts + [] == s.verts && s.quadraticIdxs + [] == s.quadraticIdxs;
    case LineTo(_) =>
      assert s.verts + [] == s.verts && s.quadraticIdxs + [] == s.quadraticIdxs;
  }

  /** Two curves in a row share a vertex: the second wedge starts at the index
      where the first one ended, and only two vertices are pushed for it. */
  lemma ConsecutiveCurvesShareVertex(s: SinkState, t: FillTessellator, c1: Point, p1: Point, c2: Point, p2: Point)
    requires s.VecState?
    ensures var (r1, t1) := Step(s, t, QuadraticCurveTo(c1, p1));
      var r2 := Step(r1, t1, QuadraticCurveTo(c2, p2)).0;
      && r2.verts == r1.verts + [c2, p2]
      && |r2.quadraticIdxs| == |r1.quadraticIdxs| + 3
      && r2.quadraticIdxs[|r1.quadraticIdxs|] == r1.quadraticIdxs[|r1.quadraticIdxs| - 1]
  {
    StepFacts(s, t, QuadraticCurveTo(c1, p1));
    var (r1, t1) := Step(s, t, QuadraticCurveTo(c1, p1));
    StepFacts(r1, t1, QuadraticCurveTo(c2, p2));
    CurvePushes(t1.pen, c2, p2);
  }

  /** A curve straight after `MoveTo(p)` or `LineTo(p)` pushes `[p, ctrl, to]`
      and the triple of their fresh indices. */
  lemma CurveAfterStraightEdge(s: SinkState, t: FillTessellator, cmd: PathCommand, ctrl: Point, to: Point)
    requires s.VecState? && (cmd.MoveTo? || cmd.LineTo?)
    ensures var (r, t1) := Step(s, t, cmd);
      var r1 := Step(r, t1, QuadraticCurveTo(ctrl, to)).0;
      var n := |s.verts|;
      && r1.verts == s.verts + [cmd.to, ctrl, to]
      && r1.quadraticIdxs == s.quadraticIdxs + [WrapU16(n), WrapU16(n + 1), WrapU16(n + 2)]
  {
    var (r, t1) := Step(s, t, cmd);
    StepFacts(r, t1, QuadraticCurveTo(ctrl, to));
    CurvePushes(t1.pen, ctrl, to);
  }

  // ---------------------------------------------------------------------------
  // A whole replay on the storing sink
  // ---------------------------------------------------------------------------

  /** The replay keeps the fill list, only appends vertices and quadratic
      indices, and adds exactly three indices per curve. */
  lemma {:induction false} ReplayLists(s: SinkState, t: FillTessellator, cmds: seq<PathCommand>)
    requires s.VecState?
    ensures var r := Replay(s, t, cmds).0;
      && r.fillIdxs == s.fillIdxs
      && |s.verts| <= |r.verts| && r.verts[..|s.verts|] == s.verts
      && |r.quadraticIdxs| == |s.quadraticIdxs| + 3 * CurveCount(cmds)
      && r.quadraticIdxs[..|s.quadraticIdxs|] == s.quadraticIdxs
  {
    if cmds != [] {
      var init := cmds[..|cmds| - 1];
      ReplayLists(s, t, init);
      var (r0, t0) := Replay(s, t, init);
      StepFacts(r0, t0, cmds[|cmds| - 1]);
      assert cmds[..|cmds| - 1] == init;
    }
  }

  /** Dropping a prefix of `a` from `a + b` leaves the rest of `a`, then `b`. */
  lemma SliceAppend<T>(a: seq<T>, b: seq<T>, n: nat)
    requires n <= |a|
    ensures (a + b)[n..] == a[n..] + b
  {
  }

  /** One command appends exactly the vertices it pushes and grows the box over them. */
  lemma StepBox(s: SinkState, t: FillTessellator, cmd: PathCommand)
    requires s.VecState?
    ensures var r := Step(s, t, cmd).0;
      && r.verts == s.verts + PushedBy(t, cmd)
      && (r.leftTop, r.rightBottom) == GrowAll((s.leftTop, s.rightBottom), PushedBy(t, cmd))
  {
    StepFacts(s, t, cmd);
  }

  /** After the replay the box is the one grown over exactly the vertices the
      replay pushed. */
  lemma {:induction false} ReplayBox(s: SinkState, t: FillTessellator, cmds: seq<PathCommand>)
    requires s.VecState?
    ensures var r := Replay(s, t, cmds).0;
      && |s.verts| <= |r.verts|
      && (r.leftTop, r.rightBottom) == GrowAll((s.leftTop, s.rightBottom), r.verts[|s.verts|..])
  {
    if cmds == [] {
      assert s.verts[|s.verts|..] == [];
    } else {
      var init := cmds[..|cmds| - 1];
      ReplayBox(s, t, init);
      var (r0, t0) := Replay(s, t, init);
      var r := Replay(s, t, cmds).0;
      var pushed := PushedBy(t0, cmds[|cmds| - 1]);
      StepBox(r0, t0, cmds[|cmds| - 1]);
      SliceAppend(r0.verts, pushed, |s.verts|);
      GrowAllAppend((s.leftTop, s.rightBottom), r0.verts[|s.verts|..], pushed);
    }
  }

  /** Widening the range and appending indices in range keeps a list in range. */
  lemma InRangeAppend(xs: seq<u16>, ys: seq<u16>, lo: int, mid: int, hi: int)
    requires InRange(xs, lo, mid) && mid <= hi && InRange(ys, lo, hi)
    ensures InRange(xs + ys, lo, hi)
  {
    assert forall i :: 0 <= i < |ys| ==> (xs + ys)[|xs| + i] == ys[i];
  }

  /** One command keeps every quadratic index and the pen pointing into
      `[lo, verts.len())`, while the vertex count stays below 2^16. */
  lemma StepIndicesInRange(s: SinkState, t: FillTessellator, cmd: PathCommand, lo: int)
    requires s.VecState? && lo <= |s.verts|
    requires |Step(s, t, cmd).0.verts| < U16Limit
    requires InRange(s.quadraticIdxs, lo, |s.verts|) && PenInRange(t, lo, |s.verts|)
    ensures var (r, t1) := Step(s, t, cmd);
      && |s.verts| <= |r.verts|
      && InRange(r.quadraticIdxs, lo, |r.verts|) && PenInRange(t1, lo, |r.verts|)
  {
    var n := |s.verts|;
    match cmd
    case QuadraticCurveTo(ctrl, to) =>
      match t.pen {
        case Pos(p) =>
          CurveFromPosition(s, t.start, p, ctrl, to);
          assert WrapU16(n) == n && WrapU16(n + 1) == n + 1 && WrapU16(n + 2) == n + 2;
          InRangeAppend(s.quadraticIdxs, [n, n + 1, n + 2], lo, n, n + 3);
        case Idx(i) =>
          CurveFromIndex(s, t.start, i, ctrl, to);
          assert WrapU16(n) == n && WrapU16(n + 1) == n + 1;
          InRangeAppend(s.quadraticIdxs, [i, n, n + 1], lo, n, n + 2);
      }
    case MoveTo(_) =>
    case LineTo(_) =>
  }

  /** Below 2^16 vertices every quadratic index produced by the replay points
      at a vertex the replay itself pushed: at least `lo` (the vertex count
      before it started) and below the final vertex count. */
  lemma {:induction false} ReplayIndicesInRange(s: SinkState, t: FillTessellator, cmds: seq<PathCommand>, lo: int)
    requires s.VecState? && lo <= |s.verts|
    requires |Replay(s, t, cmds).0.verts| < U16Limit
    requires InRange(s.quadraticIdxs, lo, |s.verts|) && PenInRange(t, lo, |s.verts|)
    ensures var (r, t1) := Replay(s, t, cmds);
      && |s.verts| <= |r.verts|
      && InRange(r.quadraticIdxs, lo, |r.verts|) && PenInRange(t1, lo, |r.verts|)
  {
    if cmds != [] {
      var init := cmds[..|cmds| - 1];
      var (r0, t0) := Replay(s, t, init);
      StepFacts(r0, t0, cmds[|cmds| - 1]);
      ReplayIndicesInRange(s, t, init, lo);
      StepIndicesInRange(r0, t0, cmds[|cmds| - 1], lo);
    }
  }

  // ---------------------------------------------------------------------------
  // What the pen and the quadratic triples point at
  // ---------------------------------------------------------------------------

  /** Where the pen stands after `cmds`, having started at `g`: every command
      leaves it on its end point. */
  function PenAfter(g: Point, cmds: seq<PathCommand>): Point
  {
    if cmds == [] then g else cmds[|cmds| - 1].to
  }

  /** The pen stands on `g`: it holds `g` itself, or the index of a stored vertex equal to `g`. */
  predicate PenAt(t: FillTessellator, verts: seq<Point>, g: Point)
  {
    match t.pen
    case Pos(p) => p == g
    case Idx(i) => i < |verts| && verts[i] == g
  }

  /** The quadratic triple starting at `j` names stored vertices equal to `a`, `b`, `c`. */
  predicate Wedge(s: SinkState, j: int, a: Point, b: Point, c: Point)
  {
    && s.VecState? && 0 <= j && j + 3 <= |s.quadraticIdxs|
    && s.quadraticIdxs[j] < |s.verts| && s.verts[s.quadraticIdxs[j]] == a
    && s.quadraticIdxs[j + 1] < |s.verts| && s.verts[s.quadraticIdxs[j + 1]] == b
    && s.quadraticIdxs[j + 2] < |s.verts| && s.verts[s.quadraticIdxs[j + 2]] == c
  }

  /** Below 2^16 vertices, after any command the pen stands on that command's end point. */
  lemma StepPen(s: SinkState, t: FillTessellator, cmd: PathCommand)
    requires s.VecState? && |Step(s, t, cmd).0.verts| < U16Limit
    ensures var (r, t1) := Step(s, t, cmd);
      PenAt(t1, r.verts, cmd.to)
  {
    var n := |s.verts|;
    match cmd
    case QuadraticCurveTo(ctrl, to) =>
      match t.pen {
        case Pos(p) => CurveFromPosition(s, t.start, p, ctrl, to);
        case Idx(i) => CurveFromIndex(s, t.start, i, ctrl, to);
      }
    case MoveTo(_) =>
    case LineTo(_) =>
  }

  /** A curve's triple names the point the pen stood on, its control point and its end point. */
  lemma LastWedge(s: SinkState, t: FillTessellator, cmd: PathCommand, g: Point)
    requires s.VecState? && cmd.QuadraticCurveTo? && PenAt(t, s.verts, g)
    requires |Step(s, t, cmd).0.verts| < U16Limit
    ensures Wedge(Step(s, t, cmd).0, |s.quadraticIdxs|, g, cmd.ctrl, cmd.to)
  {
    var n := |s.verts|;
    match t.pen {
      case Pos(p) =>
        CurveFromPosition(s, t.start, p, cmd.ctrl, cmd.to);
      case Idx(i) =>
        CurveFromIndex(s, t.start, i, cmd.ctrl, cmd.to);
    }
  }

  /** A command never shrinks the vertex list. */
  lemma StepGrows(s: SinkState, t: FillTessellator, cmd: PathCommand)
    requires s.VecState?
    ensures |s.verts| <= |Step(s, t, cmd).0.verts|
  {
    StepFacts(s, t, cmd);
  }

  /** The curve after a curve: below 2^16 vertices its triple names the first
      curve's end point, its own control point and its own end point, so the
      two wedges meet at the first curve's end point. */
  lemma ConsecutiveCurvesMeet(s: SinkState, t: FillTessellator, c1: Point, p1: Point, c2: Point, p2: Point)
    requires s.VecState?
    ensures var (r1, t1) := Step(s, t, QuadraticCurveTo(c1, p1));
      var r2 := Step(r1, t1, QuadraticCurveTo(c2, p2)).0;
      |r2.verts| < U16Limit ==> Wedge(r2, |r1.quadraticIdxs|, p1, c2, p2)
  {
    var (r1, t1) := Step(s, t, QuadraticCurveTo(c1, p1));
    var r2 := Step(r1, t1, QuadraticCurveTo(c2, p2)).0;
    StepGrows(r1, t1, QuadraticCurveTo(c2, p2));
    if |r2.verts| < U16Limit {
      StepPen(s, t, QuadraticCurveTo(c1, p1));
      LastWedge(r1, t1, QuadraticCurveTo(c2, p2), p1);
    }
  }

  /** A command leaves every earlier triple naming the same vertices. */
  lemma KeepWedge(s: SinkState, t: FillTessellator, cmd: PathCommand, j: int, a: Point, b: Point, c: Point)
    requires Wedge(s, j, a, b, c)
    ensures Wedge(Step(s, t, cmd).0, j, a, b, c)
  {
    StepFacts(s, t, cmd);
  }

  /** Below 2^16 vertices, after a replay the pen stands on the last command's
      end point (or where it started, for no commands). */
  lemma ReplayPen(s: SinkState, t: FillTessellator, cmds: seq<PathCommand>, g: Point)
    requires s.VecState? && |Replay(s, t, cmds).0.verts| < U16Limit && PenAt(t, s.verts, g)
    ensures var (r, t1) := Replay(s, t, cmds);
      PenAt(t1, r.verts, PenAfter(g, cmds))
  {
    if cmds != [] {
      var (r0, t0) := Replay(s, t, cmds[..|cmds| - 1]);
      StepPen(r0, t0, cmds[|cmds| - 1]);
    }
  }

  /** The last command of a replay leaves every earlier triple naming the same vertices. */
  lemma ReplayKeepsWedge(s: SinkState, t: FillTessellator, cmds: seq<PathCommand>,
                         j: int, a: Point, b: Point, c: Point)
    requires cmds != [] && Wedge(Replay(s, t, cmds[..|cmds| - 1]).0, j, a, b, c)
    ensures Wedge(Replay(s, t, cmds).0, j, a, b, c)
  {
    var (r0, t0) := Replay(s, t, cmds[..|cmds| - 1]);
    KeepWedge(r0, t0, cmds[|cmds| - 1], j, a, b, c);
  }

  /** The triple of an earlier curve, as the replay without its last command
      left it, survives that command. */
  lemma WedgeThroughLast(s: SinkState, t: FillTessellator, cmds: seq<PathCommand>, g: Point, k: int)
    requires s.VecState? && 0 <= k < |cmds| - 1 && cmds[k].QuadraticCurveTo?
    requires var init := cmds[..|cmds| - 1];
      Wedge(Replay(s, t, init).0, |s.quadraticIdxs| + 3 * CurveCount(init[..k]),
            PenAfter(g, init[..k]), init[k].ctrl, init[k].to)
    ensures Wedge(Replay(s, t, cmds).0, |s.quadraticIdxs| + 3 * CurveCount(cmds[..k]),
                  PenAfter(g, cmds[..k]), cmds[k].ctrl, cmds[k].to)
  {
    var init := cmds[..|cmds| - 1];
    var j := |s.quadraticIdxs| + 3 * CurveCount(cmds[..k]);
    var a := PenAfter(g, cmds[..k]);
    assert j == |s.quadraticIdxs| + 3 * CurveCount(init[..k]) && a == PenAfter(g, init[..k]) by {
      assert init[..k] == cmds[..k];
    }
    ReplayKeepsWedge(s, t, cmds, j, a, cmds[k].ctrl, cmds[k].to);
  }

  /** The replay adds three quadratic indices per curve. */
  lemma ReplayQuadLen(s: SinkState, t: FillTessellator, cmds: seq<PathCommand>)
    requires s.VecState?
    ensures |Replay(s, t, cmds).0.quadraticIdxs| == |s.quadraticIdxs| + 3 * CurveCount(cmds)
  {
    ReplayLists(s, t, cmds);
  }

  /** When the last command of a replay is a curve, its triple sits right
      after three indices per earlier curve and names the point the pen stood
      on, the control point and the end point. */
  lemma ReplayLastWedge(s: SinkState, t: FillTessellator, cmds: seq<PathCommand>, g: Point)
    requires s.VecState? && cmds != [] && cmds[|cmds| - 1].QuadraticCurveTo?
    requires |Replay(s, t, cmds).0.verts| < U16Limit && PenAt(t, s.verts, g)
    ensures var init, last := cmds[..|cmds| - 1], cmds[|cmds| - 1];
      Wedge(Replay(s, t, cmds).0, |s.quadraticIdxs| + 3 * CurveCount(init), PenAfter(g, init), last.ctrl, last.to)
  {
    var init := cmds[..|cmds| - 1];
    var (r0, t0) := Replay(s, t, init);
    StepGrows(r0, t0, cmds[|cmds| - 1]);
    ReplayQuadLen(s, t, init);
    ReplayPen(s, t, init, g);
    LastWedge(r0, t0, cmds[|cmds| - 1], PenAfter(g, init));
  }

  /** Below 2^16 vertices, the replay's k-th command, when it is a curve, owns
      the quadratic triple at `3 * (curves before it)` past the old list, and
      that triple names the point the pen stood on, the control point and the
      end point. */
  lemma {:induction false} ReplayWedgeAt(s: SinkState, t: FillTessellator, cmds: seq<PathCommand>, g: Point, k: int)
    requires s.VecState? && |Replay(s, t, cmds).0.verts| < U16Limit && PenAt(t, s.verts, g)
    requires 0 <= k < |cmds| && cmds[k].QuadraticCurveTo?
    ensures Wedge(Replay(s, t, cmds).0, |s.quadraticIdxs| + 3 * CurveCount(cmds[..k]),
                  PenAfter(g, cmds[..k]), cmds[k].ctrl, cmds[k].to)
  {
    var m := |cmds| - 1;
    if k < m {
      var (r0, t0) := Replay(s, t, cmds[..m]);
      StepGrows(r0, t0, cmds[m]);
      ReplayWedgeAt(s, t, cmds[..m], g, k);
      WedgeThroughLast(s, t, cmds, g, k);
    } else {
      ReplayLastWedge(s, t, cmds, g);
    }
  }

  /** A replay of commands without curves changes nothing in the sink. */
  lemma {:induction false} ReplayWithoutCurves(s: SinkState, t: FillTessellator, cmds: seq<PathCommand>)
    requires CurveCount(cmds) == 0
    ensures Replay(s, t, cmds).0 == s
  {
    if cmds != [] {
      ReplayWithoutCurves(s, t, cmds[..|cmds| - 1]);
    }
  }

  // ---------------------------------------------------------------------------
  // The two sinks agree under the replay
  // ---------------------------------------------------------------------------

  /** `make_tri` returns the same indices on agreeing sinks and leaves them agreeing. */
  lemma {:induction false} MakeTriAgree(v: SinkState, c: SinkState, verts: seq<Vert>)
    requires Agree(v, c)
    ensures MakeTriSpec(v, verts).1 == MakeTriSpec(c, verts).1
    ensures Agree(MakeTriSpec(v, verts).0, MakeTriSpec(c, verts).0)
  {
    if verts != [] {
      var init := verts[..|verts| - 1];
      MakeTriAgree(v, c, init);
      var v0 := MakeTriSpec(v, init).0;
      var c0 := MakeTriSpec(c, init).0;
      match verts[|verts| - 1]
      case Pos(p) => AgreeStep(v0, c0, PushVertCall(p));
      case Idx(_) =>
    }
  }

  /** Replaying the same commands over a storing and a counting sink that agree
      issues the same calls to both: the tessellators end in the same state and
      the sinks still agree on every count. */
  lemma {:induction false} ReplayAgree(v: SinkState, c: SinkState, t: FillTessellator, cmds: seq<PathCommand>)
    requires Agree(v, c)
    ensures Replay(v, t, cmds).1 == Replay(c, t, cmds).1
    ensures Agree(Replay(v, t, cmds).0, Replay(c, t, cmds).0)
  {
    if cmds != [] {
      var init := cmds[..|cmds| - 1];
      ReplayAgree(v, c, t, init);
      var (v0, t0) := Replay(v, t, init);
      var c0 := Replay(c, t, init).0;
      match cmds[|cmds| - 1]
      case QuadraticCurveTo(ctrl, to) =>
        var verts := [t0.pen, Pos(ctrl), Pos(to)];
        MakeTriAgree(v0, c0, verts);
        AgreeStep(MakeTriSpec(v0, verts).0, MakeTriSpec(c0, verts).0,
                  PushQuadraticTriCall(MakeTriSpec(v0, verts).1));
      case MoveTo(_) =>
      case LineTo(_) =>
    }
  }

  // ---------------------------------------------------------------------------
  // A counting sink from `default()` under the replay
  // ---------------------------------------------------------------------------

  /** Whether the pen holds a position after `cmds`, having started with one
      iff `pos`: straight edges leave a position, curves an index. */
  function PenIsPos(pos: bool, cmds: seq<PathCommand>): bool
  {
    if cmds == [] then pos else !cmds[|cmds| - 1].QuadraticCurveTo?
  }

  /** How many vertices the replay pushes: three for a curve drawn from a
      position pen, two for one drawn from an index pen, none for a straight edge. */
  function PushCount(pos: bool, cmds: seq<PathCommand>): nat
  {
    if cmds == [] then 0
    else
      var init := cmds[..|cmds| - 1];
      PushCount(pos, init)
        + (if !cmds[|cmds| - 1].QuadraticCurveTo? then 0 else if PenIsPos(pos, init) then 3 else 2)
  }

  /** The pen's kind after a replay does not depend on the sink. */
  lemma ReplayPenKind(s: SinkState, t: FillTessellator, cmds: seq<PathCommand>)
    ensures Replay(s, t, cmds).1.pen.Pos? == PenIsPos(t.pen.Pos?, cmds)
  {
    if cmds != [] {
      var (r0, t0) := Replay(s, t, cmds[..|cmds| - 1]);
    }
  }

  /** On the counter `make_tri` leaves both index counts alone. */
  lemma {:induction false} MakeTriCounts(s: SinkState, verts: seq<Vert>)
    requires s.CounterState?
    ensures var s1 := MakeTriSpec(s, verts).0;
      s1.CounterState? && s1.fillIdxCount == s.fillIdxCount && s1.quadraticIdxCount == s.quadraticIdxCount
  {
    if verts != [] {
      MakeTriCounts(s, verts[..|verts| - 1]);
    }
  }

  /** One command on the counter: a curve adds two or three to the vertex
      count (by the pen's kind) and three to the quadratic count; nothing
      else moves. */
  lemma CounterStep(c: SinkState, t: FillTessellator, cmd: PathCommand)
    requires c.CounterState?
    ensures var r := Step(c, t, cmd).0;
      && r.CounterState?
      && r.vertCount == WrapU16(c.vertCount + (if !cmd.QuadraticCurveTo? then 0 else if t.pen.Pos? then 3 else 2))
      && r.fillIdxCount == c.fillIdxCount
      && r.quadraticIdxCount == WrapU16(c.quadraticIdxCount + (if cmd.QuadraticCurveTo? then 3 else 0))
  {
    match cmd
    case QuadraticCurveTo(ctrl, to) =>
      var verts := [t.pen, Pos(ctrl), Pos(to)];
      MakeTriVertsLen(c, verts);
      MakeTriCounts(c, verts);
      CurvePushes(t.pen, ctrl, to);
    case MoveTo(_) =>
    case LineTo(_) =>
  }

  /** A whole replay on the counter: the vertex count grows by the vertices
      pushed, modulo 2^16. */
  lemma {:induction false} ReplayCounterVerts(c: SinkState, t: FillTessellator, cmds: seq<PathCommand>)
    requires c.CounterState?
    ensures var r := Replay(c, t, cmds).0;
      r.CounterState? && r.vertCount == WrapU16(c.vertCount + PushCount(t.pen.Pos?, cmds))
  {
    if cmds != [] {
      var init := cmds[..|cmds| - 1];
      var last := cmds[|cmds| - 1];
      ReplayCounterVerts(c, t, init);
      var (r0, t0) := Replay(c, t, init);
      CounterStep(r0, t0, last);
      ReplayPenKind(c, t, init);
      WrapU16Add(c.vertCount + PushCount(t.pen.Pos?, init),
                 if !last.QuadraticCurveTo? then 0 else if t0.pen.Pos? then 3 else 2);
    }
  }

  /** ... the quadratic count grows by three per curve, modulo 2^16, and the
      fill count stays. */
  lemma {:induction false} ReplayCounterIdxs(c: SinkState, t: FillTessellator, cmds: seq<PathCommand>)
    requires c.CounterState?
    ensures var r := Replay(c, t, cmds).0;
      && r.CounterState?
      && r.fillIdxCount == c.fillIdxCount
      && r.quadraticIdxCount == WrapU16(c.quadraticIdxCount + 3 * CurveCount(cmds))
  {
    if cmds != [] {
      var init := cmds[..|cmds| - 1];
      var last := cmds[|cmds| - 1];
      ReplayCounterIdxs(c, t, init);
      var (r0, t0) := Replay(c, t, init);
      CounterStep(r0, t0, last);
      WrapU16Add(c.quadraticIdxCount + 3 * CurveCount(init), if last.QuadraticCurveTo? then 3 else 0);
    }
  }

  /** On the storing sink the replay appends exactly `PushCount` vertices. */
  lemma {:induction false} ReplayVertsPushed(s: SinkState, t: FillTessellator, cmds: seq<PathCommand>)
    requires s.VecState?
    ensures |Replay(s, t, cmds).0.verts| == |s.verts| + PushCount(t.pen.Pos?, cmds)
  {
    if cmds != [] {
      var init := cmds[..|cmds| - 1];
      ReplayVertsPushed(s, t, init);
      var (r0, t0) := Replay(s, t, init);
      StepFacts(r0, t0, cmds[|cmds| - 1]);
      ReplayPenKind(s, t, init);
      match cmds[|cmds| - 1] {
        case QuadraticCurveTo(ctrl, to) => CurvePushes(t0.pen, ctrl, to);
        case MoveTo(_) =>
        case LineTo(_) =>
      }
    }
  }

  // ---------------------------------------------------------------------------
  // fill_tessellate
  // ---------------------------------------------------------------------------

  /** `fill_tessellate` returns the triangulation's index list unchanged as the
      fill list, its vertices as the first vertices, three quadratic indices per
      curve, and a box that is the bounding box of the vertices the replay
      pushed (the triangulation's vertices do not enter it). */
  lemma TessellateFacts(path: Path, tri: Triangulation)
    ensures var r := Tessellate(path, tri);
      && r.fillIdxs == tri.indices
      && |tri.vertices| <= |r.verts| && r.verts[..|tri.vertices|] == tri.vertices
      && |r.quadraticIdxs| == 3 * CurveCount(path.commands)
      && IsBoundingBox(r.leftTop, r.rightBottom, r.verts[|tri.vertices|..])
  {
    var r := Tessellate(path, tri);
    ReplayLists(Seeded(tri), FillTessellator.Start(), path.commands);
    ReplayBox(Seeded(tri), FillTessellator.Start(), path.commands);
    BoxOfIsBoundingBox(r.verts[|tri.vertices|..]);
  }

  /** With fewer than 2^16 vertices in the end, every quadratic index is at
      least the triangulation's vertex count and below the final vertex count. */
  lemma TessellateIndicesInRange(path: Path, tri: Triangulation)
    requires |Tessellate(path, tri).verts| < U16Limit
    ensures var r := Tessellate(path, tri);
      forall i :: 0 <= i < |r.quadraticIdxs| ==>
        |tri.vertices| <= r.quadraticIdxs[i] < |r.verts|
  {
    ReplayIndicesInRange(Seeded(tri), FillTessellator.Start(), path.commands, |tri.vertices|);
  }

  /** Below 2^16 vertices, after the replay an index pen points at a vertex
      the replay pushed, and the pen stands on the last command's end point
      (the origin for an empty path). */
  lemma TessellatePen(path: Path, tri: Triangulation)
    requires |Tessellate(path, tri).verts| < U16Limit
    ensures var (r, t) := Replay(Seeded(tri), FillTessellator.Start(), path.commands);
      && PenInRange(t, |tri.vertices|, |r.verts|)
      && PenAt(t, r.verts, PenAfter(Origin, path.commands))
  {
    ReplayIndicesInRange(Seeded(tri), FillTessellator.Start(), path.commands, |tri.vertices|);
    ReplayPen(Seeded(tri), FillTessellator.Start(), path.commands, Origin);
  }

  /** Below 2^16 vertices, the k-th command, when it is a curve, owns the
      quadratic triple at `3 * (curves before it)`, and that triple names the
      point the pen stood on (the previous command's end point, or the origin),
      the curve's control point and its end point. */
  lemma TessellateWedges(path: Path, tri: Triangulation)
    requires |Tessellate(path, tri).verts| < U16Limit
    ensures var r := Tessellate(path, tri);
      var cmds := path.commands;
      forall k :: 0 <= k < |cmds| && cmds[k].QuadraticCurveTo? ==>
        Wedge(r, 3 * CurveCount(cmds[..k]), PenAfter(Origin, cmds[..k]), cmds[k].ctrl, cmds[k].to)
  {
    forall k | 0 <= k < |path.commands| && path.commands[k].QuadraticCurveTo?
      ensures Wedge(Tessellate(path, tri), 3 * CurveCount(path.commands[..k]),
                    PenAfter(Origin, path.commands[..k]), path.commands[k].ctrl, path.commands[k].to)
    {
      ReplayWedgeAt(Seeded(tri), FillTessellator.Start(), path.commands, Origin, k);
    }
  }

  /** A path without curves leaves the seeded buffers as they were: the
      triangulation's vertices and indices, no quadratic indices, and no box. */
  lemma TessellateWithoutCurves(path: Path, tri: Triangulation)
    requires CurveCount(path.commands) == 0
    ensures Tessellate(path, tri) == VecState(tri.vertices, tri.indices, [], Unset, Unset)
  {
    ReplayWithoutCurves(Seeded(tri), FillTessellator.Start(), path.commands);
  }

  /** `start().move_to(p).quadratic_curve_to(ctrl, to)` appends exactly the
      vertices p, ctrl, to after the triangulation's n vertices and the one
      triple (n, n+1, n+2); on an empty triangulation that is (0, 1, 2). */
  lemma MoveToThenCurve(tri: Triangulation, p: Point, ctrl: Point, to: Point)
    requires |tri.vertices| + 3 <= U16Limit
    ensures var n := |tri.vertices|;
      var r := Tessellate(Path.Start().MoveTo(p).QuadraticCurveTo(ctrl, to), tri);
      && r.verts == tri.vertices + [p, ctrl, to]
      && r.quadraticIdxs == [n, n + 1, n + 2]
      && r.fillIdxs == tri.indices
      && (r.leftTop, r.rightBottom) == BoxOf([p, ctrl, to])
  {
    var cmds := [PathCommand.MoveTo(p), PathCommand.QuadraticCurveTo(ctrl, to)];
    var path := Path.Start().MoveTo(p).QuadraticCurveTo(ctrl, to);
    assert path.commands == cmds;
    assert cmds[..1] == [PathCommand.MoveTo(p)] && [PathCommand.MoveTo(p)][..0] == [];
    var s := Seeded(tri);
    var t := FillTessellator.Start();
    var (r1, t1) := Step(s, t, PathCommand.MoveTo(p));
    assert Replay(s, t, cmds[..1]) == (r1, t1);
    StepFacts(r1, t1, QuadraticCurveTo(ctrl, to));
    CurvePushes(t1.pen, ctrl, to);
    assert Tessellate(path, tri) == Step(r1, t1, QuadraticCurveTo(ctrl, to)).0;
    assert GrowAll(NoBox, [p, ctrl, to]) == BoxOf([p, ctrl, to]);
  }

  /** A `VertCounter` from `default()` driven through a tessellator by the
      same path: it counts the vertices the replay pushed (not the
      triangulation's), no fill indices and every quadratic index, while those
      numbers stay below 2^16. */
  lemma TessellateCounter(path: Path, tri: Triangulation)
    requires var r := Tessellate(path, tri);
      |r.verts| - |tri.vertices| < U16Limit && |r.quadraticIdxs| < U16Limit
    ensures var r := Tessellate(path, tri);
      var c := Replay(EmptyCounter, FillTessellator.Start(), path.commands).0;
      && c.CounterState?
      && c.vertCount == |r.verts| - |tri.vertices|
      && c.fillIdxCount == 0
      && c.quadraticIdxCount == |r.quadraticIdxs|
  {
    ReplayCounterVerts(EmptyCounter, FillTessellator.Start(), path.commands);
    ReplayCounterIdxs(EmptyCounter, FillTessellator.Start(), path.commands);
    ReplayVertsPushed(Seeded(tri), FillTessellator.Start(), path.commands);
    ReplayLists(Seeded(tri), FillTessellator.Start(), path.commands);
  }

  /** `VertCounter` and `VecPathVertBufs`, each seeded with the same counts and
      driven by the same path, agree: the counter's three counts are the
      stored lengths (all three below 2^16). */
  lemma TessellateCountsAgree(path: Path, tri: Triangulation)
    requires var r := Tessellate(path, tri);
      |r.verts| < U16Limit && |r.fillIdxs| < U16Limit && |r.quadraticIdxs| < U16Limit
    ensures var r := Tessellate(path, tri);
      var c := Replay(CounterState(WrapU16(|tri.vertices|), WrapU16(|tri.indices|), 0),
                      FillTessellator.Start(), path.commands).0;
      && c.CounterState?
      && c.vertCount == |r.verts|
      && c.fillIdxCount == |r.fillIdxs|
      && c.quadraticIdxCount == |r.quadraticIdxs|
  {
    ReplayAgree(Seeded(tri), CounterState(WrapU16(|tri.vertices|), WrapU16(|tri.indices|), 0),
                FillTessellator.Start(), path.commands);
  }
}
