// The running bounding box that `VecPathVertBufs::push_vert` keeps in its
// `left_top` / `right_bottom` fields (nice-path-tessellator/src/lib.rs).

module Bounds {
  import opened Paths

  datatype Option<T> = None | Some(value: T)

  /** One box corner, `[Option<f32>; 2]` in the source: `None` until the first vertex. */
  datatype Corner = Corner(x: Option<real>, y: Option<real>)

  const Unset: Corner := Corner(None, None)

  function Min(a: real, b: real): real { if a <= b then a else b }

  function Max(a: real, b: real): real { if a >= b then a else b }

  /** `bound.map(|x| x.min(v)).or(Some(v))`. */
  function MinInto(bound: Option<real>, v: real): (r: Option<real>)
    ensures r.Some? && r.value <= v
    ensures bound.Some? ==> r.value <= bound.value
    ensures r.value == v || (bound.Some? && r.value == bound.value)
  {
    match bound
    case Some(x) => Some(Min(x, v))
    case None => Some(v)
  }

  /** `bound.map(|x| x.max(v)).or(Some(v))`. */
  function MaxInto(bound: Option<real>, v: real): (r: Option<real>)
    ensures r.Some? && r.value >= v
    ensures bound.Some? ==> r.value >= bound.value
    ensures r.value == v || (bound.Some? && r.value == bound.value)
  {
    match bound
    case Some(x) => Some(Max(x, v))
    case None => Some(v)
  }

  /** The two corner updates one `push_vert` performs. */
  function GrowLeftTop(c: Corner, p: Point): Corner
  {
    Corner(MinInto(c.x, p.x), MinInto(c.y, p.y))
  }

  function GrowRightBottom(c: Corner, p: Point): Corner
  {
    Corner(MaxInto(c.x, p.x), MaxInto(c.y, p.y))
  }

  /** A (left-top, right-bottom) corner pair. */
  type Box = (Corner, Corner)

  const NoBox: Box := (Unset, Unset)

  /** One `push_vert` update of the box. */
  function Grow(b: Box, p: Point): Box
  {
    (GrowLeftTop(b.0, p), GrowRightBottom(b.1, p))
  }

  /** The box after pushing `ps` in order. */
  function GrowAll(b: Box, ps: seq<Point>): Box
  {
    if ps == [] then b else Grow(GrowAll(b, ps[..|ps| - 1]), ps[|ps| - 1])
  }

  /** The corners left behind by pushing `ps` in order onto an empty box. */
  function BoxOf(ps: seq<Point>): Box
  {
    GrowAll(NoBox, ps)
  }

  /** Pushing two runs of points one after the other is pushing their concatenation. */
  lemma {:induction false} GrowAllAppend(b: Box, ps: seq<Point>, qs: seq<Point>)
    ensures GrowAll(GrowAll(b, ps), qs) == GrowAll(b, ps + qs)
  {
    if qs == [] {
      assert ps + qs == ps;
    } else {
      var init := qs[..|qs| - 1];
      GrowAllAppend(b, ps, init);
      assert (ps + qs)[..|ps + qs| - 1] == ps + init;
    }
  }

  /** Independent description of "the bounding box of `ps`": absent for no
      points; otherwise all four bounds present, ordered on each axis,
      enclosing every point, and each bound attained by some point. */
  ghost predicate IsBoundingBox(lt: Corner, rb: Corner, ps: seq<Point>)
  {
    if ps == [] then lt == Unset && rb == Unset
    else
      && lt.x.Some? && lt.y.Some? && rb.x.Some? && rb.y.Some?
      && lt.x.value <= rb.x.value && lt.y.value <= rb.y.value
      && (forall i :: 0 <= i < |ps| ==>
            lt.x.value <= ps[i].x <= rb.x.value && lt.y.value <= ps[i].y <= rb.y.value)
      && (exists i :: 0 <= i < |ps| && ps[i].x == lt.x.value)
      && (exists i :: 0 <= i < |ps| && ps[i].y == lt.y.value)
      && (exists i :: 0 <= i < |ps| && ps[i].x == rb.x.value)
      && (exists i :: 0 <= i < |ps| && ps[i].y == rb.y.value)
  }

  /** The incrementally maintained corners are the bounding box of the pushed points. */
  lemma {:induction false} BoxOfIsBoundingBox(ps: seq<Point>)
    ensures IsBoundingBox(BoxOf(ps).0, BoxOf(ps).1, ps)
  {
    if ps != [] {
      var init := ps[..|ps| - 1];
      var p := ps[|ps| - 1];
      BoxOfIsBoundingBox(init);
      var (lt0, rb0) := BoxOf(init);
      assert forall i :: 0 <= i < |init| ==> init[i] == ps[i];
      if init == [] {
        assert ps[0] == p;
      } else {
        var ix :| 0 <= ix < |init| && init[ix].x == lt0.x.value;
        var iy :| 0 <= iy < |init| && init[iy].y == lt0.y.value;
        var jx :| 0 <= jx < |init| && init[jx].x == rb0.x.value;
        var jy :| 0 <= jy < |init| && init[jy].y == rb0.y.value;
        assert ps[ix].x == lt0.x.value && ps[iy].y == lt0.y.value;
        assert ps[jx].x == rb0.x.value && ps[jy].y == rb0.y.value;
        assert ps[|ps| - 1] == p;
      }
    }
  }

  /** A bounding box is unique, so `BoxOf` is the only corner pair meeting `IsBoundingBox`. */
  lemma BoundingBoxUnique(lt: Corner, rb: Corner, ps: seq<Point>)
    requires IsBoundingBox(lt, rb, ps)
    ensures (lt, rb) == BoxOf(ps)
  {
    BoxOfIsBoundingBox(ps);
    var (lt1, rb1) := BoxOf(ps);
    if ps != [] {
      var i :| 0 <= i < |ps| && ps[i].x == lt.x.value;
      var j :| 0 <= j < |ps| && ps[j].x == lt1.x.value;
      assert lt.x == lt1.x;
      var k :| 0 <= k < |ps| && ps[k].y == lt.y.value;
      var l :| 0 <= l < |ps| && ps[l].y == lt1.y.value;
      assert lt.y == lt1.y;
      var m :| 0 <= m < |ps| && ps[m].x == rb.x.value;
      var n :| 0 <= n < |ps| && ps[n].x == rb1.x.value;
      assert rb.x == rb1.x;
      var o :| 0 <= o < |ps| && ps[o].y == rb.y.value;
      var q :| 0 <= q < |ps| && ps[q].y == rb1.y.value;
      assert rb.y == rb1.y;
    }
  }
}
