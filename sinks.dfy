// The `BufsBuilder` append sink and its two implementations,
// `VecPathVertBufs` (stores geometry) and `VertCounter` (only counts)
// (nice-path-tessellator/src/lib.rs).
//
// Dynamic dispatch over `&mut dyn BufsBuilder` is modelled as tagged dispatch
// (`Sink`). Each implementation exposes its fields as a `SinkState` value, and
// the pure members of `SinkState` specify what every sink call does.

module Sinks {
  import opened Paths
  import opened Bounds

  const U16Limit: int := 0x1_0000

  /** An index or count as stored by the source (`u16`). */
  type u16 = x: int | 0 <= x < U16Limit

  /** An index triple, `[u16; 3]` in the source. */
  type Tri = s: seq<u16> | |s| == 3 witness [0, 0, 0]

  /** Reduction modulo 2^16: the `as u16` cast of `verts.len()`, and the
      release-build wrap-around of `+=` on a `u16` counter. */
  function WrapU16(n: int): (r: u16)
    ensures 0 <= n < U16Limit ==> r == n
  {
    n % U16Limit
  }

  lemma WrapU16Add(a: int, k: int)
    ensures WrapU16(WrapU16(a) + k) == WrapU16(a + k)
  {
    var q := a / U16Limit;
    assert a == q * U16Limit + WrapU16(a);
    assert WrapU16(a) + k == (a + k) - q * U16Limit;
    ModShift(a + k, q);
  }

  lemma ModShift(n: int, q: int)
    ensures (n - q * U16Limit) % U16Limit == n % U16Limit
  {
    var r := n % U16Limit;
    var d := n / U16Limit;
    assert n - q * U16Limit == (d - q) * U16Limit + r;
  }

  /** The observable state of a sink. */
  datatype SinkState =
    | VecState(verts: seq<Point>, fillIdxs: seq<u16>, quadraticIdxs: seq<u16>,
               leftTop: Corner, rightBottom: Corner)
    | CounterState(vertCount: u16, fillIdxCount: u16, quadraticIdxCount: u16)
  {
    /** `verts_len`: the index the next pushed vertex receives. */
    function VertsLen(): (n: u16)
      ensures VecState? && |verts| < U16Limit ==> n == |verts|
      ensures CounterState? ==> n == vertCount
    {
      match this
      case VecState(verts, _, _, _, _) => WrapU16(|verts|)
      case CounterState(vertCount, _, _) => vertCount
    }

    /** `push_vert`: the vertex becomes the last one, the box grows to cover
        it, the index lists are untouched, and the next index moves up by one. */
    function PushVert(pos: Point): (s: SinkState)
      ensures s.VecState? == VecState?
      ensures s.VertsLen() == WrapU16(VertsLen() + 1)
      ensures VecState? ==> s.verts == verts + [pos] && s.fillIdxs == fillIdxs
                            && s.quadraticIdxs == quadraticIdxs
                            && s.leftTop == GrowLeftTop(leftTop, pos)
                            && s.rightBottom == GrowRightBottom(rightBottom, pos)
      ensures CounterState? ==> s.fillIdxCount == fillIdxCount
                                && s.quadraticIdxCount == quadraticIdxCount
    {
      match this
      case VecState(verts, fillIdxs, quadraticIdxs, leftTop, rightBottom) =>
        WrapU16Add(|verts|, 1);
        VecState(verts + [pos], fillIdxs, quadraticIdxs,
                 GrowLeftTop(leftTop, pos), GrowRightBottom(rightBottom, pos))
      case CounterState(vertCount, fillIdxCount, quadraticIdxCount) =>
        CounterState(WrapU16(vertCount + 1), fillIdxCount, quadraticIdxCount)
    }

    /** `push_fill_tri`: the three indices, in order, end the fill list; nothing else changes. */
    function PushFillTri(idxs: Tri): (s: SinkState)
      ensures s.VecState? == VecState? && s.VertsLen() == VertsLen()
      ensures VecState? ==> s == this.(fillIdxs := fillIdxs + idxs)
      ensures CounterState? ==> s == this.(fillIdxCount := WrapU16(fillIdxCount + 3))
    {
      match this
      case VecState(verts, fillIdxs, quadraticIdxs, leftTop, rightBottom) =>
        var f := fillIdxs + [idxs[0]] + [idxs[1]] + [idxs[2]];
        assert f == fillIdxs + idxs;
        VecState(verts, f, quadraticIdxs, leftTop, rightBottom)
      case CounterState(vertCount, fillIdxCount, quadraticIdxCount) =>
        CounterState(vertCount, WrapU16(fillIdxCount + 3), quadraticIdxCount)
    }

    /** `push_quadratic_tri`: the three indices, in order, end the quadratic list; nothing else changes. */
    function PushQuadraticTri(idxs: Tri): (s: SinkState)
      ensures s.VecState? == VecState? && s.VertsLen() == VertsLen()
      ensures VecState? ==> s == this.(quadraticIdxs := quadraticIdxs + idxs)
      ensures CounterState? ==> s == this.(quadraticIdxCount := WrapU16(quadraticIdxCount + 3))
    {
      match this
      case VecState(verts, fillIdxs, quadraticIdxs, leftTop, rightBottom) =>
        var q := quadraticIdxs + [idxs[0]] + [idxs[1]] + [idxs[2]];
        assert q == quadraticIdxs + idxs;
        VecState(verts, fillIdxs, q, leftTop, rightBottom)
      case CounterState(vertCount, fillIdxCount, quadraticIdxCount) =>
        CounterState(vertCount, fillIdxCount, WrapU16(quadraticIdxCount + 3))
    }
  }

  /** `VecPathVertBufs::new()`: no vertices, no indices, no box. */
  const EmptyVec: SinkState := VecState([], [], [], Unset, Unset)

  /** `VertCounter::default()`: all counts zero. */
  const EmptyCounter: SinkState := CounterState(0, 0, 0)

  /** A storing and a counting sink agree when each count is the (u16) length
      of the matching list. */
  predicate Agree(v: SinkState, c: SinkState)
  {
    && v.VecState? && c.CounterState?
    && c.vertCount == WrapU16(|v.verts|)
    && c.fillIdxCount == WrapU16(|v.fillIdxs|)
    && c.quadraticIdxCount == WrapU16(|v.quadraticIdxs|)
  }

  /** One call on the `BufsBuilder` interface. */
  datatype SinkCall =
    | PushVertCall(pos: Point)
    | PushFillTriCall(idxs: Tri)
    | PushQuadraticTriCall(idxs: Tri)

  function Apply(s: SinkState, c: SinkCall): SinkState
  {
    match c
    case PushVertCall(pos) => s.PushVert(pos)
    case PushFillTriCall(idxs) => s.PushFillTri(idxs)
    case PushQuadraticTriCall(idxs) => s.PushQuadraticTri(idxs)
  }

  /** The state after feeding a sequence of calls, in order. */
  function ApplyAll(s: SinkState, calls: seq<SinkCall>): (r: SinkState)
    ensures r.VecState? == s.VecState?
  {
    if calls == [] then s else Apply(ApplyAll(s, calls[..|calls| - 1]), calls[|calls| - 1])
  }

  /** Agreeing sinks report the same `verts_len`, and stay in agreement after any one call. */
  lemma AgreeStep(v: SinkState, c: SinkState, call: SinkCall)
    requires Agree(v, c)
    ensures v.VertsLen() == c.VertsLen()
    ensures Agree(Apply(v, call), Apply(c, call))
  {
    match call
    case PushVertCall(_) => WrapU16Add(|v.verts|, 1);
    case PushFillTriCall(_) => WrapU16Add(|v.fillIdxs|, 3);
    case PushQuadraticTriCall(_) => WrapU16Add(|v.quadraticIdxs|, 3);
  }

  /** Fed the same calls from agreeing states (fresh ones, say), the two sinks
      keep agreeing; below 2^16 the counts equal the list lengths exactly. */
  lemma {:induction false} SinksAgree(v: SinkState, c: SinkState, calls: seq<SinkCall>)
    requires Agree(v, c)
    ensures Agree(ApplyAll(v, calls), ApplyAll(c, calls))
    ensures ApplyAll(v, calls).VertsLen() == ApplyAll(c, calls).VertsLen()
  {
    if calls != [] {
      SinksAgree(v, c, calls[..|calls| - 1]);
      AgreeStep(ApplyAll(v, calls[..|calls| - 1]), ApplyAll(c, calls[..|calls| - 1]), calls[|calls| - 1]);
    }
    AgreeStep(ApplyAll(v, calls), ApplyAll(c, calls), PushVertCall(Point(0.0, 0.0)));
  }

  /** From fresh sinks, as long as no list reaches 2^16 entries, the counter's
      counts are exactly the stored lengths. */
  lemma FreshSinksAgree(calls: seq<SinkCall>)
    requires var v := ApplyAll(EmptyVec, calls);
      |v.verts| < U16Limit && |v.fillIdxs| < U16Limit && |v.quadraticIdxs| < U16Limit
    ensures var v, c := ApplyAll(EmptyVec, calls), ApplyAll(EmptyCounter, calls);
      && c.CounterState?
      && c.vertCount == |v.verts|
      && c.fillIdxCount == |v.fillIdxs|
      && c.quadraticIdxCount == |v.quadraticIdxs|
  {
    SinksAgree(EmptyVec, EmptyCounter, calls);
  }

  /** The vertices one call pushes: its position for `push_vert`, none otherwise. */
  function CallPushes(call: SinkCall): seq<Point>
  {
    if call.PushVertCall? then [call.pos] else []
  }

  /** One call on the storing sink appends exactly the vertices it pushes and
      grows the box over them. */
  lemma ApplyPushes(s: SinkState, call: SinkCall)
    requires s.VecState?
    ensures var r := Apply(s, call);
      && r.verts == s.verts + CallPushes(call)
      && (r.leftTop, r.rightBottom) == GrowAll((s.leftTop, s.rightBottom), CallPushes(call))
  {
    var b := (s.leftTop, s.rightBottom);
    match call {
      case PushVertCall(p) =>
        assert [p][..0] == [];
        assert GrowAll(b, [p]) == Grow(b, p);
      case PushFillTriCall(idxs) =>
        assert s.verts + [] == s.verts;
      case PushQuadraticTriCall(idxs) =>
        assert s.verts + [] == s.verts;
    }
  }

  /** Any calls on the storing sink keep its earlier vertices and grow the box
      over exactly the vertices they push. */
  lemma {:induction false} ApplyAllBox(s: SinkState, calls: seq<SinkCall>)
    requires s.VecState?
    ensures var r := ApplyAll(s, calls);
      && |s.verts| <= |r.verts| && r.verts[..|s.verts|] == s.verts
      && (r.leftTop, r.rightBottom) == GrowAll((s.leftTop, s.rightBottom), r.verts[|s.verts|..])
  {
    if calls == [] {
      assert s.verts[|s.verts|..] == [];
    } else {
      var init := calls[..|calls| - 1];
      var last := calls[|calls| - 1];
      ApplyAllBox(s, init);
      var r0 := ApplyAll(s, init);
      var r := ApplyAll(s, calls);
      ApplyPushes(r0, last);
      assert r.verts[|s.verts|..] == r0.verts[|s.verts|..] + CallPushes(last);
      GrowAllAppend((s.leftTop, s.rightBottom), r0.verts[|s.verts|..], CallPushes(last));
    }
  }

  /** From `new()`, after any calls, the box fields are the bounding box of the
      stored vertices: absent while there are none, and otherwise all four
      bounds present, ordered, enclosing every vertex and each one attained. */
  lemma FreshBufsBoundingBox(calls: seq<SinkCall>)
    ensures var v := ApplyAll(EmptyVec, calls);
      IsBoundingBox(v.leftTop, v.rightBottom, v.verts)
  {
    var v := ApplyAll(EmptyVec, calls);
    ApplyAllBox(EmptyVec, calls);
    assert v.verts[0..] == v.verts;
    BoxOfIsBoundingBox(v.verts);
  }

  /** The storing sink. */
  class VecPathVertBufs {
    var verts: seq<Point>
    var fillIdxs: seq<u16>
    var quadraticIdxs: seq<u16>
    var leftTop: Corner
    var rightBottom: Corner

    function State(): SinkState
      reads this
    {
      VecState(verts, fillIdxs, quadraticIdxs, leftTop, rightBottom)
    }

    constructor ()
      ensures State() == EmptyVec
    {
      verts, fillIdxs, quadraticIdxs := [], [], [];
      leftTop, rightBottom := Unset, Unset;
    }

    function VertsLen(): (n: u16)
      reads this
      ensures n == State().VertsLen()
      ensures |verts| < U16Limit ==> n == |verts|
    {
      WrapU16(|verts|)
    }

    method PushVert(pos: Point)
      modifies this
      ensures State() == old(State()).PushVert(pos)
    {
      leftTop := leftTop.(x := MinInto(leftTop.x, pos.x));
      leftTop := leftTop.(y := MinInto(leftTop.y, pos.y));
      rightBottom := rightBottom.(x := MaxInto(rightBottom.x, pos.x));
      rightBottom := rightBottom.(y := MaxInto(rightBottom.y, pos.y));
      verts := verts + [pos];
    }

    method PushFillTri(idxs: Tri)
      modifies this
      ensures State() == old(State()).PushFillTri(idxs)
    {
      fillIdxs := fillIdxs + [idxs[0]];
      fillIdxs := fillIdxs + [idxs[1]];
      fillIdxs := fillIdxs + [idxs[2]];
    }

    method PushQuadraticTri(idxs: Tri)
      modifies this
      ensures State() == old(State()).PushQuadraticTri(idxs)
    {
      quadraticIdxs := quadraticIdxs + [idxs[0]];
      quadraticIdxs := quadraticIdxs + [idxs[1]];
      quadraticIdxs := quadraticIdxs + [idxs[2]];
    }
  }

  /** The counting sink. */
  class VertCounter {
    var vertCount: u16
    var fillIdxCount: u16
    var quadraticIdxCount: u16

    function State(): SinkState
      reads this
    {
      CounterState(vertCount, fillIdxCount, quadraticIdxCount)
    }

    constructor ()
      ensures State() == EmptyCounter
    {
      vertCount, fillIdxCount, quadraticIdxCount := 0, 0, 0;
    }

    function VertsLen(): (n: u16)
      reads this
      ensures n == State().VertsLen()
    {
      vertCount
    }

    method PushVert(pos: Point)
      modifies this
      ensures State() == old(State()).PushVert(pos)
    {
      vertCount := WrapU16(vertCount + 1);
    }

    method PushFillTri(idxs: Tri)
      modifies this
      ensures State() == old(State()).PushFillTri(idxs)
    {
      fillIdxCount := WrapU16(fillIdxCount + 3);
    }

    method PushQuadraticTri(idxs: Tri)
      modifies this
      ensures State() == old(State()).PushQuadraticTri(idxs)
    {
      quadraticIdxCount := WrapU16(quadraticIdxCount + 3);
    }
  }

  /** A `&mut dyn BufsBuilder`: one of the two implementations, dispatched by tag. */
  datatype Sink = Vec(bufs: VecPathVertBufs) | Counter(counter: VertCounter)
  {
    function Obj(): object
    {
      match this
      case Vec(bufs) => bufs
      case Counter(counter) => counter
    }

    function State(): SinkState
      reads Obj()
    {
      match this
      case Vec(bufs) => bufs.State()
      case Counter(counter) => counter.State()
    }

    function VertsLen(): (n: u16)
      reads Obj()
      ensures n == State().VertsLen()
    {
      match this
      case Vec(bufs) => bufs.VertsLen()
      case Counter(counter) => counter.VertsLen()
    }

    method PushVert(pos: Point)
      modifies Obj()
      ensures State() == old(State()).PushVert(pos)
    {
      match this
      case Vec(bufs) => bufs.PushVert(pos);
      case Counter(counter) => counter.PushVert(pos);
    }

    method PushFillTri(idxs: Tri)
      modifies Obj()
      ensures State() == old(State()).PushFillTri(idxs)
    {
      match this
      case Vec(bufs) => bufs.PushFillTri(idxs);
      case Counter(counter) => counter.PushFillTri(idxs);
    }

    method PushQuadraticTri(idxs: Tri)
      modifies Obj()
      ensures State() == old(State()).PushQuadraticTri(idxs)
    {
      match this
      case Vec(bufs) => bufs.PushQuadraticTri(idxs);
      case Counter(counter) => counter.PushQuadraticTri(idxs);
    }
  }
}
