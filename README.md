# nice-path-tessellator: the CPU path tessellator, modelled in Dafny

This project models the command-replay path tessellator of the
`nice-path-tessellator` crate (`nice-path-tessellator/src/lib.rs`) and proves
its index bookkeeping correct.

The modelled parts are:

- **`Path` builder** (`paths.dfy`): an append-only list of `MoveTo`, `LineTo`
  and `QuadraticCurveTo` commands. Each builder call returns the extended path.
- **`BufsBuilder` sinks** (`sinks.dfy`): the append interface `verts_len` /
  `push_vert` / `push_fill_tri` / `push_quadratic_tri`, with two classes.
  - `VecPathVertBufs` stores vertices and both index lists. It also keeps a
    running bounding box in four `Option` fields, `left_top` and
    `right_bottom`.
  - `VertCounter` only counts, in `u16`.
  - The pure datatype `SinkState` specifies what each call does to either
    sink. Every class method is proved to change its fields exactly as the
    matching `SinkState` function says.
  - `&mut dyn BufsBuilder` becomes `Sink`, which dispatches by tag to one of
    the two classes.
- **Bounding box** (`bounds.dfy`): the incremental min/max update of one
  `push_vert`, its fold over a run of points, and an independent definition of
  "the bounding box of a point list". Lemmas prove that the fold meets that
  definition and that the definition has only one solution.
- **`FillTessellator`** (`tessellator.dfy`): the `(start, pen)` state machine.
  - `move_to`, `line_to` and `line_to_impl` are functions on the by-value
    state.
  - `quadratic_curve_to`, `push_quadratic_tri` and `make_tri` are methods on
    the borrowed sink. `make_tri` keeps the source's three-slot array and
    loop.
  - `fill_tessellate` seeds a `VecPathVertBufs` with the fill triangulation's
    output, then replays the path's commands through a tessellator in a loop.
    Each method is proved equal to a pure specification: `MakeTriSpec`,
    `CurveStep`, `Step`, `Replay` and `Tessellate`.
- **Properties** (`tessellation_properties.dfy`): what `make_tri`, a single
  command, a whole replay and `fill_tessellate` guarantee. This covers:
  - vertex numbering;
  - that consecutive curves share a vertex;
  - index ranges;
  - which vertices the pen and every quadratic triple point at: each curve's
    triple names the previous command's end point, its control point and its
    end point;
  - the bounding box;
  - that the storing sink and the counting sink agree.

Coordinates are `real`. The source only copies them and compares them with
`min`/`max`. `u16` is the subset `0 <= x < 0x1_0000`.

- **`u16` wrap-around:** `WrapU16` (reduction modulo 2^16) is written out
  explicitly in two places:
  - the `verts.len() as u16` cast;
  - the counter's `+=` on `u16`, with release-build wrap-around.
- **Bounding box of a curve-free path:** one might expect `fill_tessellate`
  to return a box around every vertex, so that a closed 10×10 square gets the
  box [0,0]–[10,10]. The code does not do this. The triangulation's vertices
  are assigned straight into `verts` (lib.rs:61) without `push_vert`, so only
  vertices pushed during the replay enter the box. A path without curves
  therefore returns no box at all. The model follows the code:
  `TessellateWithoutCurves` proves that the box stays `None`, and
  `TessellateFacts` proves that the box is exactly the bounding box of the
  vertices the replay pushed.

## Model

| member | source | states |
|---|---|---|
| Paths.Path.Start | nice-path-tessellator/src/lib.rs:13-15 | a new path has no commands and no curves |
| Paths.Path.MoveTo | nice-path-tessellator/src/lib.rs:17-20 | exactly one `MoveTo(to)` is appended at the end; earlier commands and the curve count are unchanged |
| Paths.Path.LineTo | nice-path-tessellator/src/lib.rs:22-25 | exactly one `LineTo(to)` is appended at the end; earlier commands and the curve count are unchanged |
| Paths.Path.QuadraticCurveTo | nice-path-tessellator/src/lib.rs:27-30 | exactly one `QuadraticCurveTo(ctrl, to)` is appended at the end; earlier commands are unchanged and the curve count rises by one |
| Paths.CurveCountZero | nice-path-tessellator/src/lib.rs:34-39 | a command list counts zero curves if and only if none of its commands is a `QuadraticCurveTo` |
| Bounds.MinInto | nice-path-tessellator/src/lib.rs:193-194 | the updated lower bound is present, at most the new coordinate and the old bound, and equal to one of them |
| Bounds.MaxInto | nice-path-tessellator/src/lib.rs:195-196 | the updated upper bound is present, at least the new coordinate and the old bound, and equal to one of them |
| Bounds.GrowAllAppend | nice-path-tessellator/src/lib.rs:192-198 | growing the box over two runs of pushes in turn is growing it over their concatenation |
| Bounds.BoxOfIsBoundingBox | nice-path-tessellator/src/lib.rs:192-198 | the corners left by pushing any points are the bounding box: absent for no points; otherwise all four bounds present, `left_top <= right_bottom` on each axis, every point inside, each bound attained by some point |
| Bounds.BoundingBoxUnique | nice-path-tessellator/src/lib.rs:192-198 | the bounding box of a point list is unique, so the incremental corners are the only pair that meets that definition |
| Sinks.WrapU16 | nice-path-tessellator/src/lib.rs:188-190 | the `u16` truncation leaves every value below 2^16 unchanged |
| Sinks.SinkState.VertsLen | nice-path-tessellator/src/lib.rs:188-190 | the index the next pushed vertex receives: the vertex count for the storing sink below 2^16, and `vert_count` for the counter (lib.rs:82-84) |
| Sinks.SinkState.PushVert | nice-path-tessellator/src/lib.rs:192-199 | on the storing sink the vertex is appended, both index lists are untouched and each box corner grows to cover it; on the counter only the vertex count moves; on both `verts_len` rises by one modulo 2^16 |
| Sinks.SinkState.PushFillTri | nice-path-tessellator/src/lib.rs:201-205 | the three indices, in order, are appended to the fill list and nothing else changes; the counter adds 3 to the fill count only |
| Sinks.SinkState.PushQuadraticTri | nice-path-tessellator/src/lib.rs:207-211 | the three indices, in order, are appended to the quadratic list and nothing else changes; the counter adds 3 to the quadratic count only |
| Sinks.AgreeStep | nice-path-tessellator/src/lib.rs:81-97 | a storing and a counting sink whose counts equal their list lengths report the same `verts_len`, and they still agree after any one sink call |
| Sinks.SinksAgree | nice-path-tessellator/src/lib.rs:187-211 | fed the same call sequence from agreeing states, the two sinks agree afterwards and report the same `verts_len` |
| Sinks.FreshSinksAgree | nice-path-tessellator/src/lib.rs:81-97 | from `new()` and `default()`, after the same calls (lists below 2^16 entries), `vert_count`, `fill_idx_count` and `quadratic_idx_count` equal the three list lengths |
| Sinks.ApplyAllBox | nice-path-tessellator/src/lib.rs:192-199 | any sequence of sink calls keeps the earlier vertices as a prefix and grows the box over exactly the vertices it pushes |
| Sinks.ApplyPushes | nice-path-tessellator/src/lib.rs:192-211 | one sink call on the storing sink appends only the vertex it pushes (none for the two index calls) and grows the box over exactly that |
| Sinks.FreshBufsBoundingBox | nice-path-tessellator/src/lib.rs:177-199 | from `new()`, after any calls, the box fields are the bounding box of the stored vertices |
| Sinks.VecPathVertBufs.constructor | nice-path-tessellator/src/lib.rs:177-185 | `new()` has no vertices, no indices and all four bounds `None` |
| Sinks.VecPathVertBufs.VertsLen | nice-path-tessellator/src/lib.rs:188-190 | `verts_len` is the vertex count truncated to `u16`, and equals the count below 2^16 |
| Sinks.VecPathVertBufs.PushVert | nice-path-tessellator/src/lib.rs:192-199 | the four in-place field updates and the push leave the object in the state `SinkState.PushVert` specifies |
| Sinks.VecPathVertBufs.PushFillTri | nice-path-tessellator/src/lib.rs:201-205 | the three pushes leave the object in the state `SinkState.PushFillTri` specifies |
| Sinks.VecPathVertBufs.PushQuadraticTri | nice-path-tessellator/src/lib.rs:207-211 | the three pushes leave the object in the state `SinkState.PushQuadraticTri` specifies |
| Sinks.VertCounter.constructor | nice-path-tessellator/src/lib.rs:75-80 | `default()` has all three counts zero |
| Sinks.VertCounter.VertsLen | nice-path-tessellator/src/lib.rs:82-84 | `verts_len` is the vertex count |
| Sinks.VertCounter.PushVert | nice-path-tessellator/src/lib.rs:86-88 | only the vertex count moves, by one modulo 2^16 |
| Sinks.VertCounter.PushFillTri | nice-path-tessellator/src/lib.rs:90-92 | only the fill count moves, by three modulo 2^16 |
| Sinks.VertCounter.PushQuadraticTri | nice-path-tessellator/src/lib.rs:94-96 | only the quadratic count moves, by three modulo 2^16 |
| Sinks.Sink.VertsLen | nice-path-tessellator/src/lib.rs:161-166 | the dynamically dispatched `verts_len` is that of the sink's specification state |
| Sinks.Sink.PushVert | nice-path-tessellator/src/lib.rs:161-166 | a dispatched `push_vert` changes only the chosen sink, as `SinkState.PushVert` specifies |
| Sinks.Sink.PushFillTri | nice-path-tessellator/src/lib.rs:161-166 | a dispatched `push_fill_tri` changes only the chosen sink, as `SinkState.PushFillTri` specifies |
| Sinks.Sink.PushQuadraticTri | nice-path-tessellator/src/lib.rs:161-166 | a dispatched `push_quadratic_tri` changes only the chosen sink, as `SinkState.PushQuadraticTri` specifies |
| Tessellator.MakeTriSpec | nice-path-tessellator/src/lib.rs:147-159 | one index per corner, and the sink keeps its kind |
| Tessellator.MakeTriCorner | nice-path-tessellator/src/lib.rs:150-156 | one loop iteration of `make_tri` adds exactly one index after the earlier ones; an `Idx` corner keeps its index and leaves the sink alone; on the storing sink below 2^16 vertices, the index recorded for a `Pos` corner names the vertex just pushed, which is that corner's position |
| Tessellator.CurveStep | nice-path-tessellator/src/lib.rs:120-125 | a curve keeps the sink's kind and the contour start, and leaves the pen holding an index |
| Tessellator.Step | nice-path-tessellator/src/lib.rs:64-70 | `MoveTo` and `LineTo` leave the sink untouched; `MoveTo` sets start and pen, `LineTo` only the pen; a curve keeps start and leaves the pen an index |
| Tessellator.Replay | nice-path-tessellator/src/lib.rs:64-70 | replaying a command list keeps the sink's kind; its effect on the storing sink is stated by `ReplayLists`, `ReplayBox`, `ReplayIndicesInRange`, `ReplayPen` and `ReplayWedgeAt` |
| Tessellator.Seeded | nice-path-tessellator/src/lib.rs:60-62 | the seeded buffers are those of `new()` with the triangulation's vertices and indices assigned to `verts` and `fill_idxs` |
| Tessellator.Tessellate | nice-path-tessellator/src/lib.rs:60-73 | `fill_tessellate` returns a storing sink; what it holds is stated by `TessellateFacts`, `TessellateIndicesInRange`, `TessellatePen` and `TessellateWedges` |
| Tessellator.FillTessellator.Start | nice-path-tessellator/src/lib.rs:105-107 | start and pen both begin at the origin position |
| Tessellator.FillTessellator.MoveTo | nice-path-tessellator/src/lib.rs:109-113 | start and pen both become `Pos(to)` |
| Tessellator.FillTessellator.LineTo | nice-path-tessellator/src/lib.rs:115-118 | the pen becomes `Pos(to)` and start is kept |
| Tessellator.FillTessellator.LineToImpl | nice-path-tessellator/src/lib.rs:127-132 | the pen becomes the given corner and start is kept |
| Tessellator.FillTessellator.QuadraticCurveTo | nice-path-tessellator/src/lib.rs:120-125 | the sink and the returned tessellator are exactly `CurveStep` of the old sink state |
| Tessellator.FillTessellator.PushQuadraticTri | nice-path-tessellator/src/lib.rs:141-145 | the sink ends as `make_tri` then one quadratic triple of its indices leave it, and the returned corners are those indices |
| Tessellator.FillTessellator.MakeTri | nice-path-tessellator/src/lib.rs:147-159 | the loop over the three corners leaves the sink and the index array exactly as `MakeTriSpec` specifies |
| Tessellator.FillTessellate | nice-path-tessellator/src/lib.rs:60-73 | the returned buffers are freshly allocated and hold exactly `Tessellate(path, triangulation)` |
| TessellationProperties.MakeTriVertsLen | nice-path-tessellator/src/lib.rs:147-159 | after `make_tri`, `verts_len` has moved up by the number of `Pos` corners, modulo 2^16 |
| TessellationProperties.MakeTriKeepsIndices | nice-path-tessellator/src/lib.rs:147-159 | every `Idx` corner keeps its index |
| TessellationProperties.MakeTriFreshIndices | nice-path-tessellator/src/lib.rs:147-159 | the k-th `Pos` corner gets `verts_len() + k` (mod 2^16), so fresh indices are consecutive |
| TessellationProperties.MakeTriPushes | nice-path-tessellator/src/lib.rs:147-159 | on the storing sink `make_tri` appends exactly the `Pos` positions in order and leaves both index lists alone |
| TessellationProperties.MakeTriBox | nice-path-tessellator/src/lib.rs:147-159 | on the storing sink `make_tri` grows the box over exactly the positions it pushes |
| TessellationProperties.MakeTriFromPosition | nice-path-tessellator/src/lib.rs:147-159 | a curve triple whose pen is a position pushes all three corners, which get indices n, n+1, n+2 |
| TessellationProperties.MakeTriFromIndex | nice-path-tessellator/src/lib.rs:147-159 | a curve triple whose pen is an index keeps it as the first index and pushes the other two corners as n, n+1 |
| TessellationProperties.CurvePushes | nice-path-tessellator/src/lib.rs:147-157 | the vertices a curve pushes are (pen, ctrl, to) when the pen is a position and (ctrl, to) when it is an index |
| TessellationProperties.CurveFromPosition | nice-path-tessellator/src/lib.rs:120-125 | from a position pen a curve appends [pen, ctrl, to] and the triple (n, n+1, n+2); it leaves the fill list alone, grows the box over the three points and leaves the pen at index n+2 |
| TessellationProperties.CurveFromIndex | nice-path-tessellator/src/lib.rs:120-125 | from an index pen a curve appends [ctrl, to] and the triple (pen, n, n+1); it leaves the fill list alone, grows the box over the two points and leaves the pen at index n+1 |
| TessellationProperties.StepFacts | nice-path-tessellator/src/lib.rs:64-70 | one replayed command: straight edges change nothing; a curve appends its fresh vertices and one triple, never touches the fill list, grows the box over exactly the pushed vertices and leaves the pen at the triple's last index |
| TessellationProperties.ConsecutiveCurvesShareVertex | nice-path-tessellator/src/lib.rs:120-125 | a curve right after a curve pushes only two vertices, and its first index is the previous curve's last index |
| TessellationProperties.ConsecutiveCurvesMeet | nice-path-tessellator/src/lib.rs:120-125 | below 2^16 vertices, the triple of a curve drawn right after a curve names the first curve's end point, its own control point and its own end point |
| TessellationProperties.CurveAfterStraightEdge | nice-path-tessellator/src/lib.rs:109-125 | a curve right after `MoveTo(p)` or `LineTo(p)` pushes [p, ctrl, to] with fresh consecutive indices |
| TessellationProperties.ReplayLists | nice-path-tessellator/src/lib.rs:64-70 | the replay keeps the fill list, only appends vertices and quadratic indices, and adds exactly three indices per curve |
| TessellationProperties.StepBox | nice-path-tessellator/src/lib.rs:64-70 | one command appends exactly the vertices it pushes and grows the box over exactly those |
| TessellationProperties.ReplayBox | nice-path-tessellator/src/lib.rs:64-70 | after the replay the box is grown over exactly the vertices the replay pushed |
| TessellationProperties.StepIndicesInRange | nice-path-tessellator/src/lib.rs:120-125 | below 2^16 vertices one command keeps every quadratic index and an index pen inside [lo, vertex count) |
| TessellationProperties.ReplayIndicesInRange | nice-path-tessellator/src/lib.rs:64-70 | below 2^16 vertices the whole replay keeps every quadratic index and an index pen inside [lo, vertex count) |
| TessellationProperties.ReplayWithoutCurves | nice-path-tessellator/src/lib.rs:64-70 | replaying commands without curves leaves the sink exactly as it was |
| TessellationProperties.StepPen | nice-path-tessellator/src/lib.rs:109-132 | below 2^16 vertices, after any command the pen stands on that command's end point: it holds that point, or the index of a stored vertex equal to it |
| TessellationProperties.LastWedge | nice-path-tessellator/src/lib.rs:120-125 | below 2^16 vertices, a curve's triple names the point the pen stood on, the control point and the end point |
| TessellationProperties.KeepWedge | nice-path-tessellator/src/lib.rs:64-70 | any later command leaves an existing quadratic triple naming the same three vertices |
| TessellationProperties.ReplayKeepsWedge | nice-path-tessellator/src/lib.rs:64-70 | the last command of a replay leaves every earlier triple naming the same three vertices |
| TessellationProperties.ReplayPen | nice-path-tessellator/src/lib.rs:64-70 | below 2^16 vertices, after a replay the pen stands on the last command's end point, or where it started for no commands |
| TessellationProperties.ReplayLastWedge | nice-path-tessellator/src/lib.rs:64-70 | below 2^16 vertices, a curve ending a replay owns the triple right after three indices per earlier curve, and that triple names the point the pen stood on, the control point and the end point |
| TessellationProperties.ReplayWedgeAt | nice-path-tessellator/src/lib.rs:64-70 | below 2^16 vertices, the k-th command of a replay, when it is a curve, owns the triple at three indices per earlier curve, and that triple names the previous command's end point (or the starting pen point), its control point and its end point |
| TessellationProperties.ReplayPenKind | nice-path-tessellator/src/lib.rs:109-132 | after a replay the pen holds a position exactly when the last command was a straight edge (or, for no commands, when it started with one), whatever the sink |
| TessellationProperties.MakeTriCounts | nice-path-tessellator/src/lib.rs:147-157 | on the counter `make_tri` leaves the fill and quadratic counts alone |
| TessellationProperties.CounterStep | nice-path-tessellator/src/lib.rs:86-96 | one command on the counter: a curve adds three vertices from a position pen and two from an index pen, and three quadratic indices; a straight edge changes nothing; the fill count never moves |
| TessellationProperties.ReplayCounterVerts | nice-path-tessellator/src/lib.rs:86-88 | a replay on the counter adds the number of pushed vertices to the vertex count, modulo 2^16 |
| TessellationProperties.ReplayCounterIdxs | nice-path-tessellator/src/lib.rs:90-96 | a replay on the counter adds three per curve to the quadratic count, modulo 2^16, and leaves the fill count |
| TessellationProperties.ReplayVertsPushed | nice-path-tessellator/src/lib.rs:64-70 | a replay on the storing sink appends exactly as many vertices as the counter counts |
| TessellationProperties.MakeTriAgree | nice-path-tessellator/src/lib.rs:147-159 | `make_tri` returns the same indices on agreeing storing and counting sinks and leaves them agreeing |
| TessellationProperties.ReplayAgree | nice-path-tessellator/src/lib.rs:64-70 | replaying the same commands over agreeing sinks ends in the same tessellator state and in agreeing sinks |
| TessellationProperties.TessellateFacts | nice-path-tessellator/src/lib.rs:60-73 | `fill_tessellate` returns the triangulation's index list unchanged as the fill list and its vertices first; it adds three quadratic indices per curve; its box is the bounding box of the vertices the replay pushed |
| TessellationProperties.TessellateIndicesInRange | nice-path-tessellator/src/lib.rs:60-73 | below 2^16 vertices every quadratic index is at least the triangulation's vertex count and below the final vertex count |
| TessellationProperties.TessellateWithoutCurves | nice-path-tessellator/src/lib.rs:60-73 | a path without curves returns the triangulation as it was, no quadratic indices and no box |
| TessellationProperties.MoveToThenCurve | nice-path-tessellator/src/lib.rs:105-125 | `move_to(p)` then one curve after n triangulation vertices appends [p, ctrl, to] and the single triple (n, n+1, n+2); the box is that of the three points |
| TessellationProperties.TessellatePen | nice-path-tessellator/src/lib.rs:60-73 | below 2^16 vertices, after the replay an index pen lies in [triangulation vertex count, final vertex count) and the pen stands on the last command's end point, or the origin for an empty path |
| TessellationProperties.TessellateWedges | nice-path-tessellator/src/lib.rs:60-73 | below 2^16 vertices, for every curve command k the quadratic triple at 3 × (curves before k) names the previous command's end point (the origin if k is first), the curve's control point and its end point |
| TessellationProperties.TessellateCounter | nice-path-tessellator/src/lib.rs:64-97 | a `VertCounter` from `default()` driven through a tessellator by the same path counts the vertices the replay pushed (not the triangulation's), no fill indices and all quadratic indices, while those stay below 2^16 |
| TessellationProperties.TessellateCountsAgree | nice-path-tessellator/src/lib.rs:75-97 | a counter whose counts start equal to the seeded buffers' lengths, driven by the same path, ends with counts equal to the stored list lengths; the source cannot build such a counter (its fields are private and only `default()` creates one), so this is the agreement argument applied to `fill_tessellate`, and `TessellateCounter` covers the counter the source can build |

## Left out

- The lyon fill tessellation (lib.rs:42-58) is a foreign library call. Its output is an input here: a `Triangulation` holding a vertex list and an index list. The first replay loop that feeds lyon is not modelled.
- `f32` arithmetic is not modelled. Coordinates are `real`, and the NaN and infinity behaviour of `min`/`max` is ignored. `FillOptions::tolerance(INFINITY)` is a lyon option.
- The commented-out fill-triangle code (lib.rs:128-139) is dead, so it is not modelled. Nothing in the tessellator calls `push_fill_tri`. `start` is kept as state but is never read.
- Sinks.VertCounter.PushVert: the model wraps at 2^16, as a release build does. A debug build panics on that overflow instead.
- Sinks.VertCounter.PushFillTri: wraps at 2^16 for the same reason; a debug build panics instead.
- Sinks.VertCounter.PushQuadraticTri: wraps at 2^16 for the same reason; a debug build panics instead.
- TessellationProperties.TessellateIndicesInRange: proved only for fewer than 2^16 final vertices. Past that, `verts.len() as u16` truncates and new indices alias earlier vertices.
- Sinks.FreshSinksAgree: equal counts are stated only below 2^16 entries. `Sinks.SinksAgree` covers the general case, where each count is the length modulo 2^16.
- TessellationProperties.TessellateCountsAgree: equal counts are stated only below 2^16 entries, for the same reason.
- TessellationProperties.TessellateCounter: exact counts are stated only below 2^16; past that the counter's counts are the pushed numbers modulo 2^16 (`ReplayCounterVerts`, `ReplayCounterIdxs`).
- TessellationProperties.TessellatePen: stated only below 2^16 final vertices, where a `u16` index cannot alias an earlier vertex. The same limit holds for `StepPen`, `ReplayPen`, `LastWedge`, `ReplayLastWedge`, `ReplayWedgeAt`, `ConsecutiveCurvesMeet` and `TessellateWedges`.
- TessellationProperties.TessellateWedges: stated only below 2^16 final vertices, for the same reason.
- The `BufsBuilder` trait is modelled as the two-case `Sink` datatype. Only the two implementations in the crate are covered, not an open set of implementors.
- `FillTessellator` borrows its sink (`&'a mut dyn BufsBuilder`). The model does not store the borrow. The sink is passed to the methods that use it, and the by-value `self` becomes a returned `FillTessellator` value.
- `array_init` in `push_quadratic_tri` is modelled as a three-element sequence display.
- The `nice-path-rasterizer` crate and `src/main.rs` are not part of this model: GPU pipelines, the jitter table, buffer upload, textures and the window loop.
