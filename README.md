# SKÅDIS pegboard geometry, modelled in Dafny

This project models the geometry engine of the SKÅDIS DXF generator
(`src/App.tsx`). From a few numeric parameters the engine derives two
things:

- the outline of a rectangular board with rounded corners;
- a staggered grid of vertical slots ("capsules").

Each shape is a closed polyline of `[x, y, bulge]` vertices, the form the
DXF emitter's `drawPolyline` takes. The emitter library itself is replaced
by returned sequences. The model has five modules, plus `Arith`
(`arith.dfy`), a handful of facts about products of reals that the
proofs use:

- `Polylines` (`polylines.dfy`): points, `[x, y, bulge]` vertices, closed
  polylines and the two bulge constants. `Bulge90` stands for `tan(π/8)`
  and `Bulge180` for `-tan(π/4)`. Both are named constants whose values are
  left unknown. Only their ranges are stated: `0 < Bulge90 < 1` and
  `-1 ≤ Bulge180 < 0`. This module also defines the arc midpoint that a
  bulge encodes (DXF convention: positive means counter-clockwise) and the
  shoelace (signed-area) sum.
- `Capsules` (`capsules.dfy`): `drawCapsule` as a pure function. It clamps
  the radius, computes the four tangent points and attaches the bulges
  `[Bulge180, 0, Bulge180, 0]`.
- `Outline` (`outline.dfy`): the eight-vertex board outline of
  `handleGenerate`. Straight runs have bulge 0 and corner arcs have bulge
  `Bulge90`.
- `Placement` (`placement.dfy`): the `DEFAULTS` record and the hole walk.
  The walk is nested `while` loops over columns (right to left) and holes
  (top to bottom), with odd columns half a row pitch lower. `PreviewHoles`
  is the preview's copy of the loop, which collects centres. `ExportHoles`
  is the export's copy, which draws a capsule per hole. Both are proved
  equal to one closed form, `HoleCentres`: the k-th hole of column c is at
  `(boardWidth − offsetRight − c·hSpacing, boardHeight − offsetTop − (c mod 2)·vSpacing/2 − k·vSpacing)`,
  and holes are listed column after column.
- `Layout` (`layout.dfy`): one generation. Layer "BOARD" holds the outline
  and layer "HOLES" holds the capsules.

Lengths are exact reals (millimetres). The form never lets the user change
`hSpacing` or `vSpacing`: their inputs are disabled and show the `DEFAULTS`
values (`src/App.tsx:192-201`), so both are always 20 and 40. The hole loops
therefore always run with positive spacings, which is the one precondition
(`PositiveSpacing`) of the hole methods.

Points worth knowing about the code:

- The board outline does not clamp `cornerRadius` (`src/App.tsx:78`),
  unlike the capsule, which clamps its radius (`src/App.tsx:39`).
  `Outline.OutlineUnclampedRadiusFolds` shows the consequence: a radius
  larger than half the width makes the top run go left-to-right, so the
  path folds back on itself.
- With `cornerRadius = 0` the outline's corner segments keep the bulge
  `tan(π/8)`, not 0. Their two ends coincide, so the corner is still sharp
  (`Outline.OutlineSharpCorners`).
- The capsule radius is clamped (`src/App.tsx:39`). For a 5 × 15 slot with
  radius 3 centred at (100, 200), the radius used is therefore 2.5 and
  the vertices are (97.5, 205), (102.5, 205), (102.5, 195), (97.5, 195).
- The default board height is `22 × 25.4 = 558.8` mm. The first
  default hole is therefore centred at (742, 518.8), and the default board
  holds 37 columns of 13 holes (`Placement.DefaultLayout`).
- The source comments call the capsule's vertex order counter-clockwise.
  In the y-up board frame, TL → TR → BR → BL is clockwise
  (`Capsules.CapsuleClockwise`). The negative (clockwise) bulge is what
  makes both half-circles swell outward (`Capsules.CapsuleArcsBulgeOutward`).
  The board outline is counter-clockwise with positive bulges
  (`Outline.OutlineCounterClockwise`, `Outline.OutlineArcsBulgeOutward`).

## Model

| member | source | states |
|---|---|---|
| `Capsules.EffectiveRadius` | src/App.tsx:39 | the radius used is exactly min(radius, w/2, h/2): at most each of the three, and equal to one of them |
| `Capsules.Capsule` | src/App.tsx:36-63 | a capsule is a closed polyline of exactly 4 vertices with bulges [bulge180, 0, bulge180, 0], the same negative constant on both arcs |
| `Capsules.CapsuleVertices` | src/App.tsx:39-45 | the vertices are (x−r, y+h/2−r), (x+r, y+h/2−r), (x+r, y−h/2+r), (x−r, y−h/2+r) with r the clamped radius |
| `Capsules.CapsuleCentreRoundTrip` | src/App.tsx:42-45 | the centre (x, y) a capsule was drawn around is recovered as the midpoint of its diagonal |
| `Capsules.CapsuleWithinSlot` | src/App.tsx:39-45 | for w, h > 0 and radius ≥ 0: left ≤ right, bottom ≤ top, and all four vertices lie in [x−w/2, x+w/2] × [y−h/2, y+h/2] |
| `Capsules.CapsuleSymmetric` | src/App.tsx:42-45 | opposite vertices are mirror images through (x, y) |
| `Capsules.CapsuleArcsAreHalfTurns` | src/App.tsx:41-45 | each arc joins two diametrically opposite tangent points, r either side of a centre on the slot axis r inside the top (bottom) edge |
| `Capsules.CapsuleClockwise` | src/App.tsx:50-60 | the vertex order is clockwise: twice the signed area is −4r(h−2r), never positive for a sensible slot |
| `Capsules.CapsuleArcsBulgeOutward` | src/App.tsx:47-58 | with the negative bulge each arc's midpoint lies beyond its tangent line, on the slot axis, and no further than the slot's top (bottom) edge |
| `Outline.BoardOutline` | src/App.tsx:77-92 | the outline is closed with exactly 8 vertices; bulge 0 at even positions and tan(π/8) at odd positions, for every radius including 0 |
| `Outline.OutlineOnBoundary` | src/App.tsx:83-92 | for 0 ≤ r ≤ min(w, h)/2 every vertex lies on the boundary of [0, w] × [0, h] |
| `Outline.OutlineStraightRuns` | src/App.tsx:83-92 | the zero-bulge segments lie along the top, left, bottom and right edges in that order, each running counter-clockwise when r ≤ min(w, h)/2 |
| `Outline.OutlineCornerArcs` | src/App.tsx:79-92 | each bulged segment is a counter-clockwise quarter turn of radius r about its corner's rounding centre, between the two tangent points |
| `Outline.OutlineArcsBulgeOutward` | src/App.tsx:79-91 | for 0 < r ≤ min(w, h)/2 each corner arc's midpoint is nearer its board corner than the chord's midpoint and stays on the board |
| `Outline.OutlineCounterClockwise` | src/App.tsx:82-92 | twice the signed area is 2wh − 4r², positive for w, h > 0 and 0 ≤ r ≤ min(w, h)/2 |
| `Outline.OutlineSharpCorners` | src/App.tsx:78-92 | with radius 0 each corner arc has both ends at the board corner while its bulge stays non-zero |
| `Outline.OutlineUnclampedRadiusFolds` | src/App.tsx:78 | the radius is used unclamped: above w/2 the top and bottom runs reverse, above h/2 the left and right runs reverse |
| `Placement.ColumnGuard` | src/App.tsx:100-101 | the outer guard holds for column c exactly when c < ColumnCount |
| `Placement.RowGuard` | src/App.tsx:102-104 | the inner guard holds for row k of column c exactly when k < RowCount(c) |
| `Placement.PreviewHoles` | src/App.tsx:137-150 | the preview loop collects exactly HoleCentres(p), the column-major closed-form grid |
| `Placement.ExportHoles` | src/App.tsx:99-110 | the export loop draws exactly one capsule per centre of HoleCentres(p), in the same order |
| `Placement.HoleEmitted` | src/App.tsx:99-110 | every (c, k) passing both guards is emitted, and hole k of column c sits at index ∣Grid(c)∣ + k, after all earlier columns |
| `Placement.HoleOnGrid` | src/App.tsx:99-107 | every emitted centre is the grid point of some (c, k) passing both guards |
| `Placement.HolesOnBoard` | src/App.tsx:101-105 | every emitted centre satisfies x − holeWidth/2 ≥ 0 and y − holeHeight/2 ≥ 0 |
| `Placement.HolesColumnMajor` | src/App.tsx:99-110 | a later centre is strictly further left, or in the same column and strictly lower |
| `Placement.NoHolesWhenFirstColumnOffBoard` | src/App.tsx:100-101 | if boardWidth − offsetRight < holeWidth/2 no hole is emitted |
| `Placement.StaggerHalfPitch` | src/App.tsx:102-109 | consecutive columns are hSpacing apart and their first holes differ by exactly vSpacing/2 (lower after an even column, higher after an odd one) |
| `Placement.HoleCountMonotoneInHSpacing` | src/App.tsx:99-110 | a smaller positive hSpacing never yields fewer holes |
| `Placement.HoleCountMonotoneInVSpacing` | src/App.tsx:99-110 | a smaller positive vSpacing never yields fewer holes |
| `Placement.DefaultLayout` | src/App.tsx:5-17 | with DEFAULTS there are 37 columns and 481 holes, the first centred at (742, 518.8) |
| `Layout.ExportMatchesPreview` | src/App.tsx:104-105 | the i-th exported capsule is centred on the i-th preview centre, so export and preview agree hole for hole |
| `Layout.SlotsClearLeftAndBottom` | src/App.tsx:101-105 | for a sensible slot every capsule vertex has x ≥ 0 and y ≥ 0 |
| `Layout.GenerateLayout` | src/App.tsx:66-111 | a drawing is layer "BOARD" holding the outline, then layer "HOLES" holding one closed 4-vertex capsule per hole centre, in placement order |

## Left out

- React state and handlers (`useState`, `handleChange`, `handleReset`, the generating flag, the download URL): UI plumbing. Reset would simply return `DEFAULTS`.
- The `dxf-writer` library: units, layer colours and line types, `setActiveLayer`, and serialisation to DXF text. It is foreign code, so the model returns the polylines and layers it would have received.
- The Blob, object URL and download link, and the `alert` on failure: browser I/O.
- The SVG preview's scaling and markup: presentation only. Its hole walk is modelled (`Placement.PreviewHoles`).
- Floating point: coordinates are exact reals. The model does not capture rounding drift from the repeated `x -= hSpacing` and `y -= vSpacing`, which can add or drop a hole that lies exactly on a guard boundary.
- Bulge values: the numeric values of `Math.tan(π/8)` and `Math.tan(π/4)` are not modelled, only their ranges.
- `parseFloat` of form input, including NaN: input validation belongs to the form. A non-positive spacing can make the source's loops run forever, whenever a first hole passes its guard; otherwise the loop ends at once. The form locks both spacings to their positive defaults (`src/App.tsx:192-201`), so both hole methods require positive spacings.
