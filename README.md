# Rigid mailer die-cut layout — a Dafny model

The program turns the finished size of a rigid mailer box (width `w`, depth
`d`, height `h`, in millimetres) into the flat rectangular cardboard panels
to cut, lays them out without overlap, and exports the layout as an SVG
drawing. The mailer has two parts: the outer shell ("Cascarón", five
panels C1–C5) and the inner frame ("Corral", four panels R1–R4).

The model follows the three stages of `src/App.tsx`:

- `pieces.dfy` (module `Pieces`): the panel generator
  `createRigidMailerPieces`. A guard returns no panel when a dimension is not
  positive. Otherwise there are nine panels with sizes derived from the box.
  Two sizes are clamped to at least 1 mm (`max(h-2,1)`, `max(d-2,1)`), and the
  top flap is `d+3` deep. Only C2 and C4 are turned. This module also has the
  split of a panel list by group, as the `filter` calls of `layoutPieces`
  do it.
- `layout.dfy` (module `Layout`): the two-row packer.
  - `layoutRow` is an imperative loop that keeps a horizontal cursor and a
    running maximum height. It is modelled as the method `LayoutRow` and
    proved against the specification functions `LeftEdge`, `RowMaxHeight`
    and `RowPlacement`.
  - `layoutPieces` is the method `LayoutPieces`, proved against the function
    `LayoutOf`. It lays out the shell row at `y = 30` and the frame row 30
    units below the shell row's tallest footprint. The canvas is the wider
    row's width by the frame row's bottom plus 30, or 100 × 100 when there
    is nothing to place.
  - When no panel has a negative size, the lemmas prove that no two
    bounding boxes share area, and that every box lies on the canvas with
    its margins.
- `svg.dfy` (module `Svg`): the serializer `buildPiecesSvgString`, with the
  drawing modelled as structured records rather than text. Each placed panel
  becomes one group: a rectangle of nominal size centred on the panel's
  centre, a `rotate(90 cx cy)` transform exactly when the panel is turned, a
  fill chosen by group, and two labels. The geometric read-back
  (`Footprint`) applies the transform to the rectangle. It shows that the
  drawn area is exactly the layout's bounding box, so rotated panels cover
  their swapped footprint.
- `pipeline.dfy` (module `Pipeline`): the three stages composed. It covers
  the empty result for an invalid box, the soundness of the whole drawing,
  the exact margins of the canvas, and two concrete boxes.

All dimensions are Dafny `real`s, so halving and the sums are exact.

Two details of the code's geometry are worth stating plainly:

- Only the derived sizes `max(h-2,1)` and `max(d-2,1)` are clamped. The
  panels sized by `w`, `d` or `h` themselves are only known to be positive,
  so the model proves positivity for all panels and `>= 1` for the clamped
  sizes.
- The canvas margins are not uniform. The final cursor of a row already
  includes the gap after its last panel, and the row width adds another 20.
  For any input with no negative size (every generator output is one),
  `LayoutIsSound` proves `InsideCanvas`, which gives the lower bounds: at
  least 20 on the left, 30 at the top and bottom, and 40 on the right. With
  a negative size the cursor can move left, and a box can lie outside the
  canvas. For the generator's
  nine panels, `Pipeline.CanvasIsTight` shows that these margins are exact,
  so the canvas is no larger than they require. For other inputs the margins
  can be wider: when there is no frame panel, the empty frame row still adds
  60 below the shell row.

Panel ids are `C1`…`C5` and `R1`…`R4`, and the panel names are the Spanish
ones of the code.

## Model

| member | source | states |
|---|---|---|
| `Pieces.CreateRigidMailerPieces` | src/App.tsx:8-33 | no panel exactly when some dimension is not positive; otherwise 9 panels, shell panels at positions 0–4 and frame panels after; only C2 and C4 (positions 1 and 3) are turned; ids are distinct; every size is positive |
| `Pieces.Reduced` | src/App.tsx:11-12 | a clamped size is at least 1 and at least `x - cut`, and equals one of the two |
| `Pieces.PanelSizes` | src/App.tsx:11-30 | the panel table: ids C1–C5, R1–R4, each panel's name, and each panel's width and height in terms of `w`, `d`, `h`, `max(h-2,1)`, `max(d-2,1)` and `d+3` |
| `Pieces.FilterGroup` | src/App.tsx:44-45 | every panel kept by the group filter belongs to that group |
| `Pieces.FilterGroupAppend` | src/App.tsx:44-45 | filtering distributes over concatenation, so the filter keeps input order |
| `Pieces.FilterGroupSplits` | src/App.tsx:44-45 | the shell panels and the frame panels together are a permutation of the input |
| `Pieces.FilterGroupPrefix` | src/App.tsx:44-45 | on a list whose first `k` panels are of the group and the rest are not, the filter keeps exactly the first `k` |
| `Pieces.GeneratedRows` | src/App.tsx:16-32 | on the generator's output the shell row is exactly C1–C5 and the frame row exactly R1–R4, in order |
| `Layout.LeftEdge` | src/App.tsx:48-59 | specification of the cursor: 20, plus one footprint width and one gap of 20 for every earlier panel; its properties are `LeftEdgeMonotone` and `RowPlacementAt` |
| `Layout.RowMaxHeight` | src/App.tsx:49-60 | specification of the running maximum: starts at 0 and takes a footprint height exactly when it is strictly greater; its properties are `RowMaxHeightIsMax` |
| `Layout.RowPlacement` | src/App.tsx:51-69 | specification of a row: each panel placed with its footprint's top-left corner at (`LeftEdge`, `startY`); its properties are `RowPlacementAt`, `RowPlacementPieces` and `RowSeparated` |
| `Layout.RowMaxHeightIsMax` | src/App.tsx:49-60 | the running maximum is at least 0, at least every footprint height seen, and is 0 or one of those heights |
| `Layout.LeftEdgeMonotone` | src/App.tsx:48-59 | with no negative size the cursor advances by at least one gap (20) per panel, so it strictly increases |
| `Layout.RowPlacementAt` | src/App.tsx:53-59 | a placed panel keeps its panel, has the swapped footprint when turned, its left edge at the cursor, its top at `startY`, and the next cursor one gap after its right edge |
| `Layout.LayoutRow` | src/App.tsx:47-73 | the loop places every panel at the cursor, centred at `left + finalWidth/2`, `startY + finalHeight/2`; returns the row width (final cursor + 20) and the running maximum height |
| `Layout.RowSeparated` | src/App.tsx:47-71 | consecutive boxes of a row are exactly 20 apart; with no negative size every box is at least 20 left of every later one, at least 20 from the left, 40 inside the row width, and no lower than the row's maximum height |
| `Layout.RowPlacementPieces` | src/App.tsx:62-68 | a row's placed panels are its input panels in order, all other fields unchanged, with their footprints |
| `Layout.LayoutOf` | src/App.tsx:36-85 | specification of the whole layout: the empty case, the two filtered rows at `y = 30` and at `30 + rowMaxHeight + 30`, and the canvas extent; its properties are `LayoutKeepsOrder`, `LayoutKeepsPanels`, `LayoutFootprints`, `RowsStacked` and `LayoutIsSound` |
| `Layout.LayoutPieces` | src/App.tsx:36-85 | equals `LayoutOf`; empty input gives no panel on a 100 × 100 canvas; output is the shell panels then the frame panels, in input order; a permutation of the input; footprints swap exactly when turned; every frame box lies at least 30 below every shell box; with no negative size, no two boxes overlap and all lie on the canvas with margins |
| `Layout.LayoutKeepsOrder` | src/App.tsx:44-82 | the placed panels are the shell panels in input order followed by the frame panels in input order |
| `Layout.LayoutKeepsPanels` | src/App.tsx:44-82 | the placed panels are a permutation of the input panels |
| `Layout.LayoutFootprints` | src/App.tsx:53-54 | every placed panel's `finalWidth`/`finalHeight` are `(height, width)` when turned, else `(width, height)` |
| `Layout.RowsStacked` | src/App.tsx:75-77 | every frame-row box's top is at least 30 below every shell-row box's bottom, because the frame row starts at `30 + rowMaxHeight(shell) + 30` |
| `Layout.LayoutIsSound` | src/App.tsx:71-84 | with no negative size: no two bounding boxes share area, and each has 20 to its left, 30 above, 40 to its right and 30 below inside the canvas |
| `Svg.PieceElement` | src/App.tsx:93-116 | the rectangle has nominal size and centre `(cx, cy)`; a quarter-turn transform about `(cx, cy)` exactly when turned; fill `#cfe8ff` exactly for the shell and `#ffe5c2` exactly for the frame; labels "id name" at `(cx, cy-4)` and the size at `(cx, cy+10)` |
| `Svg.BuildPiecesSvg` | src/App.tsx:91-124 | view box `0 0 totalWidth totalHeight`; one group per placed panel, in order |
| `Svg.ElementFootprint` | src/App.tsx:99-104 | read back through its transform, a panel's rectangle covers exactly its bounding box in the layout |
| `Svg.DrawingMatchesLayout` | src/App.tsx:91-121 | the drawing of a sound layout has no two rectangles sharing area, and every rectangle inside the view box with the layout's margins |
| `Pipeline.InvalidBoxGivesEmptyDrawing` | src/App.tsx:8-39 | a dimension that is not positive gives an empty layout on a 100 × 100 canvas and a drawing with no group |
| `Pipeline.MailerLayoutKeepsTable` | src/App.tsx:44-82 | for a real box the layout places the nine generated panels in generator order, each with its footprint |
| `Pipeline.MailerDrawingIsSound` | src/App.tsx:75-121 | for a real box the drawing has nine groups, only groups 2 and 4 are turned, no two rectangles share area, and all lie inside the view box with margins |
| `Pipeline.CanvasIsTight` | src/App.tsx:48-80 | for a real box the margins are exact: the first panel of each row is 20 from the left, the shell row 30 from the top, the wider row ends 40 from the right, and the frame row ends 30 from the bottom |
| `Pipeline.ExampleBox` | src/App.tsx:11-80 | a 200 × 100 × 150 box: top flap 200 × 103 laid as 103 × 200, spine 148 × 200, canvas 791 × 438 |
| `Pipeline.ClampEngages` | src/App.tsx:11-12 | a 50 × 1 × 1 box: the spine and the frame sizes that would be −1 mm are 1 mm |

## Left out

- `App` (src/App.tsx:230-337): React state, memoisation and the input
  coercion `parseFloat(...) || 0` are user-interface plumbing. The model's
  inputs are the three numbers after coercion.
- `PiecesPreview` (src/App.tsx:131-189): JSX rendering. It repeats the
  serializer's geometry line for line. That geometry is modelled once, as
  `Svg.PieceElement`, which both renderers compute.
- `DownloadSvgButton` (src/App.tsx:191-224): the blob, the object URL and
  the file download are browser I/O.
- Text rendering of the SVG: JavaScript number-to-string formatting, the
  `.join`/`.trim` whitespace, and the `font-size` and `stroke` attributes.
  The horizontal centring of `text-anchor="middle"` is kept: a label is
  anchored at its centre point. The drawing is kept as records. A size label is the pair of
  numbers it prints (`SizeInMm`), not its characters.
- Floating point: the source computes with JavaScript doubles. The model
  uses exact reals, so rounding and NaN inputs are not represented.
- Group names: the source compares group strings. The model has a
  two-valued `Group`. A panel with a third group name, which the source's
  filters would drop, cannot be expressed. The generator never makes one.
- `Layout.LayoutIsSound`, `Layout.RowSeparated`: overlap-freedom and
  containment are proved for panels with no negative size. With negative
  sizes, which the generator never produces, the cursor can move left and
  the source itself gives overlapping boxes.
