# asciigraphix in Dafny

asciigraphix draws wireframe shapes as ASCII art in a terminal. A shape is
a list of 3D vertices, a list of edges (pairs of vertex indices) and an
optional pivot. A display owns a `y_size` by `x_size` depth buffer of
`Option<depth>`.

Each pass does four things:

- clears the buffer;
- projects point samples onto it;
- keeps, per cell, the largest depth that landed there ("farther wins");
- flattens the buffer into text or into `(depth, color)` pairs.

There are two displays:

- **the older orthographic one** (`src/lib.rs`) drops each vertex straight onto the grid, with z as the depth;
- **the perspective one** (`asciigraphix-core/src/lib.rs`) uses a camera.
  - The camera has a position, an orthonormal basis built from a look direction, and a focal length.
  - Samples behind it are culled.
  - It projects every vertex and 100 samples along every edge.

The TUI (`asciigraphix-tui`) adds three pieces:

- a widget that writes the rendered frame into a terminal buffer;
- color helpers;
- a small state machine driven by key events and periodic updates.

The state machine covers:

- the quit and reset flags, pause and help;
- a "confusion" level that selects 4D rotation rates from a fixed table;
- an explore mode that moves the camera and nudges the rates;
- a header that grows one letter at a time toward `TeSSHeract`.

The modules follow the program:

- `Geometry`: the point algebra;
- `GridIndex`: row-major index arithmetic;
- `Compositor`: the farther-wins write rule, and a pass as a fold of it;
- `Shapes`: `src/shapes.rs`;
- `LegacyDisplay`: `src/lib.rs`;
- `CoreDisplay`: `asciigraphix-core/src/lib.rs`;
- `ColorUtils`: `asciigraphix-tui/src/utils.rs`;
- `GraphixWidget`: `asciigraphix-tui/src/graphix.rs`;
- `TuiApp`: `asciigraphix-tui/src/lib.rs`.

How the source's state is modelled:

- Mutable state becomes classes.
  - Each display's pixel buffer is an `array2<Option<real>>`.
  - A shape's lists are `seq` fields.
  - The application state is a class.
- Each method is proved against a pure specification function of the old state, and lemmas prove properties of those functions.
- Coordinates and depths are `real`. Color channels are bytes.

Some inputs are supplied by the caller instead of being computed:

- Sines and cosines are passed in as a `Trig` pair (or as a function producing one).
- The three magnitudes that `orthogonal_basis` divides by are passed in, with their defining equations as a precondition.
- The camera direction's `Point::rotate` is a function parameter.
- The clock is a nanosecond parameter.

## Model

| member | source | states |
|---|---|---|
| Geometry.SubAddCancel | src/lib.rs:14-25 | `(p - q) + q == p` and `(p + q) - q == p` for the componentwise operators |
| Geometry.Add | src/lib.rs:14-19 | the componentwise sum, as in `src/shapes.rs:17-22`; `SubAddCancel` states that `Sub` undoes it |
| Geometry.Sub | src/lib.rs:20-25 | the componentwise difference, as in `src/shapes.rs:24-29`; `SubAddCancel` states that adding the same point back undoes it |
| Geometry.Scale | src/shapes.rs:38-43 | `Point * f64`; `DotScaleLeft` states that a scale factor pulls out of a dot product, and `EdgeSamplesAt` states the edge samples it builds |
| Geometry.Dot | asciigraphix-core/src/lib.rs:79-81 | the dot product the projection takes against the three camera axes; `DotSymmetric`, `DotScaleLeft` and `CrossOrthogonal` state its algebra |
| Geometry.DotSymmetric | asciigraphix-core/src/lib.rs:79-81 | the dot product does not depend on the order of its factors |
| Geometry.DotScaleLeft | asciigraphix-core/src/lib.rs:79-81 | scaling the first factor by `s` scales the dot product by `s` |
| Geometry.Cross | asciigraphix-core/src/lib.rs:65 | the cross product that gives the camera's up axis; `CrossOrthogonal` states that it is orthogonal to both factors |
| Geometry.Norm2 | asciigraphix-core/src/lib.rs:64-66 | the squared magnitude that `unit` divides by the root of; `Unit` states that the result has squared length 1 |
| Geometry.Dist2 | src/shapes.rs:56-71 | the squared distance; `RotatePreservesDistance` states that `rotate` keeps it to the pivot |
| Geometry.UnitOfUnit | asciigraphix-core/src/lib.rs:64-66 | `unit` of a vector that already has length 1 returns it unchanged |
| Geometry.Unit | asciigraphix-core/src/lib.rs:64-66 | dividing a vector by its true magnitude gives a vector of squared length 1 |
| Geometry.CrossOrthogonal | asciigraphix-core/src/lib.rs:65 | the cross product is orthogonal to both factors |
| GridIndex.Column | asciigraphix-tui/src/graphix.rs:34 | `i % width` is a valid column |
| GridIndex.Row | asciigraphix-tui/src/graphix.rs:35 | `(i - i % width) / width` equals `i / width` and rebuilds `i` as `y * width + x` |
| GridIndex.RowInRange | asciigraphix-tui/src/graphix.rs:25-35 | an index below `width * height` forces a positive width and a row below `height` |
| GridIndex.IndexOf | asciigraphix-tui/src/graphix.rs:34-35 | the index `y * width + x` of a cell with `x < width` gives back column `x` and row `y` |
| GridIndex.IndexInRange | asciigraphix-tui/src/graphix.rs:33-35 | every cell of a `width` by `height` area has an index below `width * height` |
| GridIndex.IndexToCell | asciigraphix-tui/src/graphix.rs:33-35 | every index of the frame maps to a cell of the area and back to itself |
| GridIndex.CellToIndex | asciigraphix-tui/src/graphix.rs:33-35 | every cell of the area is the image of exactly the index `y * width + x`, so the map is a bijection |
| Compositor.Deposit | asciigraphix-core/src/lib.rs:101-108 | a write touches only its own cell; an empty cell takes the depth; an occupied cell keeps the larger depth |
| Compositor.Lands | asciigraphix-core/src/lib.rs:101-108 | a located sample targets cell `(y, x)`; `Deposit` states that only that cell can change |
| Compositor.IsMaxDepth | asciigraphix-core/src/lib.rs:101-108 | `d` is the largest depth among the samples that land on the cell; `CompositeIsMax` states that a pass leaves exactly it there |
| Compositor.Composite | asciigraphix-core/src/lib.rs:111-115 | a pass as the writes of its samples in order; `CompositeSnoc`, `CompositeAppend` and `CompositeIsMax` state that one more sample is one more write, that two passes compose, and the content of each cell after a pass from empty |
| Compositor.CompositeSnoc | asciigraphix-core/src/lib.rs:112-114 | one more sample in a pass is one more write on top of the earlier ones |
| Compositor.CompositeAppend | asciigraphix-core/src/lib.rs:141-146 | the vertex pass followed by the edge pass equals one pass over both sample runs |
| Compositor.CompositeIsMax | asciigraphix-core/src/lib.rs:101-108 | after a pass a cell is empty iff no sample landed on it, and otherwise holds the largest depth among the samples that did |
| Shapes.RotateFixesPivot | src/shapes.rs:61-69 | the pivot is a fixed point of the rotation for any angles |
| Shapes.EdgesInRange | src/shapes.rs:45-53 | every edge names two existing vertices, as the indexing at `asciigraphix-core/src/lib.rs:119-120` needs; `UnrenumberedInRange` and `RenumberedTopology` state when `combine` keeps it |
| Shapes.OnUnitCircle | src/shapes.rs:56-69 | a genuine `(sin, cos)` pair; `PlanarIsometry` and `RotatePreservesDistance` assume it |
| Shapes.RotatePoint | src/shapes.rs:60-69 | one vertex of `rotate`; its properties are stated by `RotateFixesPivot` and `RotatePreservesDistance` |
| Shapes.TurnXZ | src/shapes.rs:63-64 | the (x, z) step; `PlanarIsometry` states that it keeps `x² + z²` |
| Shapes.TurnYZ | src/shapes.rs:67-68 | the (y, z) step; `PlanarIsometryMirrored` states that it keeps `y² + z²` |
| Shapes.PlanarIsometry | src/shapes.rs:63-64 | with `sin² + cos² = 1` the (x, z) step keeps `x² + z²` |
| Shapes.PlanarIsometryMirrored | src/shapes.rs:67-68 | with `sin² + cos² = 1` the (y, z) step keeps `y² + z²` |
| Shapes.RotatePreservesDistance | src/shapes.rs:60-70 | with genuine sines and cosines every vertex keeps its squared distance to the pivot |
| Shapes.RingPoint | src/shapes.rs:89-90 | every ring vertex has the center's z |
| Shapes.RingAngle | src/shapes.rs:89 | the angle `2 * 3.14 / 100 * k` of the k-th ring vertex; `RingPointOnCircle` states where the vertex lands |
| Shapes.RingPointOnCircle | src/shapes.rs:88-90 | with a genuine sine and cosine every ring vertex is at `radius` from the center |
| Shapes.Offset | src/shapes.rs:76 | renumbering keeps the number of edges and adds `n` to both ends of each; `RenumberedTopology` states that the renumbered edges join the same vertices after concatenation |
| Shapes.UnrenumberedInRange | src/shapes.rs:74-76 | edges that were in range stay in range of the concatenated vertex list |
| Shapes.RenumberedTopology | src/shapes.rs:72-82 | with renumbering every edge stays in range and joins the same two vertices as in its own shape |
| Shapes.Shape.constructor | src/shapes.rs:48-53 | the struct literal: the three fields are exactly the given values |
| Shapes.Shape.Line | src/shapes.rs:100-106 | `generate_line` gives vertices `[start, end]`, edges `[Edge(0, 1)]`, no center |
| Shapes.Shape.Ring | src/shapes.rs:84-98 | `generate_ring` gives exactly 100 vertices with the center's z, no edges, and the center as pivot |
| Shapes.Shape.Rotate | src/shapes.rs:56-71 | every vertex becomes its rotated image; the vertex count, the edges and the center are unchanged |
| Shapes.Shape.Combine | src/shapes.rs:72-82 | result vertices and edges are the two lists appended, unrenumbered; center `None`; the inputs are untouched |
| Shapes.Shape.CombineRenumbered | src/shapes.rs:72-82 | as `combine`, with the second shape's edges offset by the first shape's vertex count |
| Shapes.CombineTwoLinesAsWritten | src/shapes.rs:72-82 | combining two lines yields edges `[Edge(0,1), Edge(0,1)]`: the second pair of vertices is never joined |
| Shapes.CombineTwoLinesRenumbered | src/shapes.rs:72-82 | with renumbering the combined lines have edges `[Edge(0,1), Edge(2,3)]` |
| LegacyDisplay.Trunc | src/lib.rs:52-53 | the cast rounds toward zero, with the bounds for each sign |
| LegacyDisplay.TruncSmallNegative | src/lib.rs:52-57 | a coordinate in (-1, 0) truncates to 0 and is therefore drawn in column or row 0 |
| LegacyDisplay.Locate | src/lib.rs:52-61 | a vertex lands iff both truncated coordinates are in `[0, size)`, on that cell, with depth `z` |
| LegacyDisplay.Hits | src/lib.rs:51 | one hit per vertex, in vertex order |
| LegacyDisplay.OffGridNoEffect | src/lib.rs:54-61 | a vertex whose column or row is negative or at least the size changes no cell |
| LegacyDisplay.CellIsMaxZ | src/lib.rs:62-70 | after `project` a cell is `None` iff no vertex maps to it, otherwise the maximum `z` of the vertices that do |
| LegacyDisplay.Glyph | src/lib.rs:79-93 | a space exactly for an empty cell |
| LegacyDisplay.GlyphBoundaries | src/lib.rs:81-89 | thresholds are strict: 10.0 gives `/`, 5.0 gives `-`, 3.0 and every negative depth give `.` |
| LegacyDisplay.GlyphMonotone | src/lib.rs:81-89 | a larger z never gets a lower glyph in the order `.`, `-`, `/`, `#` |
| LegacyDisplay.GlyphRank | src/lib.rs:81-89 | the order `.`, `-`, `/`, `#` of the glyph buckets in which `GlyphMonotone` is stated |
| LegacyDisplay.Display.constructor | src/lib.rs:34-41 | a `y_size` by `x_size` grid with every cell `None` |
| LegacyDisplay.Display.Project | src/lib.rs:47-72 | a fresh grid of the same size whose every cell is the farther-wins fold over the vertices, starting from `None` |
| LegacyDisplay.Display.Render | src/lib.rs:74-98 | the frame has `y_size * (x_size + 1)` characters: each row's glyphs followed by a newline |
| LegacyDisplay.Display.Print | src/lib.rs:77-96 | given a projected grid, the text lists every cell's glyph row by row with a newline after each row |
| LegacyDisplay.TextAt | src/lib.rs:74-98 | character `k` of the frame; `Display.Render` and `Display.Print` state that the text is exactly these characters |
| CoreDisplay.ToU32Bytes | asciigraphix-core/src/lib.rs:18-20 | the packing holds red, green and blue in bytes 2, 1 and 0 |
| CoreDisplay.ToU32Bound | asciigraphix-core/src/lib.rs:18-20 | the top byte is zero, so the value is below 2^24 |
| CoreDisplay.ToU32Injective | asciigraphix-core/src/lib.rs:18-20 | different colors pack to different values |
| CoreDisplay.ToU32Example | asciigraphix-core/src/lib.rs:29-30 | `RGB(255, 5, 15)` packs to `0x00FF050F` |
| CoreDisplay.ToU32 | asciigraphix-core/src/lib.rs:18-20 | the packing; `ToU32Bytes`, `ToU32Bound`, `ToU32Injective` and `GraphixWidget.FromU32Packed` state that it puts the channels in bytes 2, 1 and 0, injectively, and that `from_u32` inverts it |
| CoreDisplay.BasisOrthonormal | asciigraphix-core/src/lib.rs:62-67 | for a direction that is not vertical, the camera basis is orthonormal |
| CoreDisplay.OrthogonalBasis | asciigraphix-core/src/lib.rs:62-67 | the camera basis; `BasisOrthonormal` states that it is orthonormal |
| CoreDisplay.Side | asciigraphix-core/src/lib.rs:64 | the horizontal vector `(d.y, -d.x, 0)`, also the strafe direction at `asciigraphix-tui/src/lib.rs:135-140`; `BasisOrthonormal` and `HorizontalUnitRoots` state that it is orthogonal to `d` and of length 1 for a horizontal unit `d`, and `ExploreMovesInverse` that `d` then `a` cancel |
| CoreDisplay.RootsFor | asciigraphix-core/src/lib.rs:62-67 | the direction is not vertical and the three magnitudes `unit` divides by are the positive roots of the squared lengths; `HorizontalUnitRoots` and `DefaultDirectionRoots` state directions for which it holds |
| CoreDisplay.Orthonormal | asciigraphix-core/src/lib.rs:62-67 | three unit axes, pairwise orthogonal; `BasisOrthonormal` states that the camera basis is one |
| CoreDisplay.HorizontalUnitRoots | asciigraphix-core/src/lib.rs:62-67 | every horizontal look direction of length 1 meets the constructor's precondition with magnitudes 1, 1 and 1 |
| CoreDisplay.DefaultDirectionRoots | asciigraphix-core/src/lib.rs:44-60 | the direction `(0, 1, 0)` meets the constructor's precondition, so a display can be built for it |
| CoreDisplay.Round | asciigraphix-core/src/lib.rs:96-97 | rounding lands within 0.5 of its argument, and non-negative values stay non-negative |
| CoreDisplay.RoundHalfAway | asciigraphix-core/src/lib.rs:96-97 | every halfway value rounds away from zero: `n + 0.5` gives `n + 1` and `-n - 0.5` gives `-(n + 1)` for every natural `n` |
| CoreDisplay.LocateSpec | asciigraphix-core/src/lib.rs:79-100 | a sample lands iff it is in front of the camera and on the grid both before and after rounding, on the rounded pixel, at its depth |
| CoreDisplay.Depth | asciigraphix-core/src/lib.rs:77-79 | `(p - cam_pos) . forward`; `BehindCameraNoEffect` states that `depth <= 0` culls the sample and `LocateSpec` that it is the depth written |
| CoreDisplay.PixelX | asciigraphix-core/src/lib.rs:80-91 | the unrounded column `focal * x / depth + x_size / 2`; `LocateSpec` and `OffGridNoEffect` state that a negative column culls the sample and that its rounding is the column written |
| CoreDisplay.PixelY | asciigraphix-core/src/lib.rs:81-92 | the unrounded row `focal * y / depth + y_size / 2`; `LocateSpec` and `OffGridNoEffect` state that a negative row culls the sample and that its rounding is the row written |
| CoreDisplay.Locate | asciigraphix-core/src/lib.rs:76-100 | where `project_point` writes a sample, if anywhere; `LocateSpec` states the cull conditions, the cell and the depth |
| CoreDisplay.BehindCameraNoEffect | asciigraphix-core/src/lib.rs:82-84 | a sample with `depth <= 0` changes no cell |
| CoreDisplay.OffGridNoEffect | asciigraphix-core/src/lib.rs:93-100 | a sample negative before rounding or too large after it changes no cell |
| CoreDisplay.AtMostOneCell | asciigraphix-core/src/lib.rs:101-108 | one sample changes at most one cell, in range, and leaves its own depth there |
| CoreDisplay.Hits | asciigraphix-core/src/lib.rs:111-115 | one hit per sample, in sample order |
| CoreDisplay.Segment | asciigraphix-core/src/lib.rs:125-129 | an edge yields exactly 100 samples, the first of them the start vertex itself; `EdgeSamplesAt` states every sample |
| CoreDisplay.Lerp | asciigraphix-core/src/lib.rs:127 | the sample `start + (end - start) * (c / 100)`; `EdgeSamplesAt` states which sample of the edge pass it is |
| CoreDisplay.EdgeSamplesLength | asciigraphix-core/src/lib.rs:117-131 | the edge pass has 100 samples per edge |
| CoreDisplay.EdgeSamplesAt | asciigraphix-core/src/lib.rs:117-131 | sample `100 k + c` is edge `k` at `t = c / 100` with `c` in 0..99, so `t = 1` is never sampled |
| CoreDisplay.EdgeSamples | asciigraphix-core/src/lib.rs:117-131 | the samples of the edge pass in order; `EdgeSamplesLength` and `EdgeSamplesAt` state their number and each one |
| CoreDisplay.HitsAppend | asciigraphix-core/src/lib.rs:143-144 | the hits of the vertices followed by the edge samples are the two hit runs appended |
| CoreDisplay.Samples | asciigraphix-core/src/lib.rs:141-146 | the vertices, then the edge samples, in the order `project` visits them; `HitsAppend`, `CellIsMaxDepth` and `Display.Project` state the pass over them |
| CoreDisplay.CellIsMaxDepth | asciigraphix-core/src/lib.rs:141-146 | after `project` a cell is `None` iff no sample lands on it, otherwise the largest depth of the samples that do |
| CoreDisplay.ShadeAtCell | asciigraphix-core/src/lib.rs:164-175 | entry `y * x_size + x` is `(depth, FG)` for an occupied cell and `(0.0, BG)` for an empty one |
| CoreDisplay.Shade | asciigraphix-core/src/lib.rs:160-175 | the entry of one cell; `GraphixWidget.ShadeColor` states its color for occupied and empty cells |
| CoreDisplay.ShadeAt | asciigraphix-core/src/lib.rs:163-176 | entry `k` of `render`; `ShadeAtCell` states which cell it shades and with what |
| CoreDisplay.Glyph | asciigraphix-core/src/lib.rs:185-199 | a space exactly for an empty cell |
| CoreDisplay.GlyphBoundaries | asciigraphix-core/src/lib.rs:187-195 | thresholds are strict upper bounds: 10 gives `*`, 30 gives `-`, 50 gives `.`, negatives give `#` |
| CoreDisplay.GlyphMonotone | asciigraphix-core/src/lib.rs:187-195 | a farther sample never gets a nearer bucket's glyph |
| CoreDisplay.GlyphRank | asciigraphix-core/src/lib.rs:187-195 | the order `#`, `*`, `-`, `.` of the glyph buckets in which `GlyphMonotone` is stated |
| CoreDisplay.TextAt | asciigraphix-core/src/lib.rs:179-204 | character `k` of `render_print`'s frame; `Display.RenderPrint` and `Display.Print` state that the text is exactly these characters |
| CoreDisplay.Display.constructor | asciigraphix-core/src/lib.rs:44-60 | an all-`None` grid of the given size, with the orthonormal basis of the look direction |
| CoreDisplay.Display.Viewpoint | asciigraphix-core/src/lib.rs:5-12 | the display's size and camera fields, which `Locate` reads; `Display.ProjectPoint` states its writes through it |
| CoreDisplay.Display.ProjectPoint | asciigraphix-core/src/lib.rs:76-109 | every cell becomes the farther-wins write of the located sample into its old content |
| CoreDisplay.Display.ProjectVertices | asciigraphix-core/src/lib.rs:111-115 | every cell becomes the fold of its old content over the vertices' hits |
| CoreDisplay.Display.ProjectEdges | asciigraphix-core/src/lib.rs:117-131 | every cell becomes the fold of its old content over the edge samples' hits |
| CoreDisplay.Display.ProjectSegment | asciigraphix-core/src/lib.rs:119-129 | every cell becomes the fold of its old content over the hits of one edge's 100 samples |
| CoreDisplay.Display.Project | asciigraphix-core/src/lib.rs:141-146 | a fresh grid whose cells are the fold from `None` over the vertices and then the edge samples |
| CoreDisplay.Display.Render | asciigraphix-core/src/lib.rs:159-177 | exactly `x_size * y_size` entries; entry `k` shades cell `(k / x_size, k % x_size)` of `project`'s grid |
| CoreDisplay.Display.Flatten | asciigraphix-core/src/lib.rs:163-176 | the nested row loops list the cells in row-major order |
| CoreDisplay.Display.RenderPrint | asciigraphix-core/src/lib.rs:179-204 | the frame has `y_size * (x_size + 1)` characters: each cell's glyph, a newline after every row |
| CoreDisplay.Display.Print | asciigraphix-core/src/lib.rs:182-203 | given a projected grid, the text lists every cell's glyph row by row with a newline after each row |
| ColorUtils.MakeRgb | asciigraphix-tui/src/utils.rs:11-13 | `ColorWrapper::rgb`; `ToColorFaithful` states that converting the result gives `Rgb(r, g, b)` |
| ColorUtils.ToColor | asciigraphix-tui/src/utils.rs:27-31 | the conversion gives an `Rgb` color from whose channels `rgb` rebuilds the wrapper |
| ColorUtils.ToColorFaithful | asciigraphix-tui/src/utils.rs:11-31 | building then converting gives `Rgb(r, g, b)`, and the conversion is injective |
| ColorUtils.CastU8 | asciigraphix-tui/src/utils.rs:21-23 | the cast truncates toward zero and saturates at 0 and at 255 |
| ColorUtils.CastU8Monotone | asciigraphix-tui/src/utils.rs:21-23 | the cast is monotone |
| ColorUtils.Min | asciigraphix-tui/src/utils.rs:21-23 | `f32::min` against the cap 254.999; `ChannelDims` and `LightenAtMost254` state its effect on a channel |
| ColorUtils.CastU8OfByte | asciigraphix-tui/src/utils.rs:18-23 | a byte widened to a float casts back to itself; `ChannelDims` and `ChannelCappedDims` rest on it |
| ColorUtils.Channel | asciigraphix-tui/src/utils.rs:21-23 | one channel of `lighten`; `ChannelDims`, `ChannelMonotone` and `ChannelUnitFactor` state its properties |
| ColorUtils.Lighten | asciigraphix-tui/src/utils.rs:16-25 | `lighten`; `LightenAtMost254`, `LightenDims` and `LightenUnitFactorChangesFullChannel` state its properties |
| ColorUtils.LightenAtMost254 | asciigraphix-tui/src/utils.rs:21-23 | every channel of `lighten` is at most 254 |
| ColorUtils.ChannelDims | asciigraphix-tui/src/utils.rs:18-23 | a factor in `[0, 1]` never increases a channel |
| ColorUtils.LightenDims | asciigraphix-tui/src/utils.rs:18-23 | a factor in `[0, 1]` never increases any channel of the color |
| ColorUtils.ChannelMonotone | asciigraphix-tui/src/utils.rs:18-23 | for non-negative factors a channel is monotone in both the factor and the input |
| ColorUtils.ChannelUnitFactor | asciigraphix-tui/src/utils.rs:15-23 | with factor 1.0, channels up to 254 are kept and 255 becomes 254 |
| ColorUtils.LightenUnitFactorChangesFullChannel | asciigraphix-tui/src/utils.rs:15-23 | `lighten((255, 0, 0), 1.0)` is `(254, 0, 0)`, against the doc comment |
| ColorUtils.ChannelCapped | asciigraphix-tui/src/utils.rs:21-23 | the corrected channel, capped at 255; `ChannelCappedMonotone` and `ChannelCappedDims` state its properties |
| ColorUtils.LightenCapped | asciigraphix-tui/src/utils.rs:15-25 | the corrected `lighten`; `LightenCappedUnitIdentity` states that factor 1.0 is the identity |
| ColorUtils.LightenCappedUnitIdentity | asciigraphix-tui/src/utils.rs:15-23 | with the cap at 255, factor 1.0 leaves every color unchanged |
| ColorUtils.ChannelCappedMonotone | asciigraphix-tui/src/utils.rs:18-23 | the corrected channel is still monotone in the factor and the input |
| ColorUtils.ChannelCappedDims | asciigraphix-tui/src/utils.rs:18-23 | the corrected channel still never brightens for a factor in `[0, 1]` |
| GraphixWidget.FromU32Packed | asciigraphix-tui/src/graphix.rs:39 | unpacking a packed color gives back its channels |
| GraphixWidget.FromU32 | asciigraphix-tui/src/graphix.rs:39 | `Color::from_u32`; `FromU32Packed` states that it inverts the packing |
| GraphixWidget.ShadeColor | asciigraphix-tui/src/graphix.rs:33-39 | occupied cells are drawn in `(254, 0, 0)` and empty ones in `(10, 10, 10)`; the depth is ignored |
| GraphixWidget.Painted | asciigraphix-tui/src/graphix.rs:37-39 | the cell gets the glyph `∷` and the foreground color; its background stays |
| GraphixWidget.AreaIndex | asciigraphix-tui/src/graphix.rs:33-35 | every cell of the area has an index below `width * height` |
| GraphixWidget.InArea | asciigraphix-tui/src/graphix.rs:33-39 | the cells of the area; `Paint` and `Render` state that exactly these are written |
| GraphixWidget.WidgetView | asciigraphix-tui/src/graphix.rs:25-31 | the display built for the area: `width` by `height`, the widget's camera and focal length 100; `Render` states that the frame is rendered through it |
| GraphixWidget.Paint | asciigraphix-tui/src/graphix.rs:33-40 | each cell of the area is painted with the color of its own entry, and cells outside the area are untouched |
| GraphixWidget.Render | asciigraphix-tui/src/graphix.rs:21-41 | every cell of the area shows the glyph in the color of its own entry of the rendered frame, and nothing else changes |
| TuiApp.Nudge | asciigraphix-tui/src/lib.rs:154-189 | exactly one rate moves by `delta`; the other five are unchanged |
| TuiApp.NudgeInverse | asciigraphix-tui/src/lib.rs:154-189 | moving a rate by `delta` and then by `-delta` restores all six |
| TuiApp.RateKey | asciigraphix-tui/src/lib.rs:154-189 | the rate keys select one of the six rates |
| TuiApp.At | asciigraphix-tui/src/lib.rs:24 | component `k` of the six-rate tuple `rotations4d`; `Nudge` and `NudgeInverse` state which component moves |
| TuiApp.Grow | asciigraphix-tui/src/lib.rs:235-240 | a growth step always gives a prefix of `TeSSHeract`: one letter longer than before while shorter than the whole word, and the whole word after that |
| TuiApp.InitialInvariant | asciigraphix-tui/src/lib.rs:41-72 | the default state has confusion 0 and header `H` |
| TuiApp.ConfusionOk | asciigraphix-tui/src/lib.rs:114-126 | confusion is a multiple of 20 in `[0, 100]`; `EventKeepsInvariant` and `UpdateKeepsInvariant` state that it is kept |
| TuiApp.HeaderOk | asciigraphix-tui/src/lib.rs:235-240 | the header is `H` or a prefix of `TeSSHeract` with at least two letters; `GrowKeepsHeader` states that growth keeps it |
| TuiApp.Invariant | asciigraphix-tui/src/lib.rs:41-261 | both of the above; `InitialInvariant`, `EventKeepsInvariant` and `UpdateKeepsInvariant` state that it holds from the start and is kept |
| TuiApp.Initial | asciigraphix-tui/src/lib.rs:41-72 | the default state; `InitialInvariant` and `DefaultCameraUsable` state its invariant and that its camera can build a display |
| TuiApp.DefaultCameraUsable | asciigraphix-tui/src/lib.rs:41-72 | the default look direction meets the display constructor's precondition |
| TuiApp.EventKeepsInvariant | asciigraphix-tui/src/lib.rs:89-196 | no event takes confusion off the multiples of 20 in `[0, 100]` or the header off its prefixes |
| TuiApp.OnEvent | asciigraphix-tui/src/lib.rs:89-196 | `handle_event` as a function of the state; `EventKeepsInvariant`, `QuitExits`, `ModeIndependentKeys`, `ConfusionKeys` and `ExploreKeepsConfusion` state its behaviour |
| TuiApp.NormalKey | asciigraphix-tui/src/lib.rs:114-126 | the keys outside explore mode; `ConfusionKeys` states their effect |
| TuiApp.ExploreKey | asciigraphix-tui/src/lib.rs:127-191 | the keys of explore mode; `ExploreKeyFrame`, `RateKeyNudges` and `ExploreMovesInverse` state their effect |
| TuiApp.GrowKeepsHeader | asciigraphix-tui/src/lib.rs:235-240 | a growth step yields a prefix of `TeSSHeract` of at least two letters |
| TuiApp.UpdateKeepsInvariant | asciigraphix-tui/src/lib.rs:205-261 | no update breaks the confusion and header invariant |
| TuiApp.OnUpdate | asciigraphix-tui/src/lib.rs:205-271 | `update` as a function of the state; `UpdateKeepsInvariant`, `ResetApplied`, `PausedFreezes` and `RatesFollowConfusion` state its behaviour |
| TuiApp.ApplyReset | asciigraphix-tui/src/lib.rs:206-225 | the reset branch; `ResetApplied` states its effect |
| TuiApp.Advance | asciigraphix-tui/src/lib.rs:231-233 | the clock step; `PausedFreezes` states that it is skipped while paused |
| TuiApp.GrowthDue | asciigraphix-tui/src/lib.rs:235 | after 0.4 s, when the millisecond count modulo 100 is at most 25; `GrowFromReset` states what repeated growth gives |
| TuiApp.Animate | asciigraphix-tui/src/lib.rs:235-261 | header growth and the rate table; `GrowKeepsHeader` and `RatesFollowConfusion` state their effect |
| TuiApp.RotationTable | asciigraphix-tui/src/lib.rs:247-261 | the rate row of each confusion level; `RatesFollowConfusion` states each row |
| TuiApp.QuitExits | asciigraphix-tui/src/lib.rs:94-99 | `q` sets `exit` in either mode and changes nothing else |
| TuiApp.ModeIndependentKeys | asciigraphix-tui/src/lib.rs:101-113 | `r` sets `reset`; space, `?` and `Q` toggle `paused`, `help` and `explore`; in either mode |
| TuiApp.ConfusionKeys | asciigraphix-tui/src/lib.rs:114-126 | outside explore mode `w` raises confusion by 20 up to 100 and `s` lowers it by 20 down to 0; `w` then `s` restores the state iff confusion was below 100 |
| TuiApp.ExploreKeepsConfusion | asciigraphix-tui/src/lib.rs:127-191 | in explore mode no event changes confusion |
| TuiApp.ExploreKeyFrame | asciigraphix-tui/src/lib.rs:127-191 | the explore-mode keys change neither confusion nor the header |
| TuiApp.RateKeyEvent | asciigraphix-tui/src/lib.rs:154-189 | in explore mode a rate key changes only its rate |
| TuiApp.RateKeyNudges | asciigraphix-tui/src/lib.rs:154-189 | each lower-case key raises one rate by 0.01, its upper-case partner lowers the same rate by 0.01, and the pair restores the state |
| TuiApp.ExploreMovesInverse | asciigraphix-tui/src/lib.rs:128-141 | in explore mode `w` then `s`, and `d` then `a`, restore the state |
| TuiApp.ResetApplied | asciigraphix-tui/src/lib.rs:206-229 | a pending reset is applied even when paused: flag cleared, confusion 0, header `H` (or `Te` if a growth step follows), default camera |
| TuiApp.PausedFreezes | asciigraphix-tui/src/lib.rs:227-229 | paused with no pending reset, an update changes nothing |
| TuiApp.RatesFollowConfusion | asciigraphix-tui/src/lib.rs:247-261 | outside explore mode each confusion level 0, 20, ..., 100 selects its row of the rate table |
| TuiApp.GrowFromReset | asciigraphix-tui/src/lib.rs:235-240 | from `H`, `n` growth steps give the first `min(n + 1, 10)` letters of `TeSSHeract` |
| TuiApp.GrowN | asciigraphix-tui/src/lib.rs:235-240 | `n` growth steps in a row; `GrowFromReset` states what they give from `H` |
| TuiApp.App.constructor | asciigraphix-tui/src/lib.rs:41-72 | the default field values, and the invariant holds |
| TuiApp.App.Snapshot | asciigraphix-tui/src/lib.rs:18-39 | the App's modelled fields as a state value; `HandleEvent` and `Update` state their effect on it |
| TuiApp.App.HandleEvent | asciigraphix-tui/src/lib.rs:89-196 | the new state is the specification `OnEvent` applied to the old one |
| TuiApp.App.ExploreStep | asciigraphix-tui/src/lib.rs:127-191 | the explore-mode arm moves the camera, turns it or nudges one rate |
| TuiApp.App.Update | asciigraphix-tui/src/lib.rs:205-261 | the new state is the specification `OnUpdate` applied to the old one |

## Left out

- Terminal I/O is not modelled:
  - the clear-screen, cursor and color escape sequences of both displays;
  - crossterm event polling (`handle_events`) and the `run` loop;
  - `draw` and the ratatui layout, gauge, help popup and paragraph widgets;
  - both `main.rs` files.
  - `render` and `render_print` output is modelled as the text or entries they produce.
- `asciigraphix-tui/src/header.rs` is not part of this model. It wraps a foreign font renderer.
- The example programs are not part of this model. They are demo loops with sleeps.
- `asciigraphix-core/src/shapes.rs` is not part of this model. The following are therefore left out:
  - the cube and 4D shapes;
  - `project_to_3d` and the 4D rotation;
  - the App's `shape`, `shape4` and `rotations3d` fields and their rotation in `update`.
- The core display reuses the shape type of `src/shapes.rs`.
- The two `Point` types of `src/lib.rs` and `src/shapes.rs` are one type here. The core's dot, cross and unit operations are taken as the usual vector operations.
- Floating point is not modelled. Coordinates, depths and factors are exact reals, which leaves out:
  - rounding of every operation;
  - the `f32` narrowing of depths in `render`;
  - NaN;
  - infinities.
- Trigonometry and square roots are not computed. Sines and cosines are given as `Trig` pairs, and the three magnitudes of `orthogonal_basis` as a `Roots` value.
- The isometry lemmas assume `sin² + cos² = 1`.
- The ring angle keeps the constant 3.14, as written.
- CoreDisplay.Display.constructor requires a look direction that is not vertical. For a vertical direction (such as `Point(0, 0, 1)`) the side vector is zero and the basis is NaN; that path is not modelled.
- CoreDisplay.Display: `cam_pos` is public in the source but constant here. No code in these files writes it after construction.
- CoreDisplay.Display.Project, ProjectEdges, Render and RenderPrint, and GraphixWidget.Render, require every edge to refer to existing vertices, and ProjectSegment requires its edge to. An edge out of range makes the source panic on indexing.
- LegacyDisplay.Trunc: does not model the saturation of `f64 as isize` beyond the `isize` range.
- Face rendering is commented out in the source and not modelled.
- `Point::set` is the element assignment inside `Shapes.Shape.Rotate`. `Point::magnitude` and `Point / f64` are not used by the modelled code.
- `generate_ring` is the constructor `Shapes.Shape.Ring`, and `generate_line` the constructor `Shapes.Shape.Line`.
- GraphixWidget.Render requires the area to lie inside the buffer, and writes cells by row and column. The terminal buffer's `u16` coordinate arithmetic and its handling of wide glyphs are not modelled.
- The TUI's `Graphix::new` is modelled with its own three fields. The call site that passes five arguments does not match it.
  - The same mismatch exists between the 5-argument `Display::new` used in `src/main.rs` and the 2-argument one in `src/lib.rs`.
- The following App details are not modelled:
  - the key event kind and modifiers;
  - the header cursor blink (its `tanh`/`sin` formula and its reset to 1.0);
  - the colors' use in `draw`.
- TuiApp.OnUpdate: reads the clock once, where the source reads `Instant::now()` twice.
  - Time is a natural number of nanoseconds.
  - `elapsed.as_secs_f64() > 0.4` is compared exactly.
- TuiApp.State: `confusion` is an unbounded natural. The source's `u16` cannot overflow, because every change is guarded to stay within `[0, 100]`.
- TuiApp.App.HandleEvent: the confusion and header invariant is proved of the specification functions (`EventKeepsInvariant`, `UpdateKeepsInvariant`), not restated in the method contracts.
- ColorUtils.Color has only the default and true-color variants of the terminal library's color type.

## Findings

| source | as written | input that shows it | evidently intended | confidence | as-written member | corrected member |
|---|---|---|---|---|---|---|
| src/shapes.rs:72-82 | `combine` appends the second shape's edges without adding the first shape's vertex count to their indices | `generate_line(a, b).combine(&generate_line(c, d))` has edges `[Edge(0,1), Edge(0,1)]`; `c` and `d` are never joined | offset every edge of the second shape by `self.vertices.len()` | medium, not executed | Shapes.CombineTwoLinesAsWritten | Shapes.Shape.CombineRenumbered |
| asciigraphix-tui/src/utils.rs:15-23 | each scaled channel is capped at 254.999 before the cast, so 255 can never come out | `ColorWrapper::rgb(255, 0, 0).lighten(1.0)` gives `(254, 0, 0)`, while the doc comment says factor 1.0 changes nothing | cap at 255.0, so that factor 1.0 is the identity | low, not executed | ColorUtils.LightenUnitFactorChangesFullChannel | ColorUtils.LightenCappedUnitIdentity |
