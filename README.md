# Engine3D point-cloud cube, modelled in Dafny

This project models the discrete core of `Engine3D` in `fog-test.cpp`, a
program that draws a rotating cube as a point cloud on a terminal's character
grid. It covers these parts of the source:

- **Cloud generation** (the constructor's nested loops): six points for each
  `(x, y)` sample pair, on the six faces of `[-size, size]^3`.
- **Rotation** (`rotatePoint`): the two plane mixes, in the source's order.
  The sines and cosines are inputs.
- **Depth and shading** (`getDepth`, `getLineChar`): distance from the camera
  at `z = -10`, and the five intensity bands.
- **Projection** (`project`): the cast toward zero, the integer half-width and
  half-height offsets, the bounds test and the `(-1, -1)` sentinel.
- **A frame** (`render`): clear the grid, project and filter the points, sort
  them farthest first, then paint them in that order so nearer glyphs
  overwrite farther ones.
- **The tick loop** (`run`): poll a key, stop on `'q'`, otherwise advance the
  angles by 0.03 and 0.02 and render.

`real` stands for `float`. The terminal screen is an `array2<char>` indexed
`[row, column]`, matching `mvaddch(p.y, p.x, c)`. The keys that `getch`
returns are a sequence of key codes, consumed one per tick.

Modules: `Space` (points, rotation), `Shading`, `Projection`, `PointCloud`,
`Compositor` (one frame's visible set, sort and painter predicates) and
`Engine` (the class `Engine3D` with its state, and `Launch` for `main`).

Two behaviours of the code that the model keeps:
- Screen coordinates are truncated toward zero (`static_cast<int>`), not
  rounded.
- The sort is `std::sort`, which is not stable, so ties between equal
  depths stay open in Render's postcondition.

## Model

| member | source | states |
|---|---|---|
| `Space.RotatePoint` | fog-test.cpp:41-55 | the x/z mix by `ay` followed by the y/z mix by `ax`; with zero sines and unit cosines it is the identity |
| `Space.PlaneMixKeepsLength` | fog-test.cpp:46-51 | one plane mix by a unit (cos, sin) pair keeps the squared length of that plane's two coordinates |
| `Space.RotationIsRigid` | fog-test.cpp:41-55 | when sin^2 + cos^2 = 1 at both angles, rotation keeps the squared distance from the origin |
| `Shading.GetDepth` | fog-test.cpp:24-29 | depth is non-negative and equals \|z + 10\|, the camera being fixed at z = -10 |
| `Shading.GetLineChar` | fog-test.cpp:31-39 | total and always one of `. + * # =`; each glyph holds exactly on its depth band: `=` for depth <= 6, `#` for (6, 12], `*` for (12, 18], `+` for (18, 24], `.` beyond 24 |
| `Shading.ShadingMonotone` | fog-test.cpp:33-38 | a larger depth never gives a denser glyph |
| `Shading.ShadingSamples` | fog-test.cpp:33-38 | depth 0 gives `=`, 15 gives `*`, 30 and every depth above 24 give `.` |
| `Projection.Trunc` | fog-test.cpp:60-61 | the cast truncates toward zero: floor for non-negative values, ceiling for negative ones; never of the opposite sign |
| `Projection.Project` | fog-test.cpp:57-68 | the result is the sentinel or an on-screen cell with glyph `GetLineChar(GetDepth(p))` and depth `GetDepth(p)`; it is on screen iff the truncated coordinates pass the bounds test; x = -1 iff sentinel |
| `Projection.TruncInRange` | fog-test.cpp:60-64 | a truncated coordinate is in [0, n) iff the value before the cast is in (-1, n) and n > 0 |
| `Projection.ProjectOnScreenIff` | fog-test.cpp:59-67 | the bounds test stated on the real coordinates `x*scale*2 + width/2` and `y*scale + height/2` |
| `Projection.ProjectTruncatesTowardZero` | fog-test.cpp:60-65 | a point whose column is -0.5 before the cast is kept in column 0, not dropped |
| `PointCloud.FacePoints` | fog-test.cpp:82-87 | each sample pair yields exactly six points |
| `PointCloud.Row` | fog-test.cpp:81-88 | m inner iterations push 6m points |
| `PointCloud.Grid` | fog-test.cpp:80-89 | k outer iterations of n inner ones push 6nk points |
| `PointCloud.SampleCount` | fog-test.cpp:80-81 | the count of loop values -size + i*step that pass the guard `<= size`, computed exactly |
| `PointCloud.RowAt` | fog-test.cpp:81-88 | the f-th point of inner iteration j is at index 6j + f of its row |
| `PointCloud.GridAt` | fog-test.cpp:80-89 | the f-th of the six points for sample pair (i, j) is at index 6(n*i + j) + f |
| `PointCloud.CoordInRange` | fog-test.cpp:80-81 | every sample coordinate that passes the loop guard lies in [-size, size] |
| `PointCloud.GridOnCube` | fog-test.cpp:80-89 | every point pushed lies on the cube's surface |
| `PointCloud.CubePointsOnSurface` | fog-test.cpp:78-89 | with the loop's sample count n the cloud has 6n^2 points, all on the surface |
| `PointCloud.SourceCloudSize` | fog-test.cpp:78-81 | size 5 and step 0.3 give 34 samples per axis and 6936 points, in exact arithmetic |
| `PointCloud.GeneratePoints` | fog-test.cpp:78-89 | the nested loops push exactly `CubePoints(size, step, n)`, 6n^2 points in emission order |
| `Compositor.Visible` | fog-test.cpp:100-106 | no more kept projections than geometry points; each is on screen, has non-negative depth, and carries the glyph for its depth |
| `Compositor.Projections` | fog-test.cpp:100-102 | one projection per geometry point, the i-th being the projection of the i-th point |
| `Compositor.VisibleCounts` | fog-test.cpp:100-106 | the kept projections are, as a multiset, exactly the non-sentinel projections: one per geometry point that lands on screen |
| `Compositor.VisibleMembers` | fog-test.cpp:100-106 | a projection is kept iff it is not the sentinel and some geometry point projects to it |
| `Compositor.InsertByDepth` | fog-test.cpp:108-109 | inserting into a far-to-near sequence keeps it far-to-near and adds exactly the one point |
| `Compositor.InsertKeepsOrder` | fog-test.cpp:108-109 | placing a point after everything at least as far and before the first strictly nearer point keeps the order far-to-near |
| `Compositor.SortByDepth` | fog-test.cpp:108-109 | the sort result is a permutation of its input with non-increasing depths |
| `Compositor.CellShowsSameMembers` | fog-test.cpp:108-113 | what a cell shows depends only on which points are drawn, so an unstable sort does not change it |
| `Compositor.CellShowsOther` | fog-test.cpp:111-113 | drawing a point on another cell leaves a cell's outcome unchanged |
| `Compositor.CellShowsLast` | fog-test.cpp:111-113 | a point drawn after everything at least as far wins its cell |
| `Compositor.CellShowsAfterDraw` | fog-test.cpp:111-113 | one painting step keeps "each cell shows a nearest point or is blank" |
| `Compositor.NearestWins` | fog-test.cpp:111-113 | if one point on a cell is strictly nearest, the cell shows its glyph |
| `Compositor.NearerOverwritesFarther` | fog-test.cpp:111-113 | two points on one cell at depths 5 and 20: the cell shows the depth-5 glyph |
| `Engine.TicksBeforeQuit` | fog-test.cpp:118-119 | the number of ticks is the index of the first `'q'`, or all keys if none; no key before it is `'q'` |
| `Engine.Engine3D.constructor` | fog-test.cpp:71-90 | a blank grid of the terminal's size, angles at 0, and the cube's cloud of 6936 points |
| `Engine.Engine3D.ProjectVisible` | fog-test.cpp:100-106 | the first loop of a frame yields exactly the visible projections, in geometry order |
| `Engine.Engine3D.Paint` | fog-test.cpp:111-113 | painting a far-to-near sequence on a cleared grid leaves every cell showing a nearest point on it, or blank |
| `Engine.Engine3D.Render` | fog-test.cpp:96-115 | after a frame every cell hit by a visible point holds the glyph of one of minimal depth there; cells nothing hits are blank; only the grid changes; one frame is counted |
| `Engine.Engine3D.Run` | fog-test.cpp:117-125 | runs exactly as many ticks (and renders) as keys before the first `'q'`; each adds 0.03 and 0.02 to the angles; the grid shows the last frame's angles |
| `Engine.Launch` | fog-test.cpp:128-132 | from start-up, after k ticks the angles are (0.03k, 0.02k) and exactly k frames were drawn |

## Left out

- Terminal I/O is not modelled: `initscr`, `noecho`, `curs_set`, `timeout`, `endwin`, `refresh` and `getch`. `getmaxyx` becomes the constructor's width and height, `clear()` becomes blanking the grid, and `mvaddch` becomes writing one array cell.
- Frame pacing (`sleep_for`, 50 ms) is left out because it only times the loop.
- `sin` and `cos` are inputs (the `Numerics` value), because Dafny's `real` has no trigonometry. Periodicity of the rotation is therefore not stated.
- The perspective factor `100 / (z + 100)` is an input (`Numerics.perspective`). Real division has no IEEE meaning at z = -100, where the source produces an infinity.
- `float` rounding is not modelled. This affects the glyph thresholds, the accumulated loop variables (`x += 0.3f`) and the exact float point count. The model computes in exact reals, so boundary cases may differ from IEEE behaviour.
- `Projection.Trunc`: the C++ cast of a value outside the `int` range is undefined behaviour. The model uses unbounded integers, and such values then fail the bounds test.
- `Compositor.SortByDepth`: `std::sort`'s algorithm is not modelled, only its contract. The model's sort builds a new sequence instead of reordering the vector in place.
- `Engine.Engine3D.Run`: the source polls keys forever. The model consumes a finite sequence of key codes and stops when it runs out, or at `'q'`.
- Resource acquisition and release in the constructor and destructor (`initscr`/`endwin`) are not modelled.
