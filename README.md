# Noise-driven cube grids

A Dafny model of the noise-driven cube grid of four three.js demos. Each demo has
two phases:

- **Build.** Nested loops walk a `cols × rows` lattice and create one box mesh per
  cell, or per kept cell in demo 4. Each box gets a position from its indices and
  random scales from `Math.random()`: the horizontal ones in demos 2 to 4, the
  height and depth in demo 5. Demos 2 and 3 take the height from the Perlin noise
  field, and demo 5 its width. Demo 4's build height is the constant 2; the noise
  enters only in its tick.
- **Tick.** Once per frame, each child of the group is rewritten in place from the
  noise field and the elapsed time.

The modules:

- `Grid` (`grid.dfy`): the shared vocabulary.
  - The noise field is an arbitrary function `(real, real) -> real`, documented to
    lie in [-1, 1].
  - The demos' own calls of `Math.random()` are a stream `nat -> real` of draws in
    [0, 1).
  - A box's transform, and a `Mesh` class whose fields the demos update in place.
  - The x-outer / y-inner lattice of the nested loops, with its index laws.
- `SingleColourGrid` (`single_colour_grid.dfy`): demo 2, a 5 × 5 grid.
  - It is built with height `h + 1` and animated with height `(h + 1) * 1.5`.
- `GradientGrid` (`gradient_grid.dfy`): demo 3, the same grid with the single law
  `(h + 1) * 2`.
- `AdvancedGrid` (`advanced_grid.dfy`): demo 4, a 45 × 40 lattice.
  - The palette is either the fixed five colours or one loaded colour scheme.
  - A column-density mask lets through more cells the further right the column is.
  - Each kept box draws its own texture colour, its middle colour stop, and two
    horizontal scales with a one-in-ten wide branch.
  - The build loop is a fold (`Run`) over the cells in loop order. It records
    the draws taken and whether the loop threw a `TypeError`.
- `FancyLightsGrid` (`fancy_lights_grid.dfy`): demo 5, a 24 × 8 wall in the z–y plane.
  - Its widths are raw noise values.
  - Its tick adds a noise-driven drift to `position.x` at every frame.

Every build and tick loop is a `method` over `Mesh` objects, proved against a
function of its inputs:

- Demos 2, 3 and 5: `Build`'s meshes show `Layout`.
- Demo 4: `Build`'s meshes show `Group`.
- Every `Tick` leaves each child at `Animate` (or `Advance`) of its old state.

The properties of builds and frames are lemmas about those functions.

The demos' own `Math.random()` calls are numbered in the order the code makes them,
from the first call after the one that seeds the noise. The draws three.js takes
internally, such as those behind the identifier of each new mesh, material and
texture, are not part of the stream:

- Demos 2 and 3: mesh `k` takes draws `2k` (for `scale.x`) and `2k + 1` (for `scale.z`).
- Demo 5: draws `2k` and `2k + 1` go to `scale.y` and `scale.z`.
- Demo 4: each cell takes one draw for the mask. A kept cell then takes six more, in
  this order: colour, middle stop, `scale.x` branch, `scale.x` value, `scale.z`
  branch, `scale.z` value.

Some things the code does are not what its comments, or a first reading, suggest. The
model follows the code in each case:

- **Widths.** Demo 5 assigns the raw noise value to `scale.x`
  (5-gradient-cube-grid-fancy-lights/script.js:70-73). Its comment mentions
  mapping to a range of 0.8 to 1.2, but the code does not do so, and a width can
  be 0 or negative (`FancyLightsGrid.WidthNotPositive`).
- **Build law and frame law.** The code does not reapply the build's height law
  in each frame.
  - Demo 2 builds with `h + 1` (2-single-colour-cube-grid-with-perlin-noise/script.js:72)
    and animates with `(h + 1) * 1.5` (:178). The first line is commented "Convert
    noise to a valid scale range (e.g., 1 to 4)" and the second "Map noise value
    to scale range".
  - Demos 2 and 3 build from lattice indices but animate from world positions.

  See `FirstFrameOfCell` and `FirstFrameMovesCorner`.
- **Keeping the bottom level.** The ticks of demos 2 to 4 set `position.y = (scaleY - 1) / 2`,
  commented "Keep bottom at the same level" (2-single-colour-cube-grid-with-perlin-noise/script.js:181,
  4-gradient-cube-grid-advanced/script.js:238). That formula keeps the bottom face
  fixed only for a box 1 high before scaling (`Grid.AnchoredIsUnitFloor`,
  `Grid.AnchoredFloorOnlyForUnit`). Demo 4's boxes are 7 high
  (4-gradient-cube-grid-advanced/script.js:83).
  - The build leaves the bottom at -7 (`AdvancedGrid.BuiltBottom`).
  - After each frame the bottom is at `-1/2 - 3 sy`, so it moves with every change
    of height (`AdvancedGrid.FrameBottom`, `AdvancedGrid.FrameBottomMoves`).
- **Palette fallback.** Demo 4 uses the default palette only while `colourSchemes`
  is unset (4-gradient-cube-grid-advanced/script.js:98-100).
  - An empty loaded list makes `_.sample` yield `undefined`.
  - The first kept cell then throws when it reads `colourOptions.length`.
  - `group.add` never runs, so the group stays empty (`AdvancedGrid.GroupWithoutPalette`).

## Model

| member | source | states |
|---|---|---|
| Grid.At | 4-gradient-cube-grid-advanced/script.js:107-108 | JavaScript indexing: the element when the index is inside the array, `undefined` otherwise |
| Grid.RandomIndex | 4-gradient-cube-grid-advanced/script.js:107-108 | the index `Math.floor(Math.random() * colourOptions.length)`, also the index by which `_.sample` picks a scheme |
| Grid.RandomIndexInBounds | 4-gradient-cube-grid-advanced/script.js:107-108 | `Math.floor(r * n)` is a valid index for a draw `r` in [0, 1) and `n > 0` |
| Grid.Anchored | 2-single-colour-cube-grid-with-perlin-noise/script.js:75-77 | the offset `position.y = (scale.y - 1) / 2` the demos give a box for its height |
| Grid.AnchoredIsUnitFloor | 2-single-colour-cube-grid-with-perlin-noise/script.js:42-77 | for a box 1 high before scaling, the offset formula holds exactly when the bottom face is at -1/2 |
| Grid.AnchoredFloorOnlyForUnit | 2-single-colour-cube-grid-with-perlin-noise/script.js:42-77 | if two boxes of one geometry `h` high, placed by the offset formula at different heights, have level bottom faces, then `h` is 1 |
| Grid.Mesh.constructor | 2-single-colour-cube-grid-with-perlin-noise/script.js:57 | a new mesh has its material, position 0 and scale 1 |
| Grid.Column | 2-single-colour-cube-grid-with-perlin-noise/script.js:56 | the cells `(x, 0) .. (x, rows - 1)` the inner loop visits, in order |
| Grid.Lattice | 2-single-colour-cube-grid-with-perlin-noise/script.js:55-56 | the cells the nested loops visit, column after column: x outer, y inner |
| Grid.LatticeLength | 2-single-colour-cube-grid-with-perlin-noise/script.js:55-56 | the nested loops visit `cols * rows` cells |
| Grid.LatticeCell | 2-single-colour-cube-grid-with-perlin-noise/script.js:55-56 | every visited cell is some `(x, y)` with `x < cols` and `y < rows` |
| Grid.LatticeAt | 2-single-colour-cube-grid-with-perlin-noise/script.js:55-56 | cell `(x, y)` is visited at position `x * rows + y`: x outer, y inner |
| SingleColourGrid.Place | 2-single-colour-cube-grid-with-perlin-noise/script.js:52-60 | `i + spacing * i` with spacing 0.5 is `1.5 i` |
| SingleColourGrid.BuildHeight | 2-single-colour-cube-grid-with-perlin-noise/script.js:71-72 | the build height is the noise value plus one, in [0, 2] for noise in [-1, 1] |
| SingleColourGrid.TickHeight | 2-single-colour-cube-grid-with-perlin-noise/script.js:178 | the frame height is 1.5 times the build height of the same noise value, in [0, 3] |
| SingleColourGrid.Width | 2-single-colour-cube-grid-with-perlin-noise/script.js:63-64 | `Math.random() + 0.5` lies in [0.5, 1.5) |
| SingleColourGrid.Cell | 2-single-colour-cube-grid-with-perlin-noise/script.js:57-77 | the built box of cell `(x, y)` stands at `(1.5 x, 1.5 y)`; its height comes from noise at `(0.4 x, 0.4 y)` and lies in [0, 2]; it is anchored; its widths lie in [0.5, 1.5) |
| SingleColourGrid.Layout | 2-single-colour-cube-grid-with-perlin-noise/script.js:55-82 | the meshes the build loop pushes, in push order: the cells of the 5 × 5 lattice, x outer |
| SingleColourGrid.LayoutAt | 2-single-colour-cube-grid-with-perlin-noise/script.js:55-82 | the build yields 25 meshes; mesh `5 x + y` is cell `(x, y)` |
| SingleColourGrid.LayoutAnchored | 2-single-colour-cube-grid-with-perlin-noise/script.js:75-77 | every built mesh is floor-anchored and at most 2 high |
| SingleColourGrid.NewCell | 2-single-colour-cube-grid-with-perlin-noise/script.js:57-77 | the loop body creates a fresh mesh in the state of its cell |
| SingleColourGrid.BuildColumn | 2-single-colour-cube-grid-with-perlin-noise/script.js:56-81 | the inner loop yields one fresh, distinct mesh per cell of the column, in order |
| SingleColourGrid.Build | 2-single-colour-cube-grid-with-perlin-noise/script.js:55-84 | the pushed meshes show the layout one for one and in order; they are newly allocated, distinct and share the one material |
| SingleColourGrid.Animate | 2-single-colour-cube-grid-with-perlin-noise/script.js:170-182 | a frame samples noise at `(0.4 px, 0.4 pz + 0.5 t)`; it sets height `(h + 1) * 1.5` in [0, 3] and re-anchors; x, z and the widths are unchanged |
| SingleColourGrid.AnimateIdempotent | 2-single-colour-cube-grid-with-perlin-noise/script.js:171-181 | two frames at the same time equal one |
| SingleColourGrid.FirstFrameOfCell | 2-single-colour-cube-grid-with-perlin-noise/script.js:170-178 | the first frame samples a built cell at `(0.6 x, 0.6 y)`, its world position times 0.4 |
| SingleColourGrid.FirstFrameKeepsCell | 2-single-colour-cube-grid-with-perlin-noise/script.js:170-182 | the first frame keeps a built cell exactly when the frame law at the world position equals the build law at the lattice indices |
| SingleColourGrid.FirstFrameMovesCorner | 2-single-colour-cube-grid-with-perlin-noise/script.js:174-178 | even cell `(0, 0)` keeps its built state through the first frame only where the noise is -1 |
| SingleColourGrid.Tick | 2-single-colour-cube-grid-with-perlin-noise/script.js:169-182 | every child is updated in place to `Animate` of its old state |
| GradientGrid.Place | 3-gradient-cube-grid/script.js:88-96 | `i + spacing * i` with spacing 0.5 is `1.5 i` |
| GradientGrid.Height | 3-gradient-cube-grid/script.js:107-108 | `(h + 1) * 2` lies in [0, 4] for noise in [-1, 1] and gives the noise value back |
| GradientGrid.Width | 3-gradient-cube-grid/script.js:99-100 | `Math.random() + 0.5` lies in [0.5, 1.5) |
| GradientGrid.Cell | 3-gradient-cube-grid/script.js:93-113 | the built box of cell `(x, y)` stands at `(1.5 x, 1.5 y)`; its height comes from noise at `(0.4 x, 0.4 y)` and lies in [0, 4]; it is anchored; its widths lie in [0.5, 1.5) |
| GradientGrid.Layout | 3-gradient-cube-grid/script.js:91-118 | the meshes the build loop pushes, in push order: the cells of the 5 × 5 lattice, x outer |
| GradientGrid.LayoutAt | 3-gradient-cube-grid/script.js:86-118 | the build yields 25 meshes; mesh `5 x + y` is cell `(x, y)` |
| GradientGrid.LayoutAnchored | 3-gradient-cube-grid/script.js:111-113 | every built mesh is floor-anchored and at most 4 high |
| GradientGrid.NewCell | 3-gradient-cube-grid/script.js:93-113 | the loop body creates a fresh mesh in the state of its cell |
| GradientGrid.BuildColumn | 3-gradient-cube-grid/script.js:92-117 | the inner loop yields one fresh, distinct mesh per cell of the column, in order |
| GradientGrid.Build | 3-gradient-cube-grid/script.js:91-120 | the pushed meshes show the layout one for one and in order; they are newly allocated, distinct and share the one material |
| GradientGrid.Animate | 3-gradient-cube-grid/script.js:201-213 | a frame sets height `(h + 1) * 2` in [0, 4] from noise at `(0.4 px, 0.4 pz + 0.5 t)` and re-anchors; nothing else changes |
| GradientGrid.AnimateIdempotent | 3-gradient-cube-grid/script.js:202-212 | two frames at the same time equal one |
| GradientGrid.FirstFrameOfCell | 3-gradient-cube-grid/script.js:204-210 | the first frame samples a built cell at `(0.6 x, 0.6 y)` |
| GradientGrid.FirstFrameKeepsCell | 3-gradient-cube-grid/script.js:201-213 | the first frame keeps a built cell exactly when the noise agrees at `(0.6 x, 0.6 y)` and `(0.4 x, 0.4 y)` |
| GradientGrid.FirstFrameKeepsCorner | 3-gradient-cube-grid/script.js:201-213 | cell `(0, 0)` is unchanged by the first frame |
| GradientGrid.Tick | 3-gradient-cube-grid/script.js:200-213 | every child is updated in place to `Animate` of its old state |
| AdvancedGrid.DefaultPalette | 4-gradient-cube-grid-advanced/script.js:97 | the five colours of `colourOption` |
| AdvancedGrid.DefaultMainColour | 4-gradient-cube-grid-advanced/script.js:44 | `createGradientTexture`'s default main colour `#ff006e` |
| AdvancedGrid.ChoosePalette | 4-gradient-cube-grid-advanced/script.js:97-100 | with no loaded schemes, the fixed five colours; otherwise one of the loaded schemes, or `undefined` when none was loaded |
| AdvancedGrid.ChoosePaletteDefined | 4-gradient-cube-grid-advanced/script.js:98-99 | a non-empty loaded list always yields a palette |
| AdvancedGrid.Clamp | 4-gradient-cube-grid-advanced/script.js:103 | `_.clamp` stays within its bounds and keeps a value already inside them; with crossed bounds it gives the lower one, as lodash does |
| AdvancedGrid.Threshold | 4-gradient-cube-grid-advanced/script.js:91-103 | a column's density lies in [0, 1]; for `x < 45` it is `x / 45`, below 1 |
| AdvancedGrid.Kept | 4-gradient-cube-grid-advanced/script.js:103 | in column `x < 45` a cell is kept exactly when 45 times its draw is at most `x`; column 0 keeps only a draw of 0; a draw of 0 is always kept |
| AdvancedGrid.Place | 4-gradient-cube-grid-advanced/script.js:129-130 | `i + spacing * i` with spacing 1 is `2 i` |
| AdvancedGrid.MainColour | 4-gradient-cube-grid-advanced/script.js:107-109 | the texture colour is a palette colour or the texture's default; always the default for an empty palette |
| AdvancedGrid.MainColourInPalette | 4-gradient-cube-grid-advanced/script.js:107-108 | with a draw in [0, 1) the lookup is in bounds and the colour is the palette's entry `floor(r * len)` |
| AdvancedGrid.Stops | 4-gradient-cube-grid-advanced/script.js:109-113 | three stops, starting at 0, ending at 1, with the middle one in [0, 0.5) |
| AdvancedGrid.StopsAscending | 4-gradient-cube-grid-advanced/script.js:109-113 | the stops are non-decreasing |
| AdvancedGrid.HorizontalScale | 4-gradient-cube-grid-advanced/script.js:133-136 | the wide branch gives [0, 10); the ordinary branch gives [0.5, 2.5); so always [0, 10) |
| AdvancedGrid.PlaceCell | 4-gradient-cube-grid-advanced/script.js:107-137 | a kept box stands at `(2 x, 0, 2 y)` with height 2; its colour, stops and scales come from the six draws after the mask |
| AdvancedGrid.PlaceCellFits | 4-gradient-cube-grid-advanced/script.js:107-137 | a kept box satisfies `Fits`: lattice point, unanchored height 2, scales in [0, 10), ascending stops, palette colour |
| AdvancedGrid.Visit | 4-gradient-cube-grid-advanced/script.js:102-141 | one cell: a draw above the density skips it; a kept cell throws without a palette after taking its mask and colour draws, else pushes its box and takes 7 draws |
| AdvancedGrid.Run | 4-gradient-cube-grid-advanced/script.js:101-143 | the nested loop over a run of cells: it only appends, at most one box per cell, and after a `TypeError` nothing changes |
| AdvancedGrid.Cells | 4-gradient-cube-grid-advanced/script.js:101-102 | the 45 × 40 cells of demo 4's nested loops, in loop order |
| AdvancedGrid.Group | 4-gradient-cube-grid-advanced/script.js:144-145 | the children `group.add` gives the group: the pushed boxes, or none when the loop threw |
| AdvancedGrid.RunSnoc | 4-gradient-cube-grid-advanced/script.js:101-143 | one more cell is one more `Visit` |
| AdvancedGrid.RunAppend | 4-gradient-cube-grid-advanced/script.js:101-143 | looping over two runs of cells is looping over their concatenation |
| AdvancedGrid.GroupBound | 4-gradient-cube-grid-advanced/script.js:91-145 | the group holds at most 1800 boxes |
| AdvancedGrid.RunWithoutPalette | 4-gradient-cube-grid-advanced/script.js:98-108 | without a palette nothing is pushed |
| AdvancedGrid.GroupWithoutPalette | 4-gradient-cube-grid-advanced/script.js:98-145 | an empty loaded list of schemes leaves the group empty |
| AdvancedGrid.RunFits | 4-gradient-cube-grid-advanced/script.js:101-141 | every box pushed from lattice cells fits the description of the build |
| AdvancedGrid.GroupFits | 4-gradient-cube-grid-advanced/script.js:101-145 | every box of the group satisfies `Fits` for draws in [0, 1) |
| AdvancedGrid.RunAllKept | 4-gradient-cube-grid-advanced/script.js:103 | with all draws 0 every cell is kept, column 0 included |
| AdvancedGrid.GroupAllKept | 4-gradient-cube-grid-advanced/script.js:91-103 | with all draws 0 the group holds all 1800 boxes |
| AdvancedGrid.RunNoneKept | 4-gradient-cube-grid-advanced/script.js:103 | with all draws above 44/45 no cell is kept and nothing throws |
| AdvancedGrid.GroupNoneKept | 4-gradient-cube-grid-advanced/script.js:91-145 | with all draws above 44/45 the group is empty |
| AdvancedGrid.LatticeAscending | 4-gradient-cube-grid-advanced/script.js:101-102 | the nested loops visit cells in strictly increasing x-outer / y-inner order |
| AdvancedGrid.RunFromCells | 4-gradient-cube-grid-advanced/script.js:101-140 | every pushed box was made for a visited cell |
| AdvancedGrid.RunInLoopOrder | 4-gradient-cube-grid-advanced/script.js:101-140 | the loop keeps the boxes in strictly increasing cell order |
| AdvancedGrid.GroupInLoopOrder | 4-gradient-cube-grid-advanced/script.js:101-145 | the group lists its boxes in loop order, at most one per cell |
| AdvancedGrid.NewCell | 4-gradient-cube-grid-advanced/script.js:107-137 | the loop body creates a fresh mesh with the transform and material `PlaceCell` describes |
| AdvancedGrid.BuildCell | 4-gradient-cube-grid-advanced/script.js:103-141 | one inner iteration agrees with `Visit`: the same failure, draw count (also after a throw) and pushed boxes; the meshes stay distinct, and any new one is newly allocated |
| AdvancedGrid.ColumnFailStays | 4-gradient-cube-grid-advanced/script.js:102-142 | a throw inside a column leaves the whole column thrown |
| AdvancedGrid.BuildColumn | 4-gradient-cube-grid-advanced/script.js:102-142 | the inner loop agrees with `Run` over the column; any mesh it adds is newly allocated |
| AdvancedGrid.Build | 4-gradient-cube-grid-advanced/script.js:96-145 | the group's children show `Group` one for one and are newly allocated and distinct; the group is empty when the loop threw |
| AdvancedGrid.Animate | 4-gradient-cube-grid-advanced/script.js:222-239 | a frame sets height `(h + 1) * 2` in [0, 4] from noise at `(px, pz + 0.5 t)` and applies the offset formula; nothing else changes |
| AdvancedGrid.AnimateIdempotent | 4-gradient-cube-grid-advanced/script.js:228-239 | two frames at the same time equal one |
| AdvancedGrid.FrameSetsOffset | 4-gradient-cube-grid-advanced/script.js:137-238 | built boxes do not satisfy the offset formula; a frame at any time `t` sets it on every one |
| AdvancedGrid.BuiltBottom | 4-gradient-cube-grid-advanced/script.js:83-137 | a built box, 7 high scaled by 2 and centred at 0, has its bottom face at -7 |
| AdvancedGrid.FrameBottom | 4-gradient-cube-grid-advanced/script.js:236-238 | after a frame the bottom face of a 7-high box is at `-1/2 - 3 sy` |
| AdvancedGrid.FrameBottomMoves | 4-gradient-cube-grid-advanced/script.js:236-238 | two frames with different heights leave the bottom face at different levels |
| AdvancedGrid.Tick | 4-gradient-cube-grid-advanced/script.js:227-239 | every child is updated in place to `Animate` of its old state |
| FancyLightsGrid.Place | 5-gradient-cube-grid-fancy-lights/script.js:53-62 | with spacing 0 the world coordinate is the index |
| FancyLightsGrid.Cell | 5-gradient-cube-grid-fancy-lights/script.js:59-73 | the box of cell `(z, y)` stands at `(0, y, z)`; its width is the noise at `(0.1 y, 0.1 z)`, in [-1, 1]; its height and depth lie in [0, 1) |
| FancyLightsGrid.Layout | 5-gradient-cube-grid-fancy-lights/script.js:57-77 | the meshes the build loop pushes, in push order: the cells of the 24 × 8 lattice, z outer |
| FancyLightsGrid.LayoutLength | 5-gradient-cube-grid-fancy-lights/script.js:51-77 | the build yields 192 meshes |
| FancyLightsGrid.LayoutAt | 5-gradient-cube-grid-fancy-lights/script.js:57-77 | mesh `8 z + y` is cell `(z, y)`: z outer, y inner |
| FancyLightsGrid.LayoutBounds | 5-gradient-cube-grid-fancy-lights/script.js:59-75 | every built mesh is the cell of a lattice point `(z, y)` inside 24 × 8, at x 0, height `y` and depth `z`; width in [-1, 1]; height and depth in [0, 1) |
| FancyLightsGrid.WidthNotPositive | 5-gradient-cube-grid-fancy-lights/script.js:70-73 | a noise field within range can make a width negative |
| FancyLightsGrid.NewCell | 5-gradient-cube-grid-fancy-lights/script.js:59-73 | the loop body creates a fresh mesh in the state of its cell |
| FancyLightsGrid.BuildColumn | 5-gradient-cube-grid-fancy-lights/script.js:58-76 | the inner loop yields one fresh, distinct mesh per cell of the column, in order |
| FancyLightsGrid.Build | 5-gradient-cube-grid-fancy-lights/script.js:57-78 | the pushed meshes show the layout one for one and in order; they are newly allocated and distinct |
| FancyLightsGrid.Drift | 5-gradient-cube-grid-fancy-lights/script.js:163 | one frame moves child `i` by `0.05` times the noise at `(i, t)`, at most 0.05 either way |
| FancyLightsGrid.Advance | 5-gradient-cube-grid-fancy-lights/script.js:162-164 | a frame moves x by the drift and keeps every other field |
| FancyLightsGrid.Replay | 5-gradient-cube-grid-fancy-lights/script.js:162-164 | the frames at the times `ts`, one after another, applied to child `i` |
| FancyLightsGrid.DriftSum | 5-gradient-cube-grid-fancy-lights/script.js:163 | the total drift of the frames at the times `ts` |
| FancyLightsGrid.AdvanceTwice | 5-gradient-cube-grid-fancy-lights/script.js:163 | two frames at one time add the drift twice; they equal one frame exactly when the noise there is 0 |
| FancyLightsGrid.ReplayDrift | 5-gradient-cube-grid-fancy-lights/script.js:162-164 | after any frames a child has moved along x by the sum of their drifts and is otherwise unchanged |
| FancyLightsGrid.DriftSumBound | 5-gradient-cube-grid-fancy-lights/script.js:163 | `n` frames drift by at most `0.05 n` |
| FancyLightsGrid.BuiltChildAfterFrames | 5-gradient-cube-grid-fancy-lights/script.js:162-164 | a built child after `n` frames stands at x equal to its total drift, within `0.05 n` of 0 |
| FancyLightsGrid.Tick | 5-gradient-cube-grid-fancy-lights/script.js:162-164 | every child `i` is updated in place to `Advance` of its old state |

## Left out

- The Perlin noise algorithm (`noise.perlin2`, an external library). It is an
  arbitrary function. Its documented range [-1, 1] is a hypothesis of the lemmas
  that need it.
- The distribution of `Math.random()` and of lodash's `_.sample`. Their results are
  supplied draws in [0, 1). `_.sample`'s draw is a separate parameter; its code is
  not part of this model.
- `fetch("500.json")` and the `setTimeout` delay. The loaded schemes appear only as
  "unset" or "a list".
- `requestAnimationFrame`, `THREE.Clock` and rendering. One frame is one `Tick`
  call with the elapsed time.
- The scene, camera, lights, renderer, orbit controls and GUI, and the group's
  own position, rotation and scale. They are library set-up with no grid logic.
- The point-light motion in demo 2's tick (`cos`/`sin` of the elapsed time).
- `createGradientTexture`'s canvas drawing. Only its colour and stop arguments
  are modelled, as the material of a box.
- The per-face material arrays of demos 3 and 4. A mesh has one material value:
  the shared one, or its own gradient's colour and stops.
- Box geometry. The model keeps each box's position and scale, not its vertices.
  The geometry's height enters only as the `h` of `Grid.Bottom`. For demo 4,
  `Anchored` is therefore only the code's offset formula, not a fixed floor: its
  boxes are 7 high, and `AdvancedGrid.FrameBottom` gives where their bottom face
  goes.
- Floating-point rounding. All arithmetic is on reals.
- Demo 4's `meshes` array after a `TypeError`. It keeps the boxes pushed before
  the throw, but nothing uses it afterwards; the model tracks the group, which
  stays empty.
- The seed draw. Each demo's first `Math.random()` seeds the noise library
  (`new window.Noise(Math.random())`, 2-single-colour-cube-grid-with-perlin-noise/script.js:5).
  The noise is abstracted, so that draw is not part of the stream: draw 0 is the
  first call of the build.
- The draws three.js takes internally. `THREE.MathUtils.generateUUID` calls
  `Math.random()` for every new mesh, material and texture; the stream holds only
  the demos' own calls.
