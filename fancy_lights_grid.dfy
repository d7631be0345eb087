/** Demo 5, the cube grid with fancy lights: a wall of 24 x 8 boxes standing in
    the z-y plane, whose widths are read from the noise field at build time,
    and which every frame pushes a little along x by a noise-driven amount. */
module FancyLightsGrid {
  import opened Grid

  const Cols: nat := 24
  const Rows: nat := 8
  const Spacing: real := 0.0
  const NoiseScale: real := 0.1
  const DriftSpeed: real := 1.0
  const DriftStep: real := 0.05

  /** World coordinate of lattice index `i`; with no gap, the index itself. */
  function Place(i: nat): (w: real)
    ensures w == i as real
  {
    i as real + Spacing * i as real
  }

  /** The mesh the build loop makes for lattice cell `(z, y)`: the
      `z * Rows + y`-th mesh, taking draws `2k` (for `scale.y`) and `2k + 1`
      (for `scale.z`). Its width is the raw noise value and `position.x` keeps the
      default 0. */
  function Cell(noise: Noise, rand: Draws, z: nat, y: nat): (c: Transform)
    ensures c.px == 0.0 && c.py == y as real && c.pz == z as real
    ensures c.sx == noise(y as real * NoiseScale, z as real * NoiseScale)
    ensures NoiseInRange(noise) ==> -1.0 <= c.sx <= 1.0
    ensures DrawsInRange(rand) ==> 0.0 <= c.sy < 1.0 && 0.0 <= c.sz < 1.0
  {
    var k := z * Rows + y;
    Transform(0.0, Place(y), Place(z), noise(y as real * NoiseScale, z as real * NoiseScale), rand(2 * k), rand(2 * k + 1))
  }

  function CellOf(noise: Noise, rand: Draws): (nat, nat) -> Transform {
    (z: nat, y: nat) => Cell(noise, rand, z, y)
  }

  /** The wall the build loop produces, in push order. */
  function Layout(noise: Noise, rand: Draws): seq<Transform> {
    Lattice(Cols, Rows, CellOf(noise, rand))
  }

  /** The built wall holds 24 x 8 = 192 meshes. */
  lemma LayoutLength(noise: Noise, rand: Draws)
    ensures |Layout(noise, rand)| == 192
  {
    LatticeLength(Cols, Rows, CellOf(noise, rand));
  }

  /** The mesh at index `z * 8 + y` of the built wall is cell `(z, y)`, at height
      `y` and depth `z`. */
  lemma LayoutAt(noise: Noise, rand: Draws, z: nat, y: nat)
    requires z < Cols && y < Rows
    ensures z * Rows + y < |Layout(noise, rand)|
    ensures Layout(noise, rand)[z * Rows + y] == Cell(noise, rand, z, y)
  {
    LatticeAt(Cols, Rows, CellOf(noise, rand), z, y);
  }

  /** Every mesh of the built wall is the cell of a lattice point `(z, y)` inside the
      24 x 8 rectangle: it stands in the plane `x = 0` at height `y` and depth `z`,
      with a width in [-1, 1] and a height and a depth in [0, 1). */
  lemma LayoutBounds(noise: Noise, rand: Draws, i: nat) returns (z: nat, y: nat)
    requires NoiseInRange(noise) && DrawsInRange(rand)
    requires i < |Layout(noise, rand)|
    ensures z < Cols && y < Rows && Layout(noise, rand)[i] == Cell(noise, rand, z, y)
    ensures Layout(noise, rand)[i].py == y as real && Layout(noise, rand)[i].pz == z as real
    ensures Layout(noise, rand)[i].px == 0.0
    ensures 0.0 <= Layout(noise, rand)[i].py < Rows as real && 0.0 <= Layout(noise, rand)[i].pz < Cols as real
    ensures -1.0 <= Layout(noise, rand)[i].sx <= 1.0
    ensures 0.0 <= Layout(noise, rand)[i].sy < 1.0 && 0.0 <= Layout(noise, rand)[i].sz < 1.0
  {
    z, y := LatticeCell(Cols, Rows, CellOf(noise, rand), i);
    assert Layout(noise, rand)[i] == Cell(noise, rand, z, y);
  }

  /** The width is the noise value itself, not mapped into a positive range: a
      noise field within its documented range can make a box's width 0 or negative
      (a flat or mirrored box). */
  lemma WidthNotPositive(rand: Draws)
    ensures NoiseInRange((a: real, b: real) => -0.5)
    ensures Cell((a: real, b: real) => -0.5, rand, 0, 0).sx < 0.0
  {
  }

  /** The body of the build loop: one new mesh for cell `(z, y)`, where `k` is
      the number of draws taken so far. */
  method NewCell(noise: Noise, rand: Draws, z: nat, y: nat, k: nat) returns (newMesh: Mesh)
    requires k == 2 * (z * Rows + y)
    ensures fresh(newMesh) && newMesh.material == SharedMaterial
    ensures newMesh.State() == Cell(noise, rand, z, y) == CellOf(noise, rand)(z, y)
  {
    newMesh := new Mesh(SharedMaterial);
    newMesh.pz := z as real + Spacing * z as real;
    newMesh.py := y as real + Spacing * y as real;
    newMesh.sy := rand(k);
    newMesh.sz := rand(k + 1);
    var noiseValue := noise(y as real * NoiseScale, z as real * NoiseScale);
    var scaleX := noiseValue;
    newMesh.sx := scaleX;
  }

  /** The build loop, pushing each new mesh onto `meshes`. */
  method Build(noise: Noise, rand: Draws) returns (meshes: seq<Mesh>)
    ensures Shows(meshes, Layout(noise, rand))
    ensures Distinct(meshes)
    ensures forall i :: 0 <= i < |meshes| ==> fresh(meshes[i]) && meshes[i].material == SharedMaterial
  {
    ghost var cell := CellOf(noise, rand);
    meshes := [];
    var k := 0;
    for z := 0 to Cols
      invariant k == 2 * |meshes|
      invariant Shows(meshes, Lattice(z, Rows, cell))
      invariant Distinct(meshes)
      invariant forall i :: 0 <= i < |meshes| ==> fresh(meshes[i]) && meshes[i].material == SharedMaterial
    {
      LatticeLength(z, Rows, cell);
      var column := BuildColumn(noise, rand, z, k);
      k := k + 2 * Rows;
      ShowsNextColumn(meshes, column, z, Rows, cell);
      meshes := meshes + column;
    }
  }

  /** The inner loop of the build, over the cells `(z, 0), ..., (z, Rows - 1)`;
      `k` is the number of draws taken before it. */
  method BuildColumn(noise: Noise, rand: Draws, z: nat, k: nat) returns (column: seq<Mesh>)
    requires k == 2 * (z * Rows)
    ensures |column| == Rows
    ensures forall y :: 0 <= y < Rows ==> column[y].State() == CellOf(noise, rand)(z, y)
    ensures Distinct(column)
    ensures forall i :: 0 <= i < |column| ==> fresh(column[i]) && column[i].material == SharedMaterial
  {
    column := [];
    for y := 0 to Rows
      invariant |column| == y
      invariant forall j :: 0 <= j < y ==> column[j].State() == CellOf(noise, rand)(z, j)
      invariant Distinct(column)
      invariant forall i :: 0 <= i < |column| ==> fresh(column[i]) && column[i].material == SharedMaterial
    {
      var newMesh := NewCell(noise, rand, z, y, k + 2 * y);
      column := column + [newMesh];
    }
  }

  /** How far one frame at time `t` moves the child at index `i` along x: the
      noise sampled at the child's index and the elapsed time, scaled down. */
  function Drift(noise: Noise, i: nat, t: real): (d: real)
    ensures NoiseInRange(noise) ==> -DriftStep <= d <= DriftStep
  {
    noise(i as real, t * DriftSpeed) * DriftStep
  }

  /** What one frame does to the child at index `i`: it moves along x by the
      drift, and nothing else changes. */
  function Advance(noise: Noise, m: Transform, i: nat, t: real): (r: Transform)
    ensures r.px - m.px == Drift(noise, i, t)
    ensures r.py == m.py && r.pz == m.pz && r.sx == m.sx && r.sy == m.sy && r.sz == m.sz
  {
    m.(px := m.px + Drift(noise, i, t))
  }

  /** Unlike the height frames of the other grids, this frame accumulates: a second
      frame at the same time changes nothing exactly when the noise there is 0. */
  lemma AdvanceTwice(noise: Noise, m: Transform, i: nat, t: real)
    ensures Advance(noise, Advance(noise, m, i, t), i, t).px == m.px + 2.0 * Drift(noise, i, t)
    ensures Advance(noise, Advance(noise, m, i, t), i, t) == Advance(noise, m, i, t)
        <==> noise(i as real, t * DriftSpeed) == 0.0
  {
  }

  /** The frames at times `ts`, one after another, applied to the child at index `i`. */
  function Replay(noise: Noise, m: Transform, i: nat, ts: seq<real>): Transform
    decreases |ts|
  {
    if ts == [] then m else Replay(noise, Advance(noise, m, i, ts[0]), i, ts[1..])
  }

  /** The total drift of the frames at times `ts`. */
  function DriftSum(noise: Noise, i: nat, ts: seq<real>): real
    decreases |ts|
  {
    if ts == [] then 0.0 else Drift(noise, i, ts[0]) + DriftSum(noise, i, ts[1..])
  }

  /** After any number of frames a child has moved along x by the total drift of
      those frames and is otherwise exactly as built. */
  lemma {:induction false} ReplayDrift(noise: Noise, m: Transform, i: nat, ts: seq<real>)
    ensures Replay(noise, m, i, ts) == m.(px := m.px + DriftSum(noise, i, ts))
    decreases |ts|
  {
    if ts != [] {
      ReplayDrift(noise, Advance(noise, m, i, ts[0]), i, ts[1..]);
    }
  }

  /** Each frame moves a child by at most 0.05, so `n` frames move it by at most
      `0.05 n`. */
  lemma {:induction false} DriftSumBound(noise: Noise, i: nat, ts: seq<real>)
    requires NoiseInRange(noise)
    ensures -DriftStep * |ts| as real <= DriftSum(noise, i, ts) <= DriftStep * |ts| as real
    decreases |ts|
  {
    if ts != [] {
      DriftSumBound(noise, i, ts[1..]);
    }
  }

  /** A child of the built wall, after the frames `ts`, stands at x equal to its
      total drift, within `0.05 n` of the plane it was built in. */
  lemma BuiltChildAfterFrames(noise: Noise, rand: Draws, i: nat, ts: seq<real>)
    requires NoiseInRange(noise)
    requires i < |Layout(noise, rand)|
    ensures Replay(noise, Layout(noise, rand)[i], i, ts).px == DriftSum(noise, i, ts)
    ensures -DriftStep * |ts| as real <= Replay(noise, Layout(noise, rand)[i], i, ts).px <= DriftStep * |ts| as real
  {
    var z, y := LatticeCell(Cols, Rows, CellOf(noise, rand), i);
    assert Layout(noise, rand)[i].px == Cell(noise, rand, z, y).px == 0.0;
    ReplayDrift(noise, Layout(noise, rand)[i], i, ts);
    DriftSumBound(noise, i, ts);
  }

  /** The per-frame update: `group.children.forEach((mesh, i) => ...)`, moving
      each child in place along x by its drift. */
  method Tick(noise: Noise, children: seq<Mesh>, elapsedTime: real)
    requires Distinct(children)
    modifies children
    ensures forall i :: 0 <= i < |children| ==>
      children[i].State() == Advance(noise, old(children[i].State()), i, elapsedTime)
  {
    for i := 0 to |children|
      invariant forall j :: 0 <= j < i ==>
        children[j].State() == Advance(noise, old(children[j].State()), j, elapsedTime)
      invariant forall j :: i <= j < |children| ==> children[j].State() == old(children[j].State())
    {
      var mesh := children[i];
      mesh.px := mesh.px + noise(i as real, elapsedTime * DriftSpeed) * DriftStep;
    }
  }
}
