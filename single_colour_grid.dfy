/** Demo 2, the single-colour cube grid: a 5 x 5 grid of boxes whose heights
    are read from the noise field at build time and re-read every frame. */
module SingleColourGrid {
  import opened Grid

  const Cols: nat := 5
  const Rows: nat := 5
  const Spacing: real := 0.5
  const NoiseScale: real := 0.4
  const AnimationSpeed: real := 0.5

  /** World coordinate of lattice index `i`: the box width plus the gap, per step. */
  function Place(i: nat): (w: real)
    ensures w == 1.5 * i as real
  {
    i as real + Spacing * i as real
  }

  /** Build law: a noise value becomes a height. */
  function BuildHeight(h: real): (s: real)
    ensures -1.0 <= h <= 1.0 ==> 0.0 <= s <= 2.0
    ensures s - 1.0 == h
  {
    h + 1.0
  }

  /** Animation law: a noise value becomes a height, half as tall again. */
  function TickHeight(h: real): (s: real)
    ensures -1.0 <= h <= 1.0 ==> 0.0 <= s <= 3.0
    ensures s == 1.5 * BuildHeight(h)
  {
    (h + 1.0) * 1.5
  }

  /** A horizontal scale `Math.random() + 0.5`. */
  function Width(r: real): (s: real)
    ensures 0.0 <= r < 1.0 ==> 0.5 <= s < 1.5
  {
    r + 0.5
  }

  /** The mesh the build loop makes for lattice cell `(x, y)`. It is the cell's
      `x * Rows + y`-th mesh, so it takes draws `2k` (for `scale.x`) and `2k + 1`
      (for `scale.z`), and it samples the noise at the lattice indices. */
  function Cell(noise: Noise, rand: Draws, x: nat, y: nat): (c: Transform)
    ensures c.px == 1.5 * x as real && c.pz == 1.5 * y as real
    ensures c.sy == BuildHeight(noise(x as real * NoiseScale, y as real * NoiseScale))
    ensures Anchored(c)
    ensures NoiseInRange(noise) ==> 0.0 <= c.sy <= 2.0
    ensures DrawsInRange(rand) ==> 0.5 <= c.sx < 1.5 && 0.5 <= c.sz < 1.5
  {
    var k := x * Rows + y;
    var scaleY := BuildHeight(noise(x as real * NoiseScale, y as real * NoiseScale));
    Transform(Place(x), (scaleY - 1.0) / 2.0, Place(y), Width(rand(2 * k)), scaleY, Width(rand(2 * k + 1)))
  }

  function CellOf(noise: Noise, rand: Draws): (nat, nat) -> Transform {
    (x: nat, y: nat) => Cell(noise, rand, x, y)
  }

  /** The grid the build loop produces, in push order. */
  function Layout(noise: Noise, rand: Draws): seq<Transform> {
    Lattice(Cols, Rows, CellOf(noise, rand))
  }

  /** The built grid holds 25 meshes, and the one at index `x * 5 + y` is cell
      `(x, y)`: at `(1.5 x, 1.5 y)`, anchored, with its noise-driven height. */
  lemma LayoutAt(noise: Noise, rand: Draws, x: nat, y: nat)
    requires x < Cols && y < Rows
    ensures |Layout(noise, rand)| == 25
    ensures Layout(noise, rand)[x * Rows + y] == Cell(noise, rand, x, y)
  {
    LatticeAt(Cols, Rows, CellOf(noise, rand), x, y);
  }

  /** Every mesh of the built grid is anchored and at most 2 high. */
  lemma LayoutAnchored(noise: Noise, rand: Draws, i: nat)
    requires NoiseInRange(noise)
    requires i < |Layout(noise, rand)|
    ensures Anchored(Layout(noise, rand)[i])
    ensures 0.0 <= Layout(noise, rand)[i].sy <= 2.0
  {
    var x, y := LatticeCell(Cols, Rows, CellOf(noise, rand), i);
    assert Layout(noise, rand)[i] == Cell(noise, rand, x, y);
  }

  /** The body of the build loop: one new mesh for cell `(x, y)`, where `k` is
      the number of draws taken so far. */
  method NewCell(noise: Noise, rand: Draws, x: nat, y: nat, k: nat) returns (newMesh: Mesh)
    requires k == 2 * (x * Rows + y)
    ensures fresh(newMesh) && newMesh.material == SharedMaterial
    ensures newMesh.State() == Cell(noise, rand, x, y) == CellOf(noise, rand)(x, y)
  {
    newMesh := new Mesh(SharedMaterial);
    newMesh.px := x as real + Spacing * x as real;
    newMesh.pz := y as real + Spacing * y as real;
    newMesh.sx := rand(k) + 0.5;
    newMesh.sz := rand(k + 1) + 0.5;
    var noiseValue := noise(x as real * NoiseScale, y as real * NoiseScale);
    var scaleY := noiseValue + 1.0;
    newMesh.sy := scaleY;
    newMesh.py := (scaleY - 1.0) / 2.0;
  }

  /** The build loop, pushing each new mesh onto `meshes`. */
  method Build(noise: Noise, rand: Draws) returns (meshes: seq<Mesh>)
    ensures Shows(meshes, Layout(noise, rand))
    ensures Distinct(meshes)
    ensures forall i :: 0 <= i < |meshes| ==> fresh(meshes[i]) && meshes[i].material == SharedMaterial
  {
    ghost var cell := CellOf(noise, rand);
    meshes := [];
    var k := 0;
    for x := 0 to Cols
      invariant k == 2 * |meshes|
      invariant Shows(meshes, Lattice(x, Rows, cell))
      invariant Distinct(meshes)
      invariant forall i :: 0 <= i < |meshes| ==> fresh(meshes[i]) && meshes[i].material == SharedMaterial
    {
      LatticeLength(x, Rows, cell);
      var column := BuildColumn(noise, rand, x, k);
      k := k + 2 * Rows;
      ShowsNextColumn(meshes, column, x, Rows, cell);
      meshes := meshes + column;
    }
  }

  /** The inner loop of the build, over the cells `(x, 0), ..., (x, Rows - 1)`;
      `k` is the number of draws taken before it. */
  method BuildColumn(noise: Noise, rand: Draws, x: nat, k: nat) returns (column: seq<Mesh>)
    requires k == 2 * (x * Rows)
    ensures |column| == Rows
    ensures forall y :: 0 <= y < Rows ==> column[y].State() == CellOf(noise, rand)(x, y)
    ensures Distinct(column)
    ensures forall i :: 0 <= i < |column| ==> fresh(column[i]) && column[i].material == SharedMaterial
  {
    column := [];
    for y := 0 to Rows
      invariant |column| == y
      invariant forall j :: 0 <= j < y ==> column[j].State() == CellOf(noise, rand)(x, j)
      invariant Distinct(column)
      invariant forall i :: 0 <= i < |column| ==> fresh(column[i]) && column[i].material == SharedMaterial
    {
      var newMesh := NewCell(noise, rand, x, y, k + 2 * y);
      column := column + [newMesh];
    }
  }

  /** What one frame does to a mesh: the noise is sampled at the mesh's world
      position, shifted along z by the elapsed time, and only the height and the
      anchoring offset change. */
  function Animate(noise: Noise, m: Transform, t: real): (r: Transform)
    ensures r.px == m.px && r.pz == m.pz && r.sx == m.sx && r.sz == m.sz
    ensures r.sy == TickHeight(noise(m.px * NoiseScale, m.pz * NoiseScale + t * AnimationSpeed))
    ensures Anchored(r)
    ensures NoiseInRange(noise) ==> 0.0 <= r.sy <= 3.0
  {
    var scaleY := TickHeight(noise(m.px * NoiseScale, m.pz * NoiseScale + t * AnimationSpeed));
    m.(sy := scaleY, py := (scaleY - 1.0) / 2.0)
  }

  /** A frame reads only what it does not write, so a second frame at the same
      time changes nothing. */
  lemma AnimateIdempotent(noise: Noise, m: Transform, t: real)
    ensures Animate(noise, Animate(noise, m, t), t) == Animate(noise, m, t)
  {
  }

  /** The first frame samples the noise at the world position `(1.5 x, 1.5 y)`
      scaled by 0.4, not at the lattice indices the build used. */
  lemma FirstFrameOfCell(noise: Noise, rand: Draws, x: nat, y: nat)
    ensures Animate(noise, Cell(noise, rand, x, y), 0.0).sy
         == TickHeight(noise(0.6 * x as real, 0.6 * y as real))
  {
  }

  /** The first frame leaves a built cell as it was exactly when the frame's
      height law, applied at the world position, gives the height the build law
      gave at the lattice indices. */
  lemma FirstFrameKeepsCell(noise: Noise, rand: Draws, x: nat, y: nat)
    ensures Animate(noise, Cell(noise, rand, x, y), 0.0) == Cell(noise, rand, x, y)
        <==> TickHeight(noise(0.6 * x as real, 0.6 * y as real)) == BuildHeight(noise(0.4 * x as real, 0.4 * y as real))
  {
    FirstFrameOfCell(noise, rand, x, y);
  }

  /** The two laws differ: even the corner cell `(0, 0)`, sampled at the origin
      both times, keeps its built height through the first frame only where the
      noise there is -1, the height 0. */
  lemma FirstFrameMovesCorner(noise: Noise, rand: Draws)
    ensures Animate(noise, Cell(noise, rand, 0, 0), 0.0) == Cell(noise, rand, 0, 0)
        <==> noise(0.0, 0.0) == -1.0
  {
    FirstFrameKeepsCell(noise, rand, 0, 0);
  }

  /** The per-frame update: `group.children.forEach`, rewriting each child's
      `scale.y` and `position.y` in place. */
  method Tick(noise: Noise, children: seq<Mesh>, elapsedTime: real)
    requires Distinct(children)
    modifies children
    ensures forall i :: 0 <= i < |children| ==>
      children[i].State() == Animate(noise, old(children[i].State()), elapsedTime)
  {
    for i := 0 to |children|
      invariant forall j :: 0 <= j < i ==>
        children[j].State() == Animate(noise, old(children[j].State()), elapsedTime)
      invariant forall j :: i <= j < |children| ==> children[j].State() == old(children[j].State())
    {
      var mesh := children[i];
      var x := mesh.px;
      var z := mesh.pz;
      var noiseValue := noise(x * NoiseScale, z * NoiseScale + elapsedTime * AnimationSpeed);
      var scaleY := (noiseValue + 1.0) * 1.5;
      mesh.sy := scaleY;
      mesh.py := (scaleY - 1.0) / 2.0;
    }
  }
}
