/** The vocabulary shared by the cube-grid demos: the noise field and the random
    stream they read, the transform of a mesh, the mesh object the demos create
    and update in place, and the x-outer / y-inner lattice their build loops walk. */
module Grid {

  datatype Option<T> = None | Some(value: T)

  /** `noise.perlin2`: a seeded two-dimensional gradient-noise field. Its
      algorithm is not modelled; it is an arbitrary pure function of its inputs. */
  type Noise = (real, real) -> real

  /** The range `perlin2` is documented to return. */
  ghost predicate NoiseInRange(noise: Noise) {
    forall a: real, b: real :: -1.0 <= noise(a, b) <= 1.0
  }

  /** The successive results of the demos' own `Math.random()` calls: draw number `k`
      is `rand(k)`. The draws three.js takes internally are not among them. */
  type Draws = nat -> real

  /** `Math.random()` returns values in [0, 1). */
  ghost predicate DrawsInRange(rand: Draws) {
    forall k: nat :: 0.0 <= rand(k) < 1.0
  }

  /** JavaScript's `s[i]`: the element, or `undefined` outside the bounds. */
  function At<T>(s: seq<T>, i: int): (r: Option<T>)
    ensures r.Some? <==> 0 <= i < |s|
    ensures r.Some? ==> r.value == s[i]
  {
    if 0 <= i < |s| then Some(s[i]) else None
  }

  /** `Math.floor(r * n)`, the index the demos use to pick one of `n` elements. */
  function RandomIndex(r: real, n: nat): int {
    (r * n as real).Floor
  }

  /** A draw in [0, 1) picks an index inside a non-empty list. */
  lemma RandomIndexInBounds(r: real, n: nat)
    requires 0.0 <= r < 1.0 && n > 0
    ensures 0 <= RandomIndex(r, n) < n
  {
    var p := r * n as real;
    assert 0.0 <= p by {
      assert 0.0 <= r && 0.0 < n as real;
    }
    assert p < n as real by {
      assert (1.0 - r) * n as real > 0.0;
    }
  }

  /** Position and scale of one mesh: `position.{x,y,z}` and `scale.{x,y,z}`. */
  datatype Transform = Transform(px: real, py: real, pz: real, sx: real, sy: real, sz: real)

  /** The offset the demos give a box for its height: its centre at `(sy - 1) / 2`.
      For a box whose geometry is 1 high this keeps the bottom face at -1/2
      (`AnchoredIsUnitFloor`); for a taller geometry it does not. */
  predicate Anchored(t: Transform) {
    t.py == (t.sy - 1.0) / 2.0
  }

  /** The height of the bottom face of a box whose geometry is `h` high, once the box is
      scaled by `sy` and centred at `py`. */
  function Bottom(t: Transform, h: real): real {
    t.py - h * t.sy / 2.0
  }

  /** The offset formula is floor anchoring for unit-high boxes: the bottom face stays
      at -1/2 exactly when the offset formula holds. */
  lemma AnchoredIsUnitFloor(t: Transform)
    ensures Anchored(t) <==> Bottom(t, 1.0) == -0.5
  {
  }

  /** And only for them: if two boxes of one geometry `h` high, both placed by the
      offset formula at different heights, have their bottom faces level, then `h` is 1. */
  lemma AnchoredFloorOnlyForUnit(t1: Transform, t2: Transform, h: real)
    requires Anchored(t1) && Anchored(t2) && t1.sy != t2.sy
    requires Bottom(t1, h) == Bottom(t2, h)
    ensures h == 1.0
  {
    var d := t1.sy - t2.sy;
    assert d * (1.0 - h) == 0.0;
    assert 1.0 - h == d * (1.0 - h) / d;
  }

  /** What a mesh is drawn with: the one material a demo shares between all its
      meshes, or a per-mesh gradient texture with its main colour and colour stops. */
  datatype Material = SharedMaterial | GradientMaterial(mainColour: string, stops: seq<real>)

  /** A `THREE.Mesh`: the demos only read and write its position and its scale. */
  class Mesh {
    var px: real
    var py: real
    var pz: real
    var sx: real
    var sy: real
    var sz: real
    const material: Material

    /** `new THREE.Mesh(geometry, material)`: at the origin, with unit scale. */
    constructor (material: Material)
      ensures this.material == material
      ensures State() == Transform(0.0, 0.0, 0.0, 1.0, 1.0, 1.0)
    {
      this.material := material;
      px, py, pz := 0.0, 0.0, 0.0;
      sx, sy, sz := 1.0, 1.0, 1.0;
    }

    /** The mesh's current transform. */
    function State(): Transform
      reads this
    {
      Transform(px, py, pz, sx, sy, sz)
    }
  }

  /** No mesh occurs twice: `Group.add` keeps a group's children unique. */
  predicate Distinct(ms: seq<Mesh>) {
    forall i, j :: 0 <= i < j < |ms| ==> ms[i] != ms[j]
  }

  /** The meshes show the transforms `s`, one for one and in order. */
  predicate Shows(ms: seq<Mesh>, s: seq<Transform>)
    reads ms
  {
    |ms| == |s| && forall i :: 0 <= i < |ms| ==> ms[i].State() == s[i]
  }

  lemma ShowsConcat(ms: seq<Mesh>, s: seq<Transform>, ns: seq<Mesh>, t: seq<Transform>)
    requires Shows(ms, s) && Shows(ns, t)
    ensures Shows(ms + ns, s + t)
  {
  }

  /** Meshes showing the cells of column `x` one by one show that column. */
  lemma ShowsColumn(ms: seq<Mesh>, x: nat, n: nat, cell: (nat, nat) -> Transform)
    requires |ms| == n
    requires forall y :: 0 <= y < n ==> ms[y].State() == cell(x, y)
    ensures Shows(ms, Column(x, n, cell))
  {
  }

  /** One more column of duplicate-free meshes, none of them already shown,
      extends the lattice the meshes show by one column. */
  lemma ShowsNextColumn(ms: seq<Mesh>, column: seq<Mesh>, x: nat, rows: nat, cell: (nat, nat) -> Transform)
    requires Shows(ms, Lattice(x, rows, cell)) && Distinct(ms)
    requires |column| == rows && Distinct(column)
    requires forall y :: 0 <= y < rows ==> column[y].State() == cell(x, y)
    requires forall i, j :: 0 <= i < |ms| && 0 <= j < |column| ==> ms[i] != column[j]
    ensures Shows(ms + column, Lattice(x + 1, rows, cell)) && Distinct(ms + column)
  {
    ShowsColumn(column, x, rows, cell);
    ShowsConcat(ms, Lattice(x, rows, cell), column, Column(x, rows, cell));
    DistinctConcat(ms, column);
    LatticeStep(x, rows, cell);
  }

  /** Two duplicate-free sequences of meshes with no mesh in common concatenate
      to a duplicate-free sequence. */
  lemma DistinctConcat(ms: seq<Mesh>, ns: seq<Mesh>)
    requires Distinct(ms) && Distinct(ns)
    requires forall i, j :: 0 <= i < |ms| && 0 <= j < |ns| ==> ms[i] != ns[j]
    ensures Distinct(ms + ns)
  {
  }

  /** The cells `(x, 0), ..., (x, n - 1)` of one column, as the inner loop visits them. */
  function Column<T>(x: nat, n: nat, cell: (nat, nat) -> T): seq<T> {
    seq(n, (y: int) requires 0 <= y => cell(x, y))
  }

  /** The columns one after another. */
  function Concat<T>(ss: seq<seq<T>>): seq<T> {
    if |ss| == 0 then [] else Concat(ss[..|ss| - 1]) + ss[|ss| - 1]
  }

  /** The cells of columns `0 .. cols - 1`, each column `rows` cells long, in the
      order of the nested loops `for x < cols { for y < rows { ... } }`. */
  function Lattice<T>(cols: nat, rows: nat, cell: (nat, nat) -> T): seq<T> {
    Concat(seq(cols, (x: int) requires 0 <= x => Column(x, rows, cell)))
  }

  /** One more column extends the lattice by that column. */
  lemma LatticeStep<T>(cols: nat, rows: nat, cell: (nat, nat) -> T)
    ensures Lattice(cols + 1, rows, cell) == Lattice(cols, rows, cell) + Column(cols, rows, cell)
  {
    var ss := seq(cols + 1, (x: int) requires 0 <= x => Column(x, rows, cell));
    assert ss[..cols] == seq(cols, (x: int) requires 0 <= x => Column(x, rows, cell));
  }

  lemma {:induction false} LatticeLength<T>(cols: nat, rows: nat, cell: (nat, nat) -> T)
    ensures |Lattice(cols, rows, cell)| == cols * rows
  {
    if cols > 0 {
      LatticeLength(cols - 1, rows, cell);
      LatticeStep(cols - 1, rows, cell);
      assert (cols - 1) * rows + rows == cols * rows;
    }
  }

  /** A lattice of `c` columns is a prefix of every wider one. */
  lemma {:induction false} LatticePrefix<T>(c: nat, cols: nat, rows: nat, cell: (nat, nat) -> T, i: nat)
    requires c <= cols && i < |Lattice(c, rows, cell)|
    ensures i < |Lattice(cols, rows, cell)|
    ensures Lattice(cols, rows, cell)[i] == Lattice(c, rows, cell)[i]
  {
    if c < cols {
      LatticePrefix(c, cols - 1, rows, cell, i);
      var before, last := Lattice(cols - 1, rows, cell), Column(cols - 1, rows, cell);
      LatticeStep(cols - 1, rows, cell);
      assert (before + last)[i] == before[i];
    }
  }

  /** The columns `c .. cols - 1` follow the first `c` columns. */
  lemma {:induction false} LatticeRest<T>(c: nat, cols: nat, rows: nat, cell: (nat, nat) -> T)
    returns (rest: seq<T>)
    requires c <= cols
    ensures Lattice(cols, rows, cell) == Lattice(c, rows, cell) + rest
  {
    if c == cols {
      rest := [];
    } else {
      var front := LatticeRest(c, cols - 1, rows, cell);
      LatticeStep(cols - 1, rows, cell);
      rest := front + Column(cols - 1, rows, cell);
    }
  }

  /** Column `x` follows the first `x` columns. */
  lemma LatticeNext<T>(x: nat, rows: nat, cell: (nat, nat) -> T, y: nat)
    requires y < rows
    ensures |Lattice(x, rows, cell)| + y < |Lattice(x + 1, rows, cell)|
    ensures Lattice(x + 1, rows, cell)[|Lattice(x, rows, cell)| + y] == cell(x, y)
  {
    var before, column := Lattice(x, rows, cell), Column(x, rows, cell);
    LatticeStep(x, rows, cell);
    assert (before + column)[|before| + y] == column[y];
  }

  /** Every entry of the lattice is the cell of some lattice point. */
  lemma {:induction false} LatticeCell<T>(cols: nat, rows: nat, cell: (nat, nat) -> T, i: nat)
    returns (x: nat, y: nat)
    requires i < |Lattice(cols, rows, cell)|
    ensures x < cols && y < rows
    ensures Lattice(cols, rows, cell)[i] == cell(x, y)
  {
    var before, last := Lattice(cols - 1, rows, cell), Column(cols - 1, rows, cell);
    LatticeStep(cols - 1, rows, cell);
    if i < |before| {
      x, y := LatticeCell(cols - 1, rows, cell, i);
      assert (before + last)[i] == before[i];
    } else {
      x, y := cols - 1, i - |before|;
      assert (before + last)[i] == last[y];
    }
  }

  /** The lattice holds exactly `cols * rows` cells and cell `(x, y)` is at index
      `x * rows + y`: one entry per lattice point, x-outer, y-inner. */
  lemma LatticeAt<T>(cols: nat, rows: nat, cell: (nat, nat) -> T, x: nat, y: nat)
    requires x < cols && y < rows
    ensures |Lattice(cols, rows, cell)| == cols * rows
    ensures Lattice(cols, rows, cell)[x * rows + y] == cell(x, y)
  {
    LatticeLength(cols, rows, cell);
    LatticeLength(x, rows, cell);
    LatticeNext(x, rows, cell, y);
    LatticePrefix(x + 1, cols, rows, cell, |Lattice(x, rows, cell)| + y);
  }
}
