/** Demo 4, the advanced gradient cube grid: a 45 x 40 lattice in which each cell
    is kept with a probability growing from column to column, and each kept box
    gets its own gradient texture in a colour of the palette, random colour stops
    and occasionally very wide horizontal scales. Every frame rewrites the heights
    from the noise field as in demo 3. */
module AdvancedGrid {
  import opened Grid

  const Cols: nat := 45
  const Rows: nat := 40
  const Spacing: real := 1.0
  const NoiseScale: real := 1.0
  const AnimationSpeed: real := 0.5

  type Colour = string
  type Palette = seq<Colour>

  /** The colours used when no colour schemes were loaded. */
  const DefaultPalette: Palette := ["#ffe66d", "#ff6b6b", "#4ecdc4", "#1a535c", "#f7fff7"]

  /** The default value of `createGradientTexture`'s `mainColour` parameter, which a
      JavaScript call also takes when it passes `undefined`. */
  const DefaultMainColour: Colour := "#ff006e"

  /** `colourSchemes ? _.sample(colourSchemes) : colourOption`. The loaded schemes are
      `None` while the fetch has not delivered them; `_.sample` picks the scheme at
      the index `sampleDraw` selects and yields `undefined` for an empty list. */
  function ChoosePalette(schemes: Option<seq<Palette>>, sampleDraw: real): (p: Option<Palette>)
    ensures schemes.None? ==> p == Some(DefaultPalette)
    ensures schemes.Some? && p.Some? ==> p.value in schemes.value
    ensures schemes.Some? && |schemes.value| == 0 ==> p.None?
  {
    match schemes
    case None => Some(DefaultPalette)
    case Some(list) => At(list, RandomIndex(sampleDraw, |list|))
  }

  /** A loaded, non-empty list of schemes always yields a palette. */
  lemma ChoosePaletteDefined(schemes: seq<Palette>, sampleDraw: real)
    requires 0.0 <= sampleDraw < 1.0 && |schemes| > 0
    ensures ChoosePalette(Some(schemes), sampleDraw).Some?
  {
    RandomIndexInBounds(sampleDraw, |schemes|);
  }

  /** lodash's `_.clamp(n, lo, hi)`: the upper bound applies first, then the lower. */
  function Clamp(n: int, lo: int, hi: int): (r: int)
    ensures lo <= hi ==> lo <= r <= hi
    ensures lo <= n <= hi ==> r == n
    ensures hi < lo ==> r == lo
  {
    var m := if n <= hi then n else hi;
    if m >= lo then m else lo
  }

  /** The density of column `x`: a cell there is kept when its draw is at most
      `clamp(x, 0, cols) / cols`. */
  function Threshold(x: nat): (t: real)
    ensures 0.0 <= t <= 1.0
    ensures x < Cols ==> t < 1.0 && t * Cols as real == x as real
  {
    Clamp(x, 0, Cols) as real / Cols as real
  }

  /** The mask of the build loop: in column `x < 45` a cell is kept when 45 times its
      draw is at most `x`, so column 0 keeps only a draw of 0 and a draw of 0 keeps
      every cell. */
  function Kept(r: real, x: nat): (k: bool)
    ensures x < Cols ==> (k <==> r * Cols as real <= x as real)
    ensures x == 0 ==> (k <==> r <= 0.0)
    ensures r <= 0.0 ==> k
  {
    r <= Threshold(x)
  }

  /** World coordinate of lattice index `i`: the box width plus the gap, per step. */
  function Place(i: nat): (w: real)
    ensures w == 2.0 * i as real
  {
    i as real + Spacing * i as real
  }

  /** The main colour of a kept box: the palette entry at the index the draw selects,
      or the texture's default colour when that lookup is `undefined`. */
  function MainColour(palette: Palette, r: real): (c: Colour)
    ensures |palette| == 0 ==> c == DefaultMainColour
    ensures c in palette || c == DefaultMainColour
  {
    match At(palette, RandomIndex(r, |palette|))
    case Some(colour) => colour
    case None => DefaultMainColour
  }

  /** With a draw in [0, 1) a non-empty palette is never indexed out of bounds, so the
      colour is one of the palette's. */
  lemma MainColourInPalette(palette: Palette, r: real)
    requires 0.0 <= r < 1.0 && |palette| > 0
    ensures 0 <= RandomIndex(r, |palette|) < |palette|
    ensures MainColour(palette, r) == palette[RandomIndex(r, |palette|)]
    ensures MainColour(palette, r) in palette
  {
    RandomIndexInBounds(r, |palette|);
  }

  /** The colour stops `[0, r * 0.5, 1]` passed to `createGradientTexture`. */
  function Stops(r: real): (s: seq<real>)
    ensures |s| == 3 && s[0] == 0.0 && s[2] == 1.0
    ensures 0.0 <= r < 1.0 ==> 0.0 <= s[1] < 0.5
  {
    [0.0, r * 0.5, 1.0]
  }

  /** The stops are in increasing order, as a linear gradient needs them. */
  predicate Ascending(s: seq<real>) {
    forall i, j :: 0 <= i < j < |s| ==> s[i] <= s[j]
  }

  lemma StopsAscending(r: real)
    requires 0.0 <= r < 1.0
    ensures Ascending(Stops(r))
  {
    var s := Stops(r);
    assert s[0] <= s[1] <= s[2];
  }

  /** `Math.random() >= 0.9 ? Math.random() * 10 : Math.random() * 2 + 0.5`: the
      first draw chooses wide (one box in ten) or ordinary, the second sets the size. */
  function HorizontalScale(branch: real, r: real): (s: real)
    ensures 0.0 <= r < 1.0 && branch >= 0.9 ==> 0.0 <= s < 10.0
    ensures 0.0 <= r < 1.0 && branch < 0.9 ==> 0.5 <= s < 2.5
    ensures 0.0 <= r < 1.0 ==> 0.0 <= s < 10.0
  {
    if branch >= 0.9 then r * 10.0 else r * 2.0 + 0.5
  }

  /** A kept box: the lattice cell it was made for, its transform and its material. */
  datatype Placed = Placed(x: nat, y: nat, transform: Transform, material: Material)

  /** The box the build makes for the kept cell `(x, y)`; `k` is the draw that picks
      its colour, and the next five set the middle stop and the two horizontal scales.
      `scale.y` is set to 2 and `position.y` is left at its default. */
  function PlaceCell(palette: Palette, rand: Draws, x: nat, y: nat, k: nat): (p: Placed)
    ensures p.x == x && p.y == y
    ensures p.transform.px == 2.0 * x as real && p.transform.pz == 2.0 * y as real
    ensures p.transform.py == 0.0 && p.transform.sy == 2.0
    ensures p.material == GradientMaterial(MainColour(palette, rand(k)), Stops(rand(k + 1)))
    ensures p.transform.sx == HorizontalScale(rand(k + 2), rand(k + 3))
    ensures p.transform.sz == HorizontalScale(rand(k + 4), rand(k + 5))
  {
    var material := GradientMaterial(MainColour(palette, rand(k)), Stops(rand(k + 1)));
    var sx := HorizontalScale(rand(k + 2), rand(k + 3));
    var sz := HorizontalScale(rand(k + 4), rand(k + 5));
    Placed(x, y, Transform(Place(x), 0.0, Place(y), sx, 2.0, sz), material)
  }

  /** What holds of every box of the built grid, given draws in [0, 1). */
  predicate Fits(p: Placed, palette: Palette) {
    && p.x < Cols && p.y < Rows
    && p.transform.px == 2.0 * p.x as real && p.transform.pz == 2.0 * p.y as real
    && p.transform.py == 0.0 && p.transform.sy == 2.0
    && 0.0 <= p.transform.sx < 10.0 && 0.0 <= p.transform.sz < 10.0
    && p.material.GradientMaterial?
    && |p.material.stops| == 3 && Ascending(p.material.stops)
    && p.material.stops[0] == 0.0 && p.material.stops[2] == 1.0
    && (if |palette| > 0 then p.material.mainColour in palette
        else p.material.mainColour == DefaultMainColour)
  }

  lemma PlaceCellFits(palette: Palette, rand: Draws, x: nat, y: nat, k: nat)
    requires DrawsInRange(rand)
    requires x < Cols && y < Rows
    ensures Fits(PlaceCell(palette, rand, x, y, k), palette)
  {
    assert 0.0 <= rand(k) < 1.0 && 0.0 <= rand(k + 1) < 1.0;
    assert 0.0 <= rand(k + 3) < 1.0 && 0.0 <= rand(k + 5) < 1.0;
    if |palette| > 0 {
      MainColourInPalette(palette, rand(k));
    }
    StopsAscending(rand(k + 1));
  }

  /** The state of the build loop: the boxes pushed so far, the number of draws taken
      and whether the loop has stopped with a `TypeError`. */
  datatype Scan = Scan(placed: seq<Placed>, next: nat, failed: bool)

  const Start: Scan := Scan([], 0, false)

  /** One iteration of the inner loop, for the cell `c`. A kept cell takes the colour
      draw and then reads the palette's length; with no palette that throws after both
      draws, and the rest of the callback does not run. */
  function Visit(palette: Option<Palette>, rand: Draws, s: Scan, c: (nat, nat)): (r: Scan)
    ensures s.failed ==> r == s
    ensures !s.failed && !Kept(rand(s.next), c.0) ==> r == s.(next := s.next + 1)
    ensures !s.failed && Kept(rand(s.next), c.0) && palette.None? ==>
      r == s.(next := s.next + 2, failed := true)
    ensures !s.failed && Kept(rand(s.next), c.0) && palette.Some? ==>
      r == Scan(s.placed + [PlaceCell(palette.value, rand, c.0, c.1, s.next + 1)], s.next + 7, false)
  {
    if s.failed then s
    else if !Kept(rand(s.next), c.0) then s.(next := s.next + 1)
    else if palette.None? then s.(next := s.next + 2, failed := true)
    else Scan(s.placed + [PlaceCell(palette.value, rand, c.0, c.1, s.next + 1)], s.next + 7, false)
  }

  /** The loop over the cells `cells`, in order, from the state `s`. */
  function Run(palette: Option<Palette>, rand: Draws, s: Scan, cells: seq<(nat, nat)>): (r: Scan)
    ensures s.placed <= r.placed
    ensures |r.placed| <= |s.placed| + |cells|
    ensures s.failed ==> r == s
    decreases |cells|
  {
    if |cells| == 0 then s
    else Visit(palette, rand, Run(palette, rand, s, cells[..|cells| - 1]), cells[|cells| - 1])
  }

  function Coord(): (nat, nat) -> (nat, nat) {
    (x: nat, y: nat) => (x, y)
  }

  /** The cells of the lattice in the order of the nested loops. */
  function Cells(): seq<(nat, nat)> {
    Lattice(Cols, Rows, Coord())
  }

  /** The children of the group once the callback has run: the pushed boxes, or none
      when the loop threw before `group.add`. */
  function Group(palette: Option<Palette>, rand: Draws): seq<Placed> {
    var s := Run(palette, rand, Start, Cells());
    if s.failed then [] else s.placed
  }

  lemma RunSnoc(palette: Option<Palette>, rand: Draws, s: Scan, cells: seq<(nat, nat)>, c: (nat, nat))
    ensures Run(palette, rand, s, cells + [c]) == Visit(palette, rand, Run(palette, rand, s, cells), c)
  {
    assert (cells + [c])[..|cells|] == cells;
  }

  /** Running the loop over two runs of cells is running it over their concatenation. */
  lemma {:induction false} RunAppend(palette: Option<Palette>, rand: Draws, s: Scan, a: seq<(nat, nat)>, b: seq<(nat, nat)>)
    ensures Run(palette, rand, s, a + b) == Run(palette, rand, Run(palette, rand, s, a), b)
    decreases |b|
  {
    if |b| == 0 {
      assert a + b == a;
    } else {
      var front, last := b[..|b| - 1], b[|b| - 1];
      assert b == front + [last];
      assert a + b == (a + front) + [last];
      RunAppend(palette, rand, s, a, front);
      RunSnoc(palette, rand, s, a + front, last);
      RunSnoc(palette, rand, Run(palette, rand, s, a), front, last);
    }
  }

  /** The built group holds at most one box per cell: at most 45 * 40 = 1800. */
  lemma GroupBound(palette: Option<Palette>, rand: Draws)
    ensures |Group(palette, rand)| <= 1800
  {
    LatticeLength(Cols, Rows, Coord());
  }

  /** Without a palette nothing is ever pushed. */
  lemma {:induction false} RunWithoutPalette(rand: Draws, s: Scan, cells: seq<(nat, nat)>)
    ensures Run(None, rand, s, cells).placed == s.placed
    decreases |cells|
  {
    if |cells| > 0 {
      RunWithoutPalette(rand, s, cells[..|cells| - 1]);
    }
  }

  /** When the loaded list of schemes is empty, `_.sample` yields `undefined` and the
      group stays empty, whether or not the loop reaches a kept cell and throws. */
  lemma GroupWithoutPalette(schemes: seq<Palette>, sampleDraw: real, rand: Draws)
    requires |schemes| == 0
    ensures Group(ChoosePalette(Some(schemes), sampleDraw), rand) == []
  {
    RunWithoutPalette(rand, Start, Cells());
  }

  /** Every box pushed from the cells of the lattice fits the description of the
      build: on its own lattice point, unanchored at height 2, with horizontal scales
      in [0, 10), ascending stops and a colour of the palette. */
  lemma {:induction false} RunFits(palette: Palette, rand: Draws, s: Scan, cells: seq<(nat, nat)>)
    requires DrawsInRange(rand)
    requires forall i :: 0 <= i < |cells| ==> cells[i].0 < Cols && cells[i].1 < Rows
    requires forall i :: 0 <= i < |s.placed| ==> Fits(s.placed[i], palette)
    ensures forall i :: 0 <= i < |Run(Some(palette), rand, s, cells).placed| ==>
      Fits(Run(Some(palette), rand, s, cells).placed[i], palette)
    decreases |cells|
  {
    if |cells| > 0 {
      var before := Run(Some(palette), rand, s, cells[..|cells| - 1]);
      RunFits(palette, rand, s, cells[..|cells| - 1]);
      var c := cells[|cells| - 1];
      PlaceCellFits(palette, rand, c.0, c.1, before.next + 1);
    }
  }

  lemma GroupFits(palette: Palette, rand: Draws, i: nat)
    requires DrawsInRange(rand)
    requires i < |Group(Some(palette), rand)|
    ensures Fits(Group(Some(palette), rand)[i], palette)
  {
    forall j | 0 <= j < |Cells()|
      ensures Cells()[j].0 < Cols && Cells()[j].1 < Rows
    {
      var x, y := LatticeCell(Cols, Rows, Coord(), j);
    }
    RunFits(palette, rand, Start, Cells());
  }

  /** With every draw 0 every cell is kept, even in column 0 whose density is 0. */
  lemma {:induction false} RunAllKept(palette: Palette, rand: Draws, s: Scan, cells: seq<(nat, nat)>)
    requires forall k: nat :: rand(k) == 0.0
    requires !s.failed
    ensures !Run(Some(palette), rand, s, cells).failed
    ensures |Run(Some(palette), rand, s, cells).placed| == |s.placed| + |cells|
    decreases |cells|
  {
    if |cells| > 0 {
      RunAllKept(palette, rand, s, cells[..|cells| - 1]);
    }
  }

  lemma GroupAllKept(palette: Palette, rand: Draws)
    requires forall k: nat :: rand(k) == 0.0
    ensures |Group(Some(palette), rand)| == 1800
  {
    RunAllKept(palette, rand, Start, Cells());
    LatticeLength(Cols, Rows, Coord());
  }

  /** The densest column is 44/45: with every draw above it no cell is kept. */
  lemma {:induction false} RunNoneKept(palette: Option<Palette>, rand: Draws, s: Scan, cells: seq<(nat, nat)>)
    requires forall k: nat :: rand(k) > 44.0 / 45.0
    requires forall i :: 0 <= i < |cells| ==> cells[i].0 < Cols
    ensures Run(palette, rand, s, cells).placed == s.placed
    ensures Run(palette, rand, s, cells).failed == s.failed
    decreases |cells|
  {
    if |cells| > 0 {
      RunNoneKept(palette, rand, s, cells[..|cells| - 1]);
      var c := cells[|cells| - 1];
      assert Threshold(c.0) <= 44.0 / 45.0;
    }
  }

  lemma GroupNoneKept(palette: Option<Palette>, rand: Draws)
    requires forall k: nat :: rand(k) > 44.0 / 45.0
    ensures Group(palette, rand) == []
  {
    forall j | 0 <= j < |Cells()|
      ensures Cells()[j].0 < Cols
    {
      var x, y := LatticeCell(Cols, Rows, Coord(), j);
    }
    RunNoneKept(palette, rand, Start, Cells());
  }

  /** `a` comes before `b` in the order of the nested loops, x outer and y inner. */
  predicate Precedes(a: (nat, nat), b: (nat, nat)) {
    a.0 < b.0 || (a.0 == b.0 && a.1 < b.1)
  }

  predicate Increasing(cells: seq<(nat, nat)>) {
    forall i, j :: 0 <= i < j < |cells| ==> Precedes(cells[i], cells[j])
  }

  /** The lattice point of a box. */
  function PointOf(p: Placed): (nat, nat) {
    (p.x, p.y)
  }

  /** The boxes in strictly increasing lattice order: one box per cell at most, in
      the order of the nested loops. */
  predicate InLoopOrder(ps: seq<Placed>) {
    forall i, j :: 0 <= i < j < |ps| ==> Precedes(PointOf(ps[i]), PointOf(ps[j]))
  }

  /** The nested loops visit the lattice in strictly increasing order. */
  lemma {:induction false} LatticeAscending(cols: nat, rows: nat)
    ensures Increasing(Lattice(cols, rows, Coord()))
  {
    if cols > 0 {
      var before, column := Lattice(cols - 1, rows, Coord()), Column(cols - 1, rows, Coord());
      LatticeAscending(cols - 1, rows);
      LatticeStep(cols - 1, rows, Coord());
      forall i | 0 <= i < |before|
        ensures before[i].0 < cols - 1
      {
        var x, y := LatticeCell(cols - 1, rows, Coord(), i);
      }
      var all := before + column;
      forall i, j | 0 <= i < j < |all|
        ensures Precedes(all[i], all[j])
      {
        if j < |before| {
          assert all[i] == before[i] && all[j] == before[j];
        } else if i < |before| {
          assert all[i] == before[i] && all[j] == column[j - |before|];
        } else {
          assert all[i] == column[i - |before|] && all[j] == column[j - |before|];
        }
      }
    }
  }

  /** Every box the loop pushes is for one of the cells it visits. */
  lemma {:induction false} RunFromCells(palette: Option<Palette>, rand: Draws, s: Scan, cells: seq<(nat, nat)>)
    ensures forall i :: |s.placed| <= i < |Run(palette, rand, s, cells).placed| ==>
      PointOf(Run(palette, rand, s, cells).placed[i]) in cells
    decreases |cells|
  {
    if |cells| > 0 {
      var front := cells[..|cells| - 1];
      RunFromCells(palette, rand, s, front);
      var before := Run(palette, rand, s, front);
      var after := Run(palette, rand, s, cells);
      forall i | |s.placed| <= i < |after.placed|
        ensures PointOf(after.placed[i]) in cells
      {
        if i < |before.placed| {
          assert after.placed[i] == before.placed[i];
          assert PointOf(before.placed[i]) in front;
        }
      }
    }
  }

  /** Visiting cells in increasing order, all after the boxes already pushed, keeps
      the boxes in loop order. */
  lemma {:induction false} RunInLoopOrder(palette: Option<Palette>, rand: Draws, s: Scan, cells: seq<(nat, nat)>)
    requires Increasing(cells) && InLoopOrder(s.placed)
    requires forall i, j :: 0 <= i < |s.placed| && 0 <= j < |cells| ==> Precedes(PointOf(s.placed[i]), cells[j])
    ensures InLoopOrder(Run(palette, rand, s, cells).placed)
    decreases |cells|
  {
    if |cells| > 0 {
      var front, last := cells[..|cells| - 1], cells[|cells| - 1];
      RunInLoopOrder(palette, rand, s, front);
      RunFromCells(palette, rand, s, front);
      var before := Run(palette, rand, s, front);
      forall i | 0 <= i < |before.placed|
        ensures Precedes(PointOf(before.placed[i]), last)
      {
        if i < |s.placed| {
          assert before.placed[i] == s.placed[i];
        } else {
          var j :| 0 <= j < |front| && front[j] == PointOf(before.placed[i]);
          assert cells[j] == front[j];
        }
      }
    }
  }

  /** The built group lists its boxes in the order of the nested loops, x outer and
      y inner, with at most one box per cell. */
  lemma GroupInLoopOrder(palette: Option<Palette>, rand: Draws)
    ensures InLoopOrder(Group(palette, rand))
  {
    LatticeAscending(Cols, Rows);
    RunInLoopOrder(palette, rand, Start, Cells());
  }

  /** The meshes show the boxes, transform and material, one for one and in order. */
  predicate ShowsPlaced(ms: seq<Mesh>, ps: seq<Placed>)
    reads ms
  {
    |ms| == |ps| && forall i :: 0 <= i < |ms| ==> ms[i].State() == ps[i].transform && ms[i].material == ps[i].material
  }

  /** The body of the build loop for a kept cell: a box with its own gradient texture;
      `k` is the draw that picks its colour. */
  method NewCell(palette: Palette, rand: Draws, x: nat, y: nat, k: nat) returns (newMesh: Mesh)
    ensures fresh(newMesh)
    ensures newMesh.State() == PlaceCell(palette, rand, x, y, k).transform
    ensures newMesh.material == PlaceCell(palette, rand, x, y, k).material
  {
    var randomColour := At(palette, RandomIndex(rand(k), |palette|));
    var mainColour := if randomColour.Some? then randomColour.value else DefaultMainColour;
    var stops := [0.0, rand(k + 1) * 0.5, 1.0];
    newMesh := new Mesh(GradientMaterial(mainColour, stops));
    newMesh.px := x as real + Spacing * x as real;
    newMesh.pz := y as real + Spacing * y as real;
    newMesh.sx := if rand(k + 2) >= 0.9 then rand(k + 3) * 10.0 else rand(k + 3) * 2.0 + 0.5;
    newMesh.sz := if rand(k + 4) >= 0.9 then rand(k + 5) * 10.0 else rand(k + 5) * 2.0 + 0.5;
    newMesh.sy := 2.0;
  }

  /** One iteration of the inner loop, for the cell `(x, y)`: one draw for the mask
      and, for a kept cell, one new box pushed onto `meshes`, which shows `placed`;
      `k` is the number of draws taken before it. It reports whether it threw. */
  method BuildCell(palette: Option<Palette>, rand: Draws, x: nat, y: nat, meshes: seq<Mesh>, k: nat, ghost placed: seq<Placed>)
    returns (meshes': seq<Mesh>, k': nat, failed: bool)
    requires ShowsPlaced(meshes, placed) && Distinct(meshes)
    ensures failed == Visit(palette, rand, Scan(placed, k, false), (x, y)).failed
    ensures Visit(palette, rand, Scan(placed, k, false), (x, y)).next == k'
    ensures !failed ==> ShowsPlaced(meshes', Visit(palette, rand, Scan(placed, k, false), (x, y)).placed)
    ensures !failed ==> Distinct(meshes')
    ensures forall m :: m in meshes' ==> m in meshes || fresh(m)
  {
    meshes', k', failed := meshes, k + 1, false;
    if rand(k) <= Threshold(x) {
      if palette.None? {
        // The colour draw is taken; then reading the `undefined` palette's length throws.
        k', failed := k + 2, true;
        return;
      }
      var newMesh := NewCell(palette.value, rand, x, y, k + 1);
      meshes' := meshes + [newMesh];
      k' := k + 7;
    }
  }

  /** Once the loop has thrown on a prefix of a column, the whole column ends thrown. */
  lemma ColumnFailStays(palette: Option<Palette>, rand: Draws, s: Scan, x: nat, y: nat)
    requires y < Rows
    requires Run(palette, rand, s, Column(x, y + 1, Coord())).failed
    ensures Run(palette, rand, s, Column(x, Rows, Coord())).failed
  {
    var front, rest := Column(x, y + 1, Coord()), Column(x, Rows, Coord())[y + 1..];
    assert Column(x, Rows, Coord()) == front + rest;
    RunAppend(palette, rand, s, front, rest);
  }

  /** The inner loop of the build over the cells `(x, 0), ..., (x, Rows - 1)`, pushing
      kept boxes onto `meshes`, which shows `placed`; `k` is the number of draws taken
      before it. It reports whether it threw. */
  method BuildColumn(palette: Option<Palette>, rand: Draws, x: nat, meshes: seq<Mesh>, k: nat, ghost placed: seq<Placed>)
    returns (meshes': seq<Mesh>, k': nat, failed: bool)
    requires ShowsPlaced(meshes, placed) && Distinct(meshes)
    ensures failed == Run(palette, rand, Scan(placed, k, false), Column(x, Rows, Coord())).failed
    ensures !failed ==> Run(palette, rand, Scan(placed, k, false), Column(x, Rows, Coord())).next == k'
    ensures !failed ==> ShowsPlaced(meshes', Run(palette, rand, Scan(placed, k, false), Column(x, Rows, Coord())).placed)
    ensures !failed ==> Distinct(meshes')
    ensures forall m :: m in meshes' ==> m in meshes || fresh(m)
  {
    ghost var s0 := Scan(placed, k, false);
    meshes', k', failed := meshes, k, false;
    for y := 0 to Rows
      invariant !Run(palette, rand, s0, Column(x, y, Coord())).failed
      invariant Run(palette, rand, s0, Column(x, y, Coord())).next == k'
      invariant ShowsPlaced(meshes', Run(palette, rand, s0, Column(x, y, Coord())).placed)
      invariant Distinct(meshes')
      invariant forall m :: m in meshes' ==> m in meshes || fresh(m)
    {
      ghost var s := Run(palette, rand, s0, Column(x, y, Coord()));
      assert s == Scan(s.placed, k', false);
      assert Column(x, y + 1, Coord()) == Column(x, y, Coord()) + [(x, y)];
      RunSnoc(palette, rand, s0, Column(x, y, Coord()), (x, y));
      meshes', k', failed := BuildCell(palette, rand, x, y, meshes', k', s.placed);
      if failed {
        ColumnFailStays(palette, rand, s0, x, y);
        return;
      }
    }
  }

  /** The `setTimeout` callback: choose the palette, run the masked build loop, and
      add the pushed meshes to the group, unless the loop threw first. */
  method Build(schemes: Option<seq<Palette>>, sampleDraw: real, rand: Draws) returns (group: seq<Mesh>)
    ensures ShowsPlaced(group, Group(ChoosePalette(schemes, sampleDraw), rand))
    ensures Distinct(group)
    ensures forall m :: m in group ==> fresh(m)
  {
    var colourOptions := if schemes.Some? then At(schemes.value, RandomIndex(sampleDraw, |schemes.value|)) else Some(DefaultPalette);
    var meshes: seq<Mesh> := [];
    var k := 0;
    for x := 0 to Cols
      invariant Run(colourOptions, rand, Start, Lattice(x, Rows, Coord())) == Scan(Run(colourOptions, rand, Start, Lattice(x, Rows, Coord())).placed, k, false)
      invariant ShowsPlaced(meshes, Run(colourOptions, rand, Start, Lattice(x, Rows, Coord())).placed)
      invariant Distinct(meshes)
      invariant forall m :: m in meshes ==> fresh(m)
    {
      ghost var s := Run(colourOptions, rand, Start, Lattice(x, Rows, Coord()));
      var failed;
      LatticeStep(x, Rows, Coord());
      RunAppend(colourOptions, rand, Start, Lattice(x, Rows, Coord()), Column(x, Rows, Coord()));
      meshes, k, failed := BuildColumn(colourOptions, rand, x, meshes, k, s.placed);
      if failed {
        // The callback stops before `group.add`: the group keeps no children.
        var rest := LatticeRest(x + 1, Cols, Rows, Coord());
        RunAppend(colourOptions, rand, Start, Lattice(x + 1, Rows, Coord()), rest);
        return [];
      }
    }
    group := meshes;
  }

  /** What one frame does to a box: the noise is sampled at the box's world position,
      shifted along z by the elapsed time, and only the height and the offset
      `(sy - 1) / 2` change. */
  function Animate(noise: Noise, m: Transform, t: real): (r: Transform)
    ensures r.px == m.px && r.pz == m.pz && r.sx == m.sx && r.sz == m.sz
    ensures r.sy / 2.0 - 1.0 == noise(m.px * NoiseScale, m.pz * NoiseScale + t * AnimationSpeed)
    ensures Anchored(r)
    ensures NoiseInRange(noise) ==> 0.0 <= r.sy <= 4.0
  {
    var scaleY := (noise(m.px * NoiseScale, m.pz * NoiseScale + t * AnimationSpeed) + 1.0) * 2.0;
    m.(sy := scaleY, py := (scaleY - 1.0) / 2.0)
  }

  /** A frame reads only what it does not write, so a second frame at the same time
      changes nothing. */
  lemma AnimateIdempotent(noise: Noise, m: Transform, t: real)
    ensures Animate(noise, Animate(noise, m, t), t) == Animate(noise, m, t)
  {
  }

  /** The build leaves every box off the offset formula (height 2, centred at 0); a
      frame at any time puts it on the formula. */
  lemma FrameSetsOffset(noise: Noise, palette: Palette, rand: Draws, i: nat, t: real)
    requires DrawsInRange(rand)
    requires i < |Group(Some(palette), rand)|
    ensures !Anchored(Group(Some(palette), rand)[i].transform)
    ensures Anchored(Animate(noise, Group(Some(palette), rand)[i].transform, t))
  {
    GroupFits(palette, rand, i);
  }

  /** The boxes of this demo are 7 high before scaling (`BoxGeometry(1, 7, 1)`). */
  const BoxHeight: real := 7.0

  /** A built box, 2 x 7 high and centred at 0, has its bottom face at -7. */
  lemma BuiltBottom(palette: Palette, rand: Draws, i: nat)
    requires DrawsInRange(rand)
    requires i < |Group(Some(palette), rand)|
    ensures Bottom(Group(Some(palette), rand)[i].transform, BoxHeight) == -7.0
  {
    GroupFits(palette, rand, i);
  }

  /** The offset formula is made for unit-high boxes: on these 7-high boxes a frame
      leaves the bottom face at `-1/2 - 3 sy`, which moves with the height. */
  lemma FrameBottom(noise: Noise, m: Transform, t: real)
    ensures Bottom(Animate(noise, m, t), BoxHeight) == -0.5 - 3.0 * Animate(noise, m, t).sy
  {
  }

  /** Two frames that give different heights leave the bottom face at different levels:
      the floor is not kept, unlike in the unit-high demos. */
  lemma FrameBottomMoves(noise: Noise, m1: Transform, t1: real, m2: Transform, t2: real)
    requires Animate(noise, m1, t1).sy != Animate(noise, m2, t2).sy
    ensures Bottom(Animate(noise, m1, t1), BoxHeight) != Bottom(Animate(noise, m2, t2), BoxHeight)
  {
    FrameBottom(noise, m1, t1);
    FrameBottom(noise, m2, t2);
  }

  /** The per-frame update: `group.children.forEach`, rewriting each child's
      `scale.y` and `position.y` in place. */
  method Tick(noise: Noise, children: seq<Mesh>, elapsedTime: real)
    requires Distinct(children)
    modifies children
    ensures forall i :: 0 <= i < |children| ==>
      children[i].State() == Animate(noise, old(children[i].State()), elapsedTime)
  {
    for i := 0 to |children|
      invariant forall j :: 0 <= j < i ==>
        children[j].State() == Animate(noise, old(children[j].State()), elapsedTime)
      invariant forall j :: i <= j < |children| ==> children[j].State() == old(children[j].State())
    {
      var mesh := children[i];
      var x := mesh.px;
      var z := mesh.pz;
      var noiseValue := noise(x * NoiseScale, z * NoiseScale + elapsedTime * AnimationSpeed);
      var scaleY := (noiseValue + 1.0) * 2.0;
      mesh.sy := scaleY;
      mesh.py := (scaleY - 1.0) / 2.0;
    }
  }
}
