/** The generator variant that collects its output lines in a list before
    writing them out (src/generate_competition_svg.py). Only the lines that
    draw something are modelled: `lines` is the sequence of primitives, in
    document order, that `main` builds up. The pure builders `polygon` and
    `textri` are the Polygon and TexTri constructors. */
module GenerateCompetitionSvg {
  import opened Primitives
  import opened TileGrid

  // ---------------------------------------------------------------------
  // Layer 1: background

  /** The four sky triangles of the initial `lines` list. */
  function BackgroundLayer(): seq<Primitive>
  {
    var w, h := W as real, H as real;
    [ Polygon("#0a0e1a", [Point(0.0, 0.0), Point(w, 0.0), Point(0.0, h / 2.0)]),
      Polygon("#0a0e1a", [Point(w, 0.0), Point(w, h / 2.0), Point(0.0, h / 2.0)]),
      Polygon("#141c28", [Point(0.0, h / 2.0), Point(w, h / 2.0), Point(0.0, h)]),
      Polygon("#141c28", [Point(w, h / 2.0), Point(w, h), Point(0.0, h)]) ]
  }

  /** Four triangles: the upper two in "#0a0e1a" with no vertex below the
      midline H / 2, the lower two in "#141c28" with no vertex above it. */
  lemma BackgroundLayerShape()
    ensures |BackgroundLayer()| == 4 && AllSolid(BackgroundLayer())
    ensures forall n, m :: 0 <= n < 2 && 0 <= m < 3 ==>
              |BackgroundLayer()[n].pts| == 3 &&
              BackgroundLayer()[n].fill == "#0a0e1a" && BackgroundLayer()[n].pts[m].y <= H as real / 2.0
    ensures forall n, m :: 2 <= n < 4 && 0 <= m < 3 ==>
              |BackgroundLayer()[n].pts| == 3 &&
              BackgroundLayer()[n].fill == "#141c28" && BackgroundLayer()[n].pts[m].y >= H as real / 2.0
  {
  }

  // ---------------------------------------------------------------------
  // Layer 2: spiral

  const SPIRAL_COLORS: seq<string> :=
    ["#3b82f6", "#8b5cf6", "#ec4899", "#f43f5e", "#f97316", "#eab308", "#22c55e"]
  const NUM_ARMS: nat := 7
  const SEGMENTS_PER_ARM: nat := 24
  /** (CENTER_X, CENTER_Y) = (W / 2, H / 2). */
  const CENTRE: Point := Point(W as real / 2.0, H as real / 2.0)

  /** The parameter t of step j along an arm. */
  function Step(j: nat): real
  {
    j as real / SEGMENTS_PER_ARM as real
  }

  /** Radius at parameter t: 50 at the start of an arm, 280 at its end. */
  function SpiralRadius(t: real): real
  {
    50.0 + 230.0 * t
  }

  /** Angle (a multiple of pi) at parameter t: one full turn. It does not
      depend on the arm. */
  function SpiralAngle(t: real): real
  {
    2.0 * t
  }

  /** The point on the outer curve at step j. */
  function OuterPoint(trig: Trig, j: nat): Point
  {
    Polar(trig, CENTRE, SpiralRadius(Step(j)), SpiralAngle(Step(j)))
  }

  /** The inner point of wedge i: halfway along the wedge, at 85% of the
      radius there. */
  function InnerPoint(trig: Trig, i: nat): Point
  {
    var tMid := (Step(i) + Step(i + 1)) / 2.0;
    Polar(trig, CENTRE, 0.85 * SpiralRadius(tMid), SpiralAngle(tMid))
  }

  /** Wedge i of arm `arm`. */
  function Wedge(trig: Trig, arm: nat, i: nat): Primitive
  {
    Polygon(SPIRAL_COLORS[arm % |SPIRAL_COLORS|], [OuterPoint(trig, i), OuterPoint(trig, i + 1), InnerPoint(trig, i)])
  }

  function SpiralLayer(trig: Trig): seq<Primitive>
  {
    ArmsRun(Wedge, trig, NUM_ARMS)
  }

  /** The arm loop of `main`. */
  method AppendSpiral(lines: seq<Primitive>, trig: Trig) returns (res: seq<Primitive>)
    ensures res == lines + SpiralLayer(trig)
  {
    res := lines;
    for arm := 0 to NUM_ARMS
      invariant res == lines + ArmsRun(Wedge, trig, arm)
    {
      AppendAssoc(lines, ArmsRun(Wedge, trig, arm), ArmRun(Wedge, trig, arm, SEGMENTS_PER_ARM));
      res := AppendArm(res, trig, arm);
    }
  }

  /** The body of the arm loop: the 24 wedges of one arm. */
  method AppendArm(lines: seq<Primitive>, trig: Trig, arm: nat) returns (res: seq<Primitive>)
    ensures res == lines + ArmRun(Wedge, trig, arm, SEGMENTS_PER_ARM)
  {
    res := lines;
    ArmDrawn(Wedge, trig, arm);
    ghost var wedges: nat -> Primitive :| DrawsArm(Wedge, trig, arm, wedges);
    var color := SPIRAL_COLORS[arm % |SPIRAL_COLORS|];
    for i := 0 to SEGMENTS_PER_ARM
      invariant res == lines + Run(wedges, i)
    {
      AppendAssoc(lines, Run(wedges, i), [wedges(i)]);
      res := AppendWedge(res, trig, arm, i, color, wedges);
    }
    DrawnArmIsArmRun(Wedge, trig, arm, wedges, SEGMENTS_PER_ARM);
  }

  /** The body of the segment loop: wedge i of the arm. */
  method AppendWedge(lines: seq<Primitive>, trig: Trig, arm: nat, i: nat, color: string,
                     ghost wedges: nat -> Primitive) returns (res: seq<Primitive>)
    requires DrawsArm(Wedge, trig, arm, wedges)
    requires color == SPIRAL_COLORS[arm % |SPIRAL_COLORS|]
    ensures res == lines + [wedges(i)]
  {
    var t0 := i as real / SEGMENTS_PER_ARM as real;
    var t1 := (i + 1) as real / SEGMENTS_PER_ARM as real;
    var r0 := 50.0 + 230.0 * t0;
    var r1 := 50.0 + 230.0 * t1;
    var a0 := 2.0 * t0;
    var a1 := 2.0 * t1;
    var rMid := (r0 + r1) / 2.0 * 0.85;
    var aMid := (a0 + a1) / 2.0;
    var p0 := Polar(trig, CENTRE, r0, a0);
    var p1 := Polar(trig, CENTRE, r1, a1);
    var pm := Polar(trig, CENTRE, rMid, aMid);
    WedgeGeometry(trig, arm, i, color, t0, t1, r0, r1, a0, a1, rMid, aMid, p0, p1, pm, wedges);
    res := lines + [Polygon(color, [p0, p1, pm])];
  }

  /** One wedge in the terms of the loop that draws it: with t0 = i/24 and
      t1 = (i+1)/24, the outer vertices lie at radius r = 50 + 230t, inside
      [50, 280], and angle 2pi*t, and the inner point lies at the mean angle
      and at 0.85 times the mean radius. */
  lemma WedgeGeometry(trig: Trig, arm: nat, i: nat, color: string, t0: real, t1: real, r0: real, r1: real,
                      a0: real, a1: real, rMid: real, aMid: real, p0: Point, p1: Point, pm: Point,
                      wedges: nat -> Primitive)
    requires DrawsArm(Wedge, trig, arm, wedges)
    requires color == SPIRAL_COLORS[arm % |SPIRAL_COLORS|]
    requires t0 == i as real / SEGMENTS_PER_ARM as real && t1 == (i + 1) as real / SEGMENTS_PER_ARM as real
    requires r0 == 50.0 + 230.0 * t0 && r1 == 50.0 + 230.0 * t1
    requires a0 == 2.0 * t0 && a1 == 2.0 * t1
    requires rMid == (r0 + r1) / 2.0 * 0.85 && aMid == (a0 + a1) / 2.0
    requires p0 == Polar(trig, CENTRE, r0, a0) && p1 == Polar(trig, CENTRE, r1, a1)
    requires pm == Polar(trig, CENTRE, rMid, aMid)
    ensures i < SEGMENTS_PER_ARM ==> 50.0 <= r0 < r1 <= 280.0
    ensures wedges(i) == Polygon(color, [p0, p1, pm])
  {
    var tMid := (Step(i) + Step(i + 1)) / 2.0;
    assert rMid == 0.85 * SpiralRadius(tMid);
    assert aMid == SpiralAngle(tMid);
    assert wedges(i) == Wedge(trig, arm, i);
  }

  /** A wedge of arm a, for a < 7, is a triangle in colour spiral_colors[a]. */
  lemma WedgeColor(trig: Trig, a: nat, i: nat)
    requires a < NUM_ARMS
    ensures IsTriangle(Wedge(trig, a, i)) && Wedge(trig, a, i).fill == SPIRAL_COLORS[a]
  {
  }

  /** 7 x 24 = 168 triangles; the wedges of arm a have colour
      spiral_colors[a]; within an arm, vertex 1 of a wedge is vertex 0 of the
      next one. */
  lemma SpiralLayerShape(trig: Trig)
    ensures |SpiralLayer(trig)| == 168
    ensures forall k :: 0 <= k < 168 ==>
              IsTriangle(SpiralLayer(trig)[k]) && SpiralLayer(trig)[k].fill == SPIRAL_COLORS[k / 24]
    ensures forall k :: 0 <= k < 167 && k % 24 != 23 ==>
              |SpiralLayer(trig)[k].pts| == 3 && |SpiralLayer(trig)[k + 1].pts| == 3 &&
              SpiralLayer(trig)[k].pts[1] == SpiralLayer(trig)[k + 1].pts[0]
  {
    ArmsRunAt(Wedge, trig, NUM_ARMS);
    forall k | 0 <= k < 168
      ensures IsTriangle(SpiralLayer(trig)[k]) && SpiralLayer(trig)[k].fill == SPIRAL_COLORS[k / 24]
    {
      WedgeColor(trig, k / 24, k % 24);
      assert SpiralLayer(trig)[k] == Wedge(trig, k / 24, k % 24);
    }
    forall k | 0 <= k < 167 && k % 24 != 23
      ensures SpiralLayer(trig)[k].pts[1] == SpiralLayer(trig)[k + 1].pts[0]
    {
      assert SpiralLayer(trig)[k] == Wedge(trig, k / 24, k % 24);
      assert SpiralLayer(trig)[k + 1] == Wedge(trig, k / 24, k % 24 + 1);
    }
  }

  /** The angle ignores the arm, so all seven arms draw the same 24 wedges,
      one over the other, and differ only in colour: only the last arm's
      colour stays visible. */
  lemma ArmsCoincide(trig: Trig)
    ensures forall a, b, i :: 0 <= a < NUM_ARMS && 0 <= b < NUM_ARMS && 0 <= i < SEGMENTS_PER_ARM ==>
              Wedge(trig, a, i).pts == Wedge(trig, b, i).pts
    ensures forall a, b :: 0 <= a < b < NUM_ARMS ==> SPIRAL_COLORS[a] != SPIRAL_COLORS[b]
  {
    forall a, b | 0 <= a < b < NUM_ARMS
      ensures SPIRAL_COLORS[a] != SPIRAL_COLORS[b]
    {
      assert SPIRAL_COLORS[a][1] != SPIRAL_COLORS[b][1] || SPIRAL_COLORS[a][2] != SPIRAL_COLORS[b][2];
    }
  }

  // ---------------------------------------------------------------------
  // Layer 3: square tiling

  const DIAMOND_SIZE: real := 12.6
  const DIAMOND_COLORS: seq<string> := ["#2a314d", "#3e405a", "#524f66"]
  /** `int(H / diamond_size) + 2` = `int(W / diamond_size) + 2`. */
  const DIAMOND_GRID: nat := 65

  /** The loop bound as the source computes it: int() of a positive number
      is its floor. */
  lemma GridBound()
    ensures (H as real / DIAMOND_SIZE).Floor + 2 == DIAMOND_GRID
    ensures (W as real / DIAMOND_SIZE).Floor + 2 == DIAMOND_GRID
  {
  }

  /** Centre x of a cell: odd rows are shifted by half a cell. */
  function CellX(c: Cell): real
  {
    c.col as real * DIAMOND_SIZE + (if c.row % 2 != 0 then DIAMOND_SIZE / 2.0 else 0.0)
  }

  /** Centre y of a cell. */
  function CellY(c: Cell): real
  {
    c.row as real * DIAMOND_SIZE
  }

  /** `cx > W + diamond_size or cy > H + diamond_size`. */
  predicate OffCanvas(c: Cell)
  {
    CellX(c) > W as real + DIAMOND_SIZE || CellY(c) > H as real + DIAMOND_SIZE
  }

  /** The two corners on side n (0 right, 1 bottom, 2 left, 3 top) of the
      square of half-width d centred on (x, y). */
  function SideCorners(x: real, y: real, d: real, n: nat): seq<Point>
    requires n < 4
  {
    if n == 0 then [Point(x + d, y + d), Point(x + d, y - d)]
    else if n == 1 then [Point(x + d, y + d), Point(x - d, y + d)]
    else if n == 2 then [Point(x - d, y + d), Point(x - d, y - d)]
    else [Point(x + d, y - d), Point(x - d, y - d)]
  }

  /** Triangle n of a cell: from the centre to the two corners of side n. */
  function SquareTriangle(c: Cell, n: nat): Primitive
    requires n < 4
  {
    var x, y := CellX(c), CellY(c);
    Polygon(DIAMOND_COLORS[(c.row + c.col) % 3], [Point(x, y)] + SideCorners(x, y, DIAMOND_SIZE / 2.0, n))
  }

  function SquareTriangles(c: Cell): seq<Primitive>
  {
    [SquareTriangle(c, 0), SquareTriangle(c, 1), SquareTriangle(c, 2), SquareTriangle(c, 3)]
  }

  function SquareTiles(): Cell -> seq<Primitive>
  {
    c => SquareTriangles(c)
  }

  /** What the walk over the grid draws. */
  function DiamondLayer(): seq<Primitive>
  {
    TilesBefore(DIAMOND_GRID, OffCanvas, SquareTiles(), DIAMOND_GRID, 0)
  }

  /** The cells the loop draws, in the order it draws them. */
  function VisitedCells(): seq<Cell>
  {
    Visited(DIAMOND_GRID, OffCanvas)
  }

  /** `tiles` gives every cell the four triangles of its square. */
  ghost predicate DrawsSquares(tiles: Cell -> seq<Primitive>)
  {
    forall c {:trigger SquareTriangles(c)} :: tiles(c) == SquareTriangles(c)
  }

  lemma SquaresDrawn()
    ensures DrawsSquares(SquareTiles())
  {
  }

  lemma DrawnSquaresAreDiamondLayer(tiles: Cell -> seq<Primitive>)
    requires DrawsSquares(tiles)
    ensures TilesBefore(DIAMOND_GRID, OffCanvas, tiles, DIAMOND_GRID, 0) == DiamondLayer()
  {
    forall c
      ensures tiles(c) == SquareTiles()(c)
    {
      assert SquareTiles()(c) == SquareTriangles(c);
    }
    TilesBeforeCongruent(DIAMOND_GRID, OffCanvas, tiles, SquareTiles(), DIAMOND_GRID, 0);
  }

  /** The row loop of `main`. */
  method AppendDiamonds(lines: seq<Primitive>) returns (res: seq<Primitive>)
    ensures res == lines + DiamondLayer()
  {
    res := lines;
    SquaresDrawn();
    ghost var tiles: Cell -> seq<Primitive> :| DrawsSquares(tiles);
    var diamondSize := DIAMOND_SIZE;
    var rows := (H as real / diamondSize).Floor + 2;
    GridBound();
    for row := 0 to rows
      invariant res == lines + TilesBefore(DIAMOND_GRID, OffCanvas, tiles, row, 0)
    {
      res := AppendDiamondRow(res, row, lines, tiles);
      TilesBeforeNextRow(DIAMOND_GRID, OffCanvas, tiles, row);
    }
    DrawnSquaresAreDiamondLayer(tiles);
  }

  /** The body of the row loop: the cells of one row, left to right. */
  method AppendDiamondRow(lines: seq<Primitive>, row: nat, ghost start: seq<Primitive>,
                          ghost tiles: Cell -> seq<Primitive>) returns (res: seq<Primitive>)
    requires DrawsSquares(tiles)
    requires lines == start + TilesBefore(DIAMOND_GRID, OffCanvas, tiles, row, 0)
    ensures res == start + TilesBefore(DIAMOND_GRID, OffCanvas, tiles, row, DIAMOND_GRID)
  {
    res := lines;
    var diamondSize := DIAMOND_SIZE;
    var cols := (W as real / diamondSize).Floor + 2;
    GridBound();
    for col := 0 to cols
      invariant res == start + TilesBefore(DIAMOND_GRID, OffCanvas, tiles, row, col)
    {
      res := AppendCell(res, row, col, start, tiles);
    }
  }

  /** The body of the column loop: a cell off the canvas is passed over
      (`continue`), any other is drawn. */
  method AppendCell(lines: seq<Primitive>, row: nat, col: nat, ghost start: seq<Primitive>,
                    ghost tiles: Cell -> seq<Primitive>) returns (res: seq<Primitive>)
    requires DrawsSquares(tiles) && col < DIAMOND_GRID
    requires lines == start + TilesBefore(DIAMOND_GRID, OffCanvas, tiles, row, col)
    ensures res == start + TilesBefore(DIAMOND_GRID, OffCanvas, tiles, row, col + 1)
  {
    res := lines;
    var diamondSize := DIAMOND_SIZE;
    var cx := col as real * diamondSize + (if row % 2 != 0 then diamondSize / 2.0 else 0.0);
    var cy := row as real * diamondSize;
    TilesBeforeNextCol(DIAMOND_GRID, OffCanvas, tiles, row, col);
    if !(cx > W as real + diamondSize || cy > H as real + diamondSize) {
      assert !OffCanvas(Cell(row, col));
      AppendAssoc(start, TilesBefore(DIAMOND_GRID, OffCanvas, tiles, row, col), tiles(Cell(row, col)));
      res := AppendSquare(res, row, col, cx, cy, tiles);
    }
  }

  /** The body of the column loop for a cell that is drawn: one triangle per
      direction (d, 0), (0, d), (-d, 0), (0, -d). */
  method AppendSquare(lines: seq<Primitive>, row: nat, col: nat, cx: real, cy: real,
                      ghost tiles: Cell -> seq<Primitive>) returns (res: seq<Primitive>)
    requires DrawsSquares(tiles)
    requires cx == CellX(Cell(row, col)) && cy == CellY(Cell(row, col))
    ensures res == lines + tiles(Cell(row, col))
  {
    res := lines;
    var color := DIAMOND_COLORS[(row + col) % 3];
    var d := DIAMOND_SIZE / 2.0;
    ghost var tris := SquareTriangles(Cell(row, col));
    var dirs := [(d, 0.0), (0.0, d), (-d, 0.0), (0.0, -d)];
    for n := 0 to |dirs|
      invariant res == lines + tris[..n]
    {
      var (dx, dy) := dirs[n];
      var v1: Point, v2: Point;
      if (if dx < 0.0 then -dx else dx) > 0.01 {
        v1 := Point(cx + dx, cy + d);
        v2 := Point(cx + dx, cy - d);
      } else {
        v1 := Point(cx + d, cy + dy);
        v2 := Point(cx - d, cy + dy);
      }
      SquareTriangleAt(row, col, n, cx, cy, d, dx, dy, color, v1, v2);
      PrefixSnoc(tris, n);
      AppendAssoc(lines, tris[..n], [tris[n]]);
      res := res + [Polygon(color, [Point(cx, cy), v1, v2])];
    }
    assert tris[..4] == tris;
  }

  /** Triangle n of cell (row, col), in the terms of the loop that draws it:
      direction n is (d, 0), (0, d), (-d, 0) or (0, -d), and the branch on
      |dx| > 0.01 picks the two corners of the square on that side. */
  lemma SquareTriangleAt(row: nat, col: nat, n: nat, cx: real, cy: real, d: real, dx: real, dy: real,
                         color: string, v1: Point, v2: Point)
    requires n < 4
    requires cx == CellX(Cell(row, col)) && cy == CellY(Cell(row, col)) && d == DIAMOND_SIZE / 2.0
    requires (dx, dy) == [(d, 0.0), (0.0, d), (-d, 0.0), (0.0, -d)][n]
    requires color == DIAMOND_COLORS[(row + col) % 3]
    requires (if dx < 0.0 then -dx else dx) > 0.01 ==> v1 == Point(cx + dx, cy + d) && v2 == Point(cx + dx, cy - d)
    requires !((if dx < 0.0 then -dx else dx) > 0.01) ==> v1 == Point(cx + d, cy + dy) && v2 == Point(cx - d, cy + dy)
    ensures SquareTriangles(Cell(row, col))[n] == Polygon(color, [Point(cx, cy), v1, v2])
  {
  }

  /** The four triangles of a cell fan out from its centre to the sides of
      the axis-aligned square (cx +- 6.3, cy +- 6.3): the outer edge of each
      is one full side, the four sides are different, and all four triangles
      share the cell's colour. */
  lemma SquareTrianglesCoverSquare(c: Cell)
    ensures |SquareTriangles(c)| == 4
    ensures forall n :: 0 <= n < 4 ==>
              var x, y, tri := CellX(c), CellY(c), SquareTriangles(c)[n];
              && IsTriangle(tri) && tri.fill == DIAMOND_COLORS[(c.row + c.col) % 3]
              && tri.pts[0] == Point(x, y)
              && (tri.pts[1].x == x + 6.3 || tri.pts[1].x == x - 6.3) && (tri.pts[1].y == y + 6.3 || tri.pts[1].y == y - 6.3)
              && (tri.pts[2].x == x + 6.3 || tri.pts[2].x == x - 6.3) && (tri.pts[2].y == y + 6.3 || tri.pts[2].y == y - 6.3)
              && ((tri.pts[1].x == tri.pts[2].x && tri.pts[1].y - tri.pts[2].y == 12.6) ||
                  (tri.pts[1].y == tri.pts[2].y && tri.pts[1].x - tri.pts[2].x == 12.6))
    ensures forall m, n :: 0 <= m < n < 4 ==>
              {SquareTriangles(c)[m].pts[1], SquareTriangles(c)[m].pts[2]} != {SquareTriangles(c)[n].pts[1], SquareTriangles(c)[n].pts[2]}
  {
  }

  /** The loop bounds give a 65 x 65 grid, and inside it a cell is off the
      canvas exactly when it is the last one of an odd row. */
  lemma OffCanvasExactly(c: Cell)
    requires c.row < DIAMOND_GRID && c.col < DIAMOND_GRID
    ensures OffCanvas(c) <==> c.row % 2 == 1 && c.col == 64
  {
    if c.row % 2 != 0 {
      assert CellX(c) == c.col as real * 12.6 + 6.3;
    } else {
      assert CellX(c) == c.col as real * 12.6;
    }
  }

  /** Cell n of the walk: every pair of rows holds 65 cells of the even row
      and then 64 of the odd one, so cell n lies in pair n / 129. */
  function DiamondCell(n: nat): Cell
  {
    var q, r := n / 129, n % 129;
    if r < 65 then Cell(2 * q, r) else Cell(2 * q + 1, r - 65)
  }

  /** `skip` leaves out, of the 65 x 65 grid, exactly the last cell of each
      odd row, as OffCanvas does (OffCanvasExactly). */
  ghost predicate SkipsOddRowEnds(skip: Cell -> bool)
  {
    forall c: Cell :: c.row < 65 && c.col < 65 ==> (skip(c) <==> c.row % 2 == 1 && c.col == 64)
  }

  /** How many cells the walk has visited before (row, col). */
  lemma {:induction false} VisitedBeforeCount(skip: Cell -> bool, row: nat, col: nat)
    requires SkipsOddRowEnds(skip)
    requires col <= 65 && (row < 65 || (row == 65 && col == 0))
    ensures |VisitedBefore(65, skip, row, col)| == 65 * row - row / 2 + col - (if row % 2 == 1 && col == 65 then 1 else 0)
    decreases row, col
  {
    if col == 0 {
      if row > 0 {
        VisitedBeforeCount(skip, row - 1, 65);
      }
    } else {
      VisitedBeforeCount(skip, row, col - 1);
    }
  }

  /** `at` numbers the cells as DiamondCell does. The lemma below reasons
      about such an `at` without looking into the division. */
  ghost predicate NumbersCells(at: nat -> Cell)
  {
    forall n {:trigger DiamondCell(n)} :: at(n) == DiamondCell(n)
  }

  /** Which cells the walk has visited before (row, col): the n-th is
      DiamondCell(n). */
  lemma {:induction false} VisitedBeforeAt(skip: Cell -> bool, at: nat -> Cell, row: nat, col: nat)
    requires SkipsOddRowEnds(skip) && NumbersCells(at)
    requires col <= 65 && (row < 65 || (row == 65 && col == 0))
    ensures forall n :: 0 <= n < |VisitedBefore(65, skip, row, col)| ==> VisitedBefore(65, skip, row, col)[n] == at(n)
    decreases row, col
  {
    if col == 0 {
      if row > 0 {
        VisitedBeforeAt(skip, at, row - 1, 65);
        assert VisitedBefore(65, skip, row, 0) == VisitedBefore(65, skip, row - 1, 65);
      }
    } else {
      var prev := VisitedBefore(65, skip, row, col - 1);
      var c := Cell(row, col - 1);
      VisitedBeforeAt(skip, at, row, col - 1);
      if row % 2 == 1 && col == 65 {
        assert VisitedBefore(65, skip, row, col) == prev;
      } else {
        var cur := VisitedBefore(65, skip, row, col);
        assert !skip(c);
        assert cur == prev + [c];
        VisitedBeforeCount(skip, row, col - 1);
        assert at(|prev|) == c by {
          var q := row / 2;
          assert at(|prev|) == DiamondCell(|prev|);
          if row % 2 == 0 {
            assert |prev| == 129 * q + (col - 1);
            PairDivMod(q, col - 1);
          } else {
            assert |prev| == 129 * q + 65 + (col - 1);
            PairDivMod(q, 65 + col - 1);
          }
        }
        forall n | 0 <= n < |cur|
          ensures cur[n] == at(n)
        {
          if n < |prev| {
            assert cur[n] == prev[n];
          } else {
            assert n == |prev| && cur[n] == c;
          }
        }
      }
    }
  }

  lemma PairDivMod(q: nat, r: nat)
    requires r < 129
    ensures (129 * q + r) / 129 == q && (129 * q + r) % 129 == r
  {
  }

  /** 65 x 65 cells less the last one of each of the 32 odd rows: 4193
      cells, each visited once, in row-major order. */
  lemma VisitedCellsShape()
    ensures |VisitedCells()| == 4193
    ensures forall n :: 0 <= n < 4193 ==> VisitedCells()[n] == DiamondCell(n)
    ensures forall c :: c in VisitedCells() <==> c.row < 65 && c.col < 65 && !(c.row % 2 == 1 && c.col == 64)
    ensures forall i, j :: 0 <= i < j < |VisitedCells()| ==> Earlier(VisitedCells()[i], VisitedCells()[j])
  {
    forall c: Cell | c.row < 65 && c.col < 65
      ensures OffCanvas(c) <==> c.row % 2 == 1 && c.col == 64
    {
      OffCanvasExactly(c);
    }
    VisitedBeforeCount(OffCanvas, 65, 0);
    VisitedBeforeAt(OffCanvas, (n: nat) => DiamondCell(n), 65, 0);
    VisitedBeforeOrdered(DIAMOND_GRID, OffCanvas, DIAMOND_GRID, 0);
    forall c
      ensures c in VisitedCells() <==> c.row < 65 && c.col < 65 && !(c.row % 2 == 1 && c.col == 64)
    {
      VisitedBeforeMembers(DIAMOND_GRID, OffCanvas, DIAMOND_GRID, 0, c);
      if c.row < 65 && c.col < 65 {
        OffCanvasExactly(c);
      }
    }
  }

  /** Any drawing of four triangles per cell, walked over the grid: position
      k holds triangle k % 4 of cell k / 4. */
  lemma DiamondWalkAt(tiles: Cell -> seq<Primitive>)
    requires forall c :: |tiles(c)| == 4
    ensures |TilesBefore(DIAMOND_GRID, OffCanvas, tiles, DIAMOND_GRID, 0)| == 16772
    ensures forall k :: 0 <= k < 16772 ==>
              TilesBefore(DIAMOND_GRID, OffCanvas, tiles, DIAMOND_GRID, 0)[k] == tiles(DiamondCell(k / 4))[k % 4]
  {
    TilesBeforeVisited(DIAMOND_GRID, OffCanvas, tiles, DIAMOND_GRID, 0);
    VisitedCellsShape();
    TilesAt(tiles, VisitedCells());
  }

  lemma SquareTrianglesAt(c: Cell, n: nat)
    requires n < 4
    ensures SquareTriangles(c)[n] == SquareTriangle(c, n)
    ensures IsTriangle(SquareTriangle(c, n)) && SquareTriangle(c, n).fill == DIAMOND_COLORS[(c.row + c.col) % 3]
  {
  }

  /** The tiling: 4193 cells of 4 triangles; triangle k is triangle k % 4 of
      cell DiamondCell(k / 4), in that cell's colour diamond_colors[(row + col) % 3]. */
  lemma DiamondLayerShape()
    ensures |DiamondLayer()| == 16772
    ensures forall k :: 0 <= k < 16772 ==> DiamondLayer()[k] == SquareTriangle(DiamondCell(k / 4), k % 4)
    ensures forall k :: 0 <= k < 16772 ==>
              && IsTriangle(DiamondLayer()[k])
              && DiamondLayer()[k].fill == DIAMOND_COLORS[(DiamondCell(k / 4).row + DiamondCell(k / 4).col) % 3]
  {
    DiamondWalkAt(SquareTiles());
    forall k | 0 <= k < 16772
      ensures var c := DiamondCell(k / 4);
              && DiamondLayer()[k] == SquareTriangle(c, k % 4)
              && IsTriangle(DiamondLayer()[k]) && DiamondLayer()[k].fill == DIAMOND_COLORS[(c.row + c.col) % 3]
    {
      SquareTrianglesAt(DiamondCell(k / 4), k % 4);
    }
  }

  // ---------------------------------------------------------------------
  // Layer 4: textured panels

  /** The six `textri` lines, written out with literal corners. */
  function PanelLayer(): seq<Primitive>
  {
    [ TexTri("map", [UV(0.2, 0.25), UV(0.55, 0.25), UV(0.55, 0.6)], [Point(120.0, 464.0), Point(340.0, 464.0), Point(340.0, 624.0)]),
      TexTri("map", [UV(0.2, 0.25), UV(0.55, 0.6), UV(0.2, 0.6)], [Point(120.0, 464.0), Point(340.0, 624.0), Point(120.0, 624.0)]),
      TexTri("map", [UV(0.5, 0.1), UV(0.9, 0.1), UV(0.9, 0.5)], [Point(416.0, 496.0), Point(596.0, 496.0), Point(596.0, 626.0)]),
      TexTri("map", [UV(0.5, 0.1), UV(0.9, 0.5), UV(0.5, 0.5)], [Point(416.0, 496.0), Point(596.0, 626.0), Point(416.0, 626.0)]),
      TexTri("map", [UV(0.1, 0.6), UV(0.35, 0.6), UV(0.35, 0.9)], [Point(544.0, 416.0), Point(634.0, 416.0), Point(634.0, 511.0)]),
      TexTri("map", [UV(0.1, 0.6), UV(0.35, 0.9), UV(0.1, 0.9)], [Point(544.0, 416.0), Point(634.0, 511.0), Point(544.0, 511.0)]) ]
  }

  /** Corner m (top-left, top-right, bottom-right, bottom-left) of panel p. */
  function PanelCorner(p: nat, m: nat): Point
    requires p < 3 && m < 4
  {
    var r := [(120.0, 464.0, 340.0, 624.0), (416.0, 496.0, 596.0, 626.0), (544.0, 416.0, 634.0, 511.0)][p];
    [Point(r.0, r.1), Point(r.2, r.1), Point(r.2, r.3), Point(r.0, r.3)][m]
  }

  /** The texture coordinate of corner m of panel p: each panel samples an
      axis-aligned rectangle of the texture. */
  function PanelUV(p: nat, m: nat): UV
    requires p < 3 && m < 4
  {
    var r := [(0.2, 0.25, 0.55, 0.6), (0.5, 0.1, 0.9, 0.5), (0.1, 0.6, 0.35, 0.9)][p];
    [UV(r.0, r.1), UV(r.2, r.1), UV(r.2, r.3), UV(r.0, r.3)][m]
  }

  /** Six textured triangles on texture "map", in three pairs; pair p cuts
      rectangle p along its diagonal TL-BR, into (TL, TR, BR) and
      (TL, BR, BL), and every corner carries one texture coordinate in both
      triangles of its pair. */
  lemma PanelLayerShape()
    ensures |PanelLayer()| == 6
    ensures forall n :: 0 <= n < 6 ==>
              PanelLayer()[n].TexTri? && PanelLayer()[n].texid == "map" &&
              |PanelLayer()[n].pts| == 3 && |PanelLayer()[n].uvs| == 3
    ensures forall p :: 0 <= p < 3 ==>
              && PanelLayer()[2 * p].pts == [PanelCorner(p, 0), PanelCorner(p, 1), PanelCorner(p, 2)]
              && PanelLayer()[2 * p].uvs == [PanelUV(p, 0), PanelUV(p, 1), PanelUV(p, 2)]
              && PanelLayer()[2 * p + 1].pts == [PanelCorner(p, 0), PanelCorner(p, 2), PanelCorner(p, 3)]
              && PanelLayer()[2 * p + 1].uvs == [PanelUV(p, 0), PanelUV(p, 2), PanelUV(p, 3)]
    ensures forall p :: 0 <= p < 3 ==>
              PanelCorner(p, 0).x < PanelCorner(p, 2).x && PanelCorner(p, 0).y < PanelCorner(p, 2).y
  {
  }

  // ---------------------------------------------------------------------
  // Layer 5: hills and accents

  function HillLayer(): seq<Primitive>
  {
    var w, h := W as real, H as real;
    [ Polygon("#1e293b", [Point(0.0, 420.0), Point(120.0, 380.0), Point(280.0, 400.0), Point(450.0, 360.0),
                          Point(600.0, 390.0), Point(w, 370.0), Point(w, h), Point(0.0, h)]),
      Polygon("#334155", [Point(0.0, 520.0), Point(200.0, 460.0), Point(400.0, 500.0), Point(550.0, 450.0),
                          Point(720.0, 480.0), Point(w, 440.0), Point(w, h), Point(0.0, h)]),
      Polygon("#0f172a", [Point(0.0, 620.0), Point(80.0, 580.0), Point(240.0, 610.0), Point(380.0, 560.0),
                          Point(520.0, 600.0), Point(680.0, 570.0), Point(w, 590.0), Point(w, h), Point(0.0, h)]) ]
  }

  function AccentLayer(): seq<Primitive>
  {
    [ Polygon("#4ade80", [Point(120.0, 680.0), Point(155.0, 600.0), Point(190.0, 680.0)]),
      Polygon("#38bdf8", [Point(380.0, 690.0), Point(415.0, 610.0), Point(450.0, 690.0)]),
      Polygon("#f97316", [Point(600.0, 685.0), Point(635.0, 615.0), Point(670.0, 685.0)]) ]
  }

  /** Three hill outlines of 8, 8 and 9 vertices, each closed along the
      bottom edge by (W, H), (0, H). */
  lemma HillLayerShape()
    ensures |HillLayer()| == 3 && AllSolid(HillLayer())
    ensures |HillLayer()[0].pts| == 8 && |HillLayer()[1].pts| == 8 && |HillLayer()[2].pts| == 9
    ensures forall n :: 0 <= n < 3 ==>
              var pts := HillLayer()[n].pts;
              |pts| >= 2 && pts[|pts| - 2] == Point(W as real, H as real) && pts[|pts| - 1] == Point(0.0, H as real)
  {
  }

  /** Three triangles, each with its base on one horizontal line, its apex
      above the base and horizontally at the base's midpoint. */
  lemma AccentLayerShape()
    ensures |AccentLayer()| == 3 && AllSolid(AccentLayer())
    ensures forall n :: 0 <= n < 3 ==>
              var pts := AccentLayer()[n].pts;
              && IsTriangle(AccentLayer()[n])
              && pts[0].y == pts[2].y && pts[1].y < pts[0].y
              && pts[1].x == (pts[0].x + pts[2].x) / 2.0
  {
  }

  // ---------------------------------------------------------------------
  // The whole document

  function SceneLayers(trig: Trig): seq<Primitive>
  {
    BackgroundLayer() + SpiralLayer(trig) + DiamondLayer() + PanelLayer() + HillLayer() + AccentLayer()
  }

  /** `main`: the initial list (texture and background), the spiral and
      tiling loops, then the panels, hills and accents. */
  method Generate(trig: Trig) returns (textures: seq<Texture>, lines: seq<Primitive>)
    ensures textures == [MAP_TEXTURE]
    ensures lines == SceneLayers(trig)
  {
    textures := [Texture(TEX_PATH, "map")];
    ghost var bg, sp, dm := BackgroundLayer(), SpiralLayer(trig), DiamondLayer();
    lines := BackgroundLayer();
    lines := AppendSpiral(lines, trig);
    lines := AppendDiamonds(lines);
    assert lines == bg + sp + dm;
    lines := lines + PanelLayer() + HillLayer() + AccentLayer();
  }

  /** The layers' sizes and kinds: only the panels are textured. */
  lemma LayerKinds(trig: Trig)
    ensures |BackgroundLayer()| == 4 && AllSolid(BackgroundLayer())
    ensures |SpiralLayer(trig)| == 168 && AllSolid(SpiralLayer(trig))
    ensures |DiamondLayer()| == 16772 && AllSolid(DiamondLayer())
    ensures |PanelLayer()| == 6 && AllTextured(PanelLayer(), MAP_TEXTURE.texid)
    ensures |HillLayer()| == 3 && AllSolid(HillLayer())
    ensures |AccentLayer()| == 3 && AllSolid(AccentLayer())
  {
    assert |BackgroundLayer()| == 4 && AllSolid(BackgroundLayer()) by {
      BackgroundLayerShape();
    }
    assert |HillLayer()| == 3 && AllSolid(HillLayer()) by {
      HillLayerShape();
    }
    assert |AccentLayer()| == 3 && AllSolid(AccentLayer()) by {
      AccentLayerShape();
    }
    assert |SpiralLayer(trig)| == 168 && AllSolid(SpiralLayer(trig)) by {
      SpiralLayerShape(trig);
    }
    assert |DiamondLayer()| == 16772 && AllSolid(DiamondLayer()) by {
      DiamondLayerShape();
    }
    assert AllTextured(PanelLayer(), MAP_TEXTURE.texid) by {
      PanelLayerShape();
    }
  }

  /** 4 + 168 + 16772 + 6 + 3 + 3 = 16956 primitives. The six textured
      triangles sit at positions 16944..16949, between the tiling and the
      hills, and use the one declared texture. */
  lemma SceneLayout(trig: Trig)
    ensures |SceneLayers(trig)| == 16956
    ensures forall n :: 0 <= n < 16956 ==> (SceneLayers(trig)[n].TexTri? <==> 16944 <= n < 16950)
    ensures forall n :: 0 <= n < 16956 && SceneLayers(trig)[n].TexTri? ==> SceneLayers(trig)[n].texid == MAP_TEXTURE.texid
  {
    LayerKinds(trig);
    var bg, sp, dm, pn, hl, ac := BackgroundLayer(), SpiralLayer(trig), DiamondLayer(), PanelLayer(), HillLayer(), AccentLayer();
    SolidConcat(bg, sp);
    SolidConcat(bg + sp, dm);
    SolidConcat(hl, ac);
    TexturedBand(bg + sp + dm, pn, hl + ac, MAP_TEXTURE.texid);
    assert SceneLayers(trig) == bg + sp + dm + pn + (hl + ac);
  }

  /** The document starts with the sky and ends with the twelve primitives of
      the panels, hills and accents. */
  lemma SceneFrame(trig: Trig)
    ensures |SceneLayers(trig)| == 16956
    ensures SceneLayers(trig)[..4] == BackgroundLayer() && SceneLayers(trig)[16944..] == PanelLayer() + HillLayer() + AccentLayer()
  {
    var bg, sp, dm, pn, hl, ac := BackgroundLayer(), SpiralLayer(trig), DiamondLayer(), PanelLayer(), HillLayer(), AccentLayer();
    assert |bg| == 4 && |sp| == 168 && |dm| == 16772 && |pn| == 6 && |hl| == 3 && |ac| == 3 by {
      LayerKinds(trig);
    }
    LayerEnds(bg, sp, dm, pn, hl, ac);
  }
}
