/** The generator variant that streams its primitives straight into the output
    file (hw1/svg_competition.py). The file's contents are a sequence of
    primitives that each emit operation and each layer loop extends; every
    method is proved to append exactly the layer that the specification
    functions below describe. */
module SvgCompetition {
  import opened Primitives
  import opened HexFormat
  import opened TileGrid

  /** `emit_triangle`: one solid triangle, written after what `out` holds. */
  method EmitTriangle(out: seq<Primitive>, p0: Point, p1: Point, p2: Point, fill: string) returns (res: seq<Primitive>)
    ensures res == out + [Polygon(fill, [p0, p1, p2])]
  {
    res := out + [Polygon(fill, [p0, p1, p2])];
  }

  // ---------------------------------------------------------------------
  // Textured quads

  /** The two textured triangles a quad is cut into: corners (0,1,2) and
      (0,2,3), each point carrying the uv of its own corner. */
  function QuadSplit(texid: string, corners: seq<Point>, uvs: seq<UV>): seq<Primitive>
    requires |corners| >= 4 && |uvs| >= 4
  {
    [ TexTri(texid, [uvs[0], uvs[1], uvs[2]], [corners[0], corners[1], corners[2]]),
      TexTri(texid, [uvs[0], uvs[2], uvs[3]], [corners[0], corners[2], corners[3]]) ]
  }

  /** Corner index used at slot m of triangle t of a quad. */
  function FanCorner(t: nat, m: nat): (c: nat)
    requires t < 2 && m < 3
    ensures c < 4
  {
    if t == 0 then m else if m == 0 then 0 else m + 1
  }

  /** `emit_textured_quad`: the loop over the index triples (0,1,2), (0,2,3). */
  method EmitTexturedQuad(out: seq<Primitive>, texid: string, corners: seq<Point>, uvs: seq<UV>) returns (res: seq<Primitive>)
    requires |corners| >= 4 && |uvs| >= 4
    ensures res == out + QuadSplit(texid, corners, uvs)
  {
    res := out;
    var fan := [(0, 1, 2), (0, 2, 3)];
    for n := 0 to |fan|
      invariant res == out + QuadSplit(texid, corners, uvs)[..n]
    {
      var (i, j, k) := fan[n];
      res := res + [TexTri(texid, [uvs[i], uvs[j], uvs[k]], [corners[i], corners[j], corners[k]])];
    }
  }

  /** Exactly two textured triangles, and in both of them point slot m and uv
      slot m come from one and the same corner. */
  lemma QuadSplitPairsByCorner(texid: string, corners: seq<Point>, uvs: seq<UV>)
    requires |corners| >= 4 && |uvs| >= 4
    ensures |QuadSplit(texid, corners, uvs)| == 2
    ensures forall t :: 0 <= t < 2 ==>
              var tri := QuadSplit(texid, corners, uvs)[t];
              tri.TexTri? && tri.texid == texid && |tri.pts| == 3 && |tri.uvs| == 3
    ensures forall t, m :: 0 <= t < 2 && 0 <= m < 3 ==>
              && QuadSplit(texid, corners, uvs)[t].pts[m] == corners[FanCorner(t, m)]
              && QuadSplit(texid, corners, uvs)[t].uvs[m] == uvs[FanCorner(t, m)]
  {
  }

  /** The two triangles together use all four corners and share exactly the
      diagonal 0-2. */
  lemma QuadFanCoversCorners()
    ensures (set m | 0 <= m < 3 :: FanCorner(0, m)) == {0, 1, 2}
    ensures (set m | 0 <= m < 3 :: FanCorner(1, m)) == {0, 2, 3}
    ensures (set t, m | 0 <= t < 2 && 0 <= m < 3 :: FanCorner(t, m)) == {0, 1, 2, 3}
  {
    assert FanCorner(0, 0) == 0 && FanCorner(0, 1) == 1 && FanCorner(0, 2) == 2;
    assert FanCorner(1, 0) == 0 && FanCorner(1, 1) == 2 && FanCorner(1, 2) == 3;
  }

  /** The corners of the axis-aligned rectangle at (x0, y0) of size w x h,
      in the order top-left, top-right, bottom-right, bottom-left. */
  function RectCorners(x0: real, y0: real, w: real, h: real): seq<Point>
  {
    [Point(x0, y0), Point(x0 + w, y0), Point(x0 + w, y0 + h), Point(x0, y0 + h)]
  }

  /** Four uvs spanning a rectangle of the texture in the order of
      RectCorners: u grows from left to right and v from top to bottom. */
  predicate RectUVs(uvs: seq<UV>)
  {
    && |uvs| == 4
    && uvs[0].u == uvs[3].u && uvs[0].u < uvs[1].u && uvs[1].u == uvs[2].u
    && uvs[0].v == uvs[1].v && uvs[0].v < uvs[2].v && uvs[2].v == uvs[3].v
  }

  /** For a rectangle that is not degenerate, a point of either triangle
      determines its uv: equal points carry equal uvs. */
  lemma RectSplitConsistent(texid: string, x0: real, y0: real, w: real, h: real, uvs: seq<UV>)
    requires w != 0.0 && h != 0.0 && |uvs| >= 4
    ensures forall t1, m1, t2, m2 ::
              && 0 <= t1 < 2 && 0 <= m1 < 3 && 0 <= t2 < 2 && 0 <= m2 < 3
              && QuadSplit(texid, RectCorners(x0, y0, w, h), uvs)[t1].pts[m1] ==
                 QuadSplit(texid, RectCorners(x0, y0, w, h), uvs)[t2].pts[m2]
              ==>
              QuadSplit(texid, RectCorners(x0, y0, w, h), uvs)[t1].uvs[m1] ==
              QuadSplit(texid, RectCorners(x0, y0, w, h), uvs)[t2].uvs[m2]
  {
    var corners := RectCorners(x0, y0, w, h);
    QuadSplitPairsByCorner(texid, corners, uvs);
    assert forall c1, c2 :: 0 <= c1 < 4 && 0 <= c2 < 4 && corners[c1] == corners[c2] ==> c1 == c2;
  }

  // ---------------------------------------------------------------------
  // Layer 1: background

  const SKY_TOP: string := "#0a0e1a"
  const SKY_BOTTOM: string := "#141c28"

  function BackgroundLayer(): seq<Primitive>
  {
    var w, h := W as real, H as real;
    [ Polygon(SKY_TOP, [Point(0.0, 0.0), Point(w, 0.0), Point(0.0, h * 0.5)]),
      Polygon(SKY_TOP, [Point(w, 0.0), Point(w, h * 0.5), Point(0.0, h * 0.5)]),
      Polygon(SKY_BOTTOM, [Point(0.0, h * 0.5), Point(w, h * 0.5), Point(0.0, h)]),
      Polygon(SKY_BOTTOM, [Point(w, h * 0.5), Point(w, h), Point(0.0, h)]) ]
  }

  method EmitBackground(out: seq<Primitive>) returns (res: seq<Primitive>)
    ensures res == out + BackgroundLayer()
  {
    var w, h := W as real, H as real;
    res := EmitTriangle(out, Point(0.0, 0.0), Point(w, 0.0), Point(0.0, h * 0.5), SKY_TOP);
    res := EmitTriangle(res, Point(w, 0.0), Point(w, h * 0.5), Point(0.0, h * 0.5), SKY_TOP);
    res := EmitTriangle(res, Point(0.0, h * 0.5), Point(w, h * 0.5), Point(0.0, h), SKY_BOTTOM);
    res := EmitTriangle(res, Point(w, h * 0.5), Point(w, h), Point(0.0, h), SKY_BOTTOM);
  }

  /** The four canvas corners and the two ends of the horizontal midline. */
  function BackgroundAnchors(): set<Point>
  {
    var w, h := W as real, H as real;
    {Point(0.0, 0.0), Point(w, 0.0), Point(0.0, h), Point(w, h), Point(0.0, h * 0.5), Point(w, h * 0.5)}
  }

  /** Four triangles: the upper two in the dark sky colour with no vertex below
      the midline, the lower two in the lighter one with no vertex above it;
      every vertex is a canvas corner or a midline end, and every such anchor
      is used. */
  lemma BackgroundSplitsAtMidline()
    ensures |BackgroundLayer()| == 4
    ensures forall n :: 0 <= n < 4 ==> IsTriangle(BackgroundLayer()[n])
    ensures forall n, m :: 0 <= n < 2 && 0 <= m < 3 ==>
              BackgroundLayer()[n].fill == SKY_TOP && BackgroundLayer()[n].pts[m].y <= H as real * 0.5
    ensures forall n, m :: 2 <= n < 4 && 0 <= m < 3 ==>
              BackgroundLayer()[n].fill == SKY_BOTTOM && BackgroundLayer()[n].pts[m].y >= H as real * 0.5
    ensures (set n, m | 0 <= n < 4 && 0 <= m < 3 :: BackgroundLayer()[n].pts[m]) == BackgroundAnchors()
  {
    var bg := BackgroundLayer();
    var used := set n, m | 0 <= n < 4 && 0 <= m < 3 :: bg[n].pts[m];
    assert bg[0].pts[0] in used && bg[0].pts[1] in used && bg[0].pts[2] in used;
    assert bg[1].pts[1] in used && bg[3].pts[1] in used && bg[3].pts[2] in used;
  }

  // ---------------------------------------------------------------------
  // Layer 2: spiral

  const NUM_ARMS: nat := 7
  const TRIANGLES_PER_ARM: nat := 24
  const SPIRAL_COLORS: seq<string> :=
    ["#3b82f6", "#8b5cf6", "#ec4899", "#f43f5e", "#f97316", "#eab308", "#22c55e"]
  const SPIRAL_CENTRE: Point := Point(W as real * 0.5, H as real * 0.45)

  /** The parameter t of step j along an arm (0 at the start, 1 at the end). */
  function Step(j: nat): real
  {
    j as real / TRIANGLES_PER_ARM as real
  }

  /** Radius at parameter t: 40 at the start of an arm, 260 at its end. */
  function SpiralRadius(t: real): real
  {
    40.0 + t * 220.0
  }

  /** Angle (a multiple of pi) of arm `arm` at parameter t: the arms start
      2pi/7 apart and each sweeps two full turns. */
  function SpiralAngle(arm: nat, t: real): real
  {
    2.0 * arm as real / NUM_ARMS as real + t * 4.0
  }

  /** The point of arm `arm` on its outer curve at step j. */
  function OuterPoint(trig: Trig, arm: nat, j: nat): Point
  {
    Polar(trig, SPIRAL_CENTRE, SpiralRadius(Step(j)), SpiralAngle(arm, Step(j)))
  }

  /** The pinch point of wedge i: halfway along the wedge, 15 units inward. */
  function PinchPoint(trig: Trig, arm: nat, i: nat): Point
  {
    var tMid := (Step(i) + Step(i + 1)) / 2.0;
    Polar(trig, SPIRAL_CENTRE, SpiralRadius(tMid) - 15.0, SpiralAngle(arm, tMid))
  }

  /** Wedge i of arm `arm`. */
  function Wedge(trig: Trig, arm: nat, i: nat): Primitive
  {
    Polygon(SPIRAL_COLORS[arm % |SPIRAL_COLORS|], [OuterPoint(trig, arm, i), OuterPoint(trig, arm, i + 1), PinchPoint(trig, arm, i)])
  }

  function SpiralLayer(trig: Trig): seq<Primitive>
  {
    ArmsRun(Wedge, trig, NUM_ARMS)
  }

  method EmitSpiral(out: seq<Primitive>, trig: Trig) returns (res: seq<Primitive>)
    ensures res == out + SpiralLayer(trig)
  {
    res := out;
    var cx, cy := W as real * 0.5, H as real * 0.45;
    for arm := 0 to NUM_ARMS
      invariant res == out + ArmsRun(Wedge, trig, arm)
    {
      AppendAssoc(out, ArmsRun(Wedge, trig, arm), ArmRun(Wedge, trig, arm, TRIANGLES_PER_ARM));
      res := EmitArm(res, trig, arm, cx, cy);
    }
  }

  /** The body of the arm loop: the 24 wedges of one arm, inside out. */
  method EmitArm(out: seq<Primitive>, trig: Trig, arm: nat, cx: real, cy: real) returns (res: seq<Primitive>)
    requires cx == W as real * 0.5 && cy == H as real * 0.45
    ensures res == out + ArmRun(Wedge, trig, arm, TRIANGLES_PER_ARM)
  {
    res := out;
    ArmDrawn(Wedge, trig, arm);
    ghost var wedges: nat -> Primitive :| DrawsArm(Wedge, trig, arm, wedges);
    var baseAngle := 2.0 * arm as real / NUM_ARMS as real;
    var color := SPIRAL_COLORS[arm % |SPIRAL_COLORS|];
    for i := 0 to TRIANGLES_PER_ARM
      invariant res == out + Run(wedges, i)
    {
      AppendAssoc(out, Run(wedges, i), [wedges(i)]);
      res := EmitWedge(res, trig, arm, i, baseAngle, color, cx, cy, wedges);
    }
    DrawnArmIsArmRun(Wedge, trig, arm, wedges, TRIANGLES_PER_ARM);
  }

  /** The body of the segment loop: wedge i of the arm. */
  method EmitWedge(out: seq<Primitive>, trig: Trig, arm: nat, i: nat, baseAngle: real, color: string,
                   cx: real, cy: real, ghost wedges: nat -> Primitive) returns (res: seq<Primitive>)
    requires DrawsArm(Wedge, trig, arm, wedges)
    requires cx == W as real * 0.5 && cy == H as real * 0.45
    requires baseAngle == 2.0 * arm as real / NUM_ARMS as real && color == SPIRAL_COLORS[arm % |SPIRAL_COLORS|]
    ensures res == out + [wedges(i)]
  {
    var t0 := i as real / TRIANGLES_PER_ARM as real;
    var t1 := (i + 1) as real / TRIANGLES_PER_ARM as real;
    var r0 := 40.0 + t0 * 220.0;
    var r1 := 40.0 + t1 * 220.0;
    var a0 := baseAngle + t0 * 4.0;
    var a1 := baseAngle + t1 * 4.0;
    var r2 := r0 + (r1 - r0) * 0.5;
    var a2 := (a0 + a1) / 2.0;
    var p0 := Polar(trig, Point(cx, cy), r0, a0);
    var p1 := Polar(trig, Point(cx, cy), r1, a1);
    var p2 := Polar(trig, Point(cx, cy), r2 - 15.0, a2);
    WedgeGeometry(trig, arm, i, color, t0, t1, r0, r1, a0, a1, r2, a2, p0, p1, p2, wedges);
    res := EmitTriangle(out, p0, p1, p2, color);
  }

  /** One wedge in the terms of the loop that emits it: with t0 = i/24 and
      t1 = (i+1)/24, the outer vertices lie at radius r = 40 + 220t and angle
      a = 2pi*arm/7 + 4pi*t, both radii lie within [40, 260], and the pinch
      point lies at the mean angle and at the mean radius less 15. */
  lemma WedgeGeometry(trig: Trig, arm: nat, i: nat, color: string, t0: real, t1: real, r0: real, r1: real,
                      a0: real, a1: real, r2: real, a2: real, p0: Point, p1: Point, p2: Point,
                      wedges: nat -> Primitive)
    requires DrawsArm(Wedge, trig, arm, wedges)
    requires color == SPIRAL_COLORS[arm % |SPIRAL_COLORS|]
    requires t0 == i as real / TRIANGLES_PER_ARM as real && t1 == (i + 1) as real / TRIANGLES_PER_ARM as real
    requires r0 == 40.0 + t0 * 220.0 && r1 == 40.0 + t1 * 220.0
    requires a0 == 2.0 * arm as real / NUM_ARMS as real + t0 * 4.0
    requires a1 == 2.0 * arm as real / NUM_ARMS as real + t1 * 4.0
    requires p0 == Polar(trig, Point(W as real * 0.5, H as real * 0.45), r0, a0)
    requires p1 == Polar(trig, Point(W as real * 0.5, H as real * 0.45), r1, a1)
    requires r2 == r0 + (r1 - r0) * 0.5 && a2 == (a0 + a1) / 2.0
    requires p2 == Polar(trig, Point(W as real * 0.5, H as real * 0.45), r2 - 15.0, a2)
    ensures i < TRIANGLES_PER_ARM ==> 40.0 <= r0 < r1 <= 260.0
    ensures wedges(i) == Polygon(color, [p0, p1, p2])
  {
    var tMid := (Step(i) + Step(i + 1)) / 2.0;
    assert r2 - 15.0 == SpiralRadius(tMid) - 15.0;
    assert a2 == SpiralAngle(arm, tMid);
    assert wedges(i) == Wedge(trig, arm, i);
  }

  /** A wedge of arm a, for a < 7, is a triangle in colour spiral_colors[a]. */
  lemma WedgeColor(trig: Trig, a: nat, i: nat)
    requires a < NUM_ARMS
    ensures IsTriangle(Wedge(trig, a, i)) && Wedge(trig, a, i).fill == SPIRAL_COLORS[a]
  {
  }

  /** 7 x 24 = 168 triangles; the wedges of arm a all have colour
      spiral_colors[a % 7]; within an arm, vertex 1 of a wedge is vertex 0 of
      the next one. */
  lemma SpiralLayerShape(trig: Trig)
    ensures |SpiralLayer(trig)| == 168
    ensures forall k :: 0 <= k < 168 ==>
              IsTriangle(SpiralLayer(trig)[k]) && SpiralLayer(trig)[k].fill == SPIRAL_COLORS[k / 24]
    ensures forall k :: 0 <= k < 167 && k % 24 != 23 ==>
              |SpiralLayer(trig)[k].pts| == 3 && |SpiralLayer(trig)[k + 1].pts| == 3 &&
              SpiralLayer(trig)[k].pts[1] == SpiralLayer(trig)[k + 1].pts[0]
  {
    ArmsRunAt(Wedge, trig, NUM_ARMS);
    forall k | 0 <= k < 168
      ensures IsTriangle(SpiralLayer(trig)[k]) && SpiralLayer(trig)[k].fill == SPIRAL_COLORS[k / 24]
    {
      WedgeColor(trig, k / 24, k % 24);
      assert SpiralLayer(trig)[k] == Wedge(trig, k / 24, k % 24);
    }
    forall k | 0 <= k < 167 && k % 24 != 23
      ensures SpiralLayer(trig)[k].pts[1] == SpiralLayer(trig)[k + 1].pts[0]
    {
      assert SpiralLayer(trig)[k] == Wedge(trig, k / 24, k % 24);
      assert SpiralLayer(trig)[k + 1] == Wedge(trig, k / 24, k % 24 + 1);
    }
  }

  /** The palette has one colour per arm, all different, so no two arms share a colour. */
  lemma SpiralArmColorsDistinct(trig: Trig)
    ensures forall a, b, i, j :: 0 <= a < b < NUM_ARMS && 0 <= i < TRIANGLES_PER_ARM && 0 <= j < TRIANGLES_PER_ARM ==>
              Wedge(trig, a, i).fill != Wedge(trig, b, j).fill
  {
    forall a, b | 0 <= a < b < NUM_ARMS
      ensures SPIRAL_COLORS[a] != SPIRAL_COLORS[b]
    {
      assert SPIRAL_COLORS[a][1] != SPIRAL_COLORS[b][1] || SPIRAL_COLORS[a][2] != SPIRAL_COLORS[b][2];
    }
  }

  // ---------------------------------------------------------------------
  // Layer 3: diamond tiling

  const TILE_SIZE: nat := 28
  /** `W // tile_sz + 2` (the canvas is square, so rows and columns agree). */
  const DIAMOND_GRID: nat := W / TILE_SIZE + 2

  /** `oy > H * 0.7`: the rows below 70% of the canvas are left out. */
  predicate Skipped(c: Cell)
  {
    (c.row * TILE_SIZE) as real > H as real * 0.7
  }

  /** The cells the loop draws, in the order it draws them. */
  function VisitedCells(): seq<Cell>
  {
    Visited(DIAMOND_GRID, Skipped)
  }

  /** A colour as its red, green and blue channels. */
  datatype Rgb = Rgb(r: nat, g: nat, b: nat)

  /** shade = 0.15 + 0.25 * idx. */
  function Shade(idx: nat): real
  {
    0.15 + 0.25 * idx as real
  }

  /** The channels `int(30 + shade*80)`, `int(40 + shade*60)`, `int(70 + shade*50)`;
      every operand is positive, so Python's truncating int() is the floor. */
  function ShadeChannels(idx: nat): Rgb
  {
    var s := Shade(idx);
    Rgb((30.0 + s * 80.0).Floor, (40.0 + s * 60.0).Floor, (70.0 + s * 50.0).Floor)
  }

  function ShadeColor(idx: nat): string
  {
    var rgb := ShadeChannels(idx);
    ColorHex(rgb.r, rgb.g, rgb.b)
  }

  /** Left edge ox of a tile: odd rows are shifted by half a tile. */
  function TileLeft(c: Cell): int
  {
    c.col * TILE_SIZE + (c.row % 2) * (TILE_SIZE / 2)
  }

  /** Top edge oy of a tile. */
  function TileTop(c: Cell): int
  {
    c.row * TILE_SIZE
  }

  function TileCentre(c: Cell): Point
  {
    Point(TileLeft(c) as real + TILE_SIZE as real / 2.0, TileTop(c) as real + TILE_SIZE as real / 2.0)
  }

  /** Triangle k of a tile: from the centre to the points at angles k*pi/2
      and (k+1)*pi/2, at distance 0.45 of a tile, in the tile's shade. */
  function TileTriangle(trig: Trig, c: Cell, k: nat): Primitive
  {
    var centre := TileCentre(c);
    var reach := TILE_SIZE as real * 0.45;
    Polygon(ShadeColor((c.row + c.col) % 3),
            [centre, Polar(trig, centre, reach, k as real / 2.0), Polar(trig, centre, reach, (k + 1) as real / 2.0)])
  }

  /** The four triangles of a tile, k = 0..3. */
  function CellTriangles(trig: Trig, c: Cell): seq<Primitive>
  {
    [TileTriangle(trig, c, 0), TileTriangle(trig, c, 1), TileTriangle(trig, c, 2), TileTriangle(trig, c, 3)]
  }

  function TileTriangles(trig: Trig): Cell -> seq<Primitive>
  {
    c => CellTriangles(trig, c)
  }

  /** What the walk over the grid draws. */
  function DiamondLayer(trig: Trig): seq<Primitive>
  {
    TilesBefore(DIAMOND_GRID, Skipped, TileTriangles(trig), DIAMOND_GRID, 0)
  }

  /** The walk draws the tiles of the visited cells, one after the other. */
  lemma DiamondLayerCells(trig: Trig)
    ensures DiamondLayer(trig) == Tiles(TileTriangles(trig), VisitedCells())
  {
    TilesBeforeVisited(DIAMOND_GRID, Skipped, TileTriangles(trig), DIAMOND_GRID, 0);
  }

  /** `tiles` gives every cell the four triangles of its tile. The emit loops
      reason about such a `tiles` without looking into the triangles. */
  ghost predicate DrawsTiles(trig: Trig, tiles: Cell -> seq<Primitive>)
  {
    forall c {:trigger CellTriangles(trig, c)} :: tiles(c) == CellTriangles(trig, c)
  }

  lemma TileTrianglesDraw(trig: Trig)
    ensures DrawsTiles(trig, TileTriangles(trig))
  {
  }

  lemma DrawnTilesAreDiamondLayer(trig: Trig, tiles: Cell -> seq<Primitive>)
    requires DrawsTiles(trig, tiles)
    ensures TilesBefore(DIAMOND_GRID, Skipped, tiles, DIAMOND_GRID, 0) == DiamondLayer(trig)
  {
    forall c
      ensures tiles(c) == TileTriangles(trig)(c)
    {
      assert TileTriangles(trig)(c) == CellTriangles(trig, c);
    }
    TilesBeforeCongruent(DIAMOND_GRID, Skipped, tiles, TileTriangles(trig), DIAMOND_GRID, 0);
  }

  method EmitDiamonds(out: seq<Primitive>, trig: Trig) returns (res: seq<Primitive>)
    ensures res == out + DiamondLayer(trig)
  {
    res := out;
    TileTrianglesDraw(trig);
    ghost var tiles: Cell -> seq<Primitive> :| DrawsTiles(trig, tiles);
    var tileSz := TILE_SIZE;
    assert H / tileSz + 2 == DIAMOND_GRID;
    for row := 0 to H / tileSz + 2
      invariant res == out + TilesBefore(DIAMOND_GRID, Skipped, tiles, row, 0)
    {
      res := EmitDiamondRow(res, trig, row, out, tiles);
      TilesBeforeNextRow(DIAMOND_GRID, Skipped, tiles, row);
    }
    DrawnTilesAreDiamondLayer(trig, tiles);
  }

  /** The body of the row loop: the tiles of one row, left to right. */
  method EmitDiamondRow(out: seq<Primitive>, trig: Trig, row: nat, ghost start: seq<Primitive>,
                        ghost tiles: Cell -> seq<Primitive>) returns (res: seq<Primitive>)
    requires DrawsTiles(trig, tiles)
    requires out == start + TilesBefore(DIAMOND_GRID, Skipped, tiles, row, 0)
    ensures res == start + TilesBefore(DIAMOND_GRID, Skipped, tiles, row, DIAMOND_GRID)
  {
    res := out;
    var tileSz := TILE_SIZE;
    for col := 0 to W / tileSz + 2
      invariant res == start + TilesBefore(DIAMOND_GRID, Skipped, tiles, row, col)
    {
      var ox := col * tileSz + (row % 2) * (tileSz / 2);
      var oy := row * tileSz;
      TilesBeforeNextCol(DIAMOND_GRID, Skipped, tiles, row, col);
      if !(oy as real > H as real * 0.7) {
        assert !Skipped(Cell(row, col));
        AppendAssoc(start, TilesBefore(DIAMOND_GRID, Skipped, tiles, row, col), tiles(Cell(row, col)));
        res := EmitTile(res, trig, row, col, ox, oy, tiles);
      }
    }
  }

  /** The body of the column loop for a tile that is drawn: its four triangles. */
  method EmitTile(out: seq<Primitive>, trig: Trig, row: nat, col: nat, ox: int, oy: int,
                  ghost tiles: Cell -> seq<Primitive>) returns (res: seq<Primitive>)
    requires DrawsTiles(trig, tiles)
    requires ox == col * TILE_SIZE + (row % 2) * (TILE_SIZE / 2) && oy == row * TILE_SIZE
    ensures res == out + tiles(Cell(row, col))
  {
    res := out;
    var tileSz := TILE_SIZE;
    var cxT := ox as real + tileSz as real / 2.0;
    var cyT := oy as real + tileSz as real / 2.0;
    ghost var tris := CellTriangles(trig, Cell(row, col));
    for k := 0 to 4
      invariant res == out + tris[..k]
    {
      var a1 := k as real / 2.0;
      var a2 := (k + 1) as real / 2.0;
      var p0 := Point(cxT, cyT);
      var p1 := Polar(trig, p0, tileSz as real * 0.45, a1);
      var p2 := Polar(trig, p0, tileSz as real * 0.45, a2);
      var shade := 0.15 + 0.25 * ((row + col) % 3) as real;
      var r := (30.0 + shade * 80.0).Floor;
      var g := (40.0 + shade * 60.0).Floor;
      var b := (70.0 + shade * 50.0).Floor;
      TileTriangleAt(trig, row, col, k, cxT, cyT, a1, a2, p0, p1, p2, shade, r, g, b);
      CellTrianglesAt(trig, Cell(row, col), k);
      PrefixSnoc(tris, k);
      AppendAssoc(out, tris[..k], [tris[k]]);
      res := EmitTriangle(res, p0, p1, p2, ColorHex(r, g, b));
    }
    assert tris[..4] == tris;
  }

  /** The channels and the fill string the loop computes for shade index idx. */
  lemma ShadeAt(idx: nat, shade: real, r: int, g: int, b: int)
    requires shade == 0.15 + 0.25 * idx as real
    requires r == (30.0 + shade * 80.0).Floor && g == (40.0 + shade * 60.0).Floor && b == (70.0 + shade * 50.0).Floor
    ensures 0 <= r && 0 <= g && 0 <= b
    ensures ShadeChannels(idx) == Rgb(r, g, b) && ShadeColor(idx) == ColorHex(r, g, b)
  {
  }

  /** Triangle k of tile (row, col), in the terms of the loop that emits it. */
  lemma TileTriangleAt(trig: Trig, row: nat, col: nat, k: nat, cxT: real, cyT: real, a1: real, a2: real,
                       p0: Point, p1: Point, p2: Point, shade: real, r: int, g: int, b: int)
    requires cxT == (col * TILE_SIZE + (row % 2) * (TILE_SIZE / 2)) as real + TILE_SIZE as real / 2.0
    requires cyT == (row * TILE_SIZE) as real + TILE_SIZE as real / 2.0
    requires a1 == k as real / 2.0 && a2 == (k + 1) as real / 2.0
    requires p0 == Point(cxT, cyT)
    requires p1 == Polar(trig, p0, TILE_SIZE as real * 0.45, a1)
    requires p2 == Polar(trig, p0, TILE_SIZE as real * 0.45, a2)
    requires shade == 0.15 + 0.25 * ((row + col) % 3) as real
    requires r == (30.0 + shade * 80.0).Floor && g == (40.0 + shade * 60.0).Floor && b == (70.0 + shade * 50.0).Floor
    ensures 0 <= r && 0 <= g && 0 <= b
    ensures TileTriangle(trig, Cell(row, col), k) == Polygon(ColorHex(r, g, b), [p0, p1, p2])
  {
    ShadeAt((row + col) % 3, shade, r, g, b);
    assert TileCentre(Cell(row, col)) == p0;
  }

  lemma CellTrianglesAt(trig: Trig, c: Cell, k: nat)
    requires k < 4
    ensures CellTriangles(trig, c)[k] == TileTriangle(trig, c, k)
  {
  }

  /** Cell n of a row-major walk over the 30 x 30 grid. */
  function DiamondCell(n: nat): Cell
  {
    Cell(n / DIAMOND_GRID, n % DIAMOND_GRID)
  }

  /** How many cells the loop has visited before (row, col), and which: the
      n-th visited cell is row n / 30, column n % 30. */
  lemma {:induction false} VisitedBeforeAt(row: nat, col: nat)
    requires col <= DIAMOND_GRID
    ensures |VisitedBefore(DIAMOND_GRID, Skipped, row, col)| == (if row <= 21 then row else 21) * 30 + (if row <= 20 then col else 0)
    ensures forall n :: 0 <= n < |VisitedBefore(DIAMOND_GRID, Skipped, row, col)| ==>
              VisitedBefore(DIAMOND_GRID, Skipped, row, col)[n] == DiamondCell(n)
    decreases row, col
  {
    if col == 0 {
      if row > 0 {
        VisitedBeforeAt(row - 1, DIAMOND_GRID);
      }
    } else {
      VisitedBeforeAt(row, col - 1);
      if row <= 20 {
        assert (row * TILE_SIZE) as real <= H as real * 0.7;
        var n := row * 30 + col - 1;
        assert n / 30 == row && n % 30 == col - 1;
      } else {
        assert (row * TILE_SIZE) as real > H as real * 0.7;
      }
    }
  }

  /** The grid is 30 x 30 (`800 // 28 + 2`); rows 0..20 are visited and the
      rest skipped, leaving 21 x 30 = 630 cells, visited row by row. */
  lemma VisitedCellsShape()
    ensures DIAMOND_GRID == 30
    ensures |VisitedCells()| == 630
    ensures forall n :: 0 <= n < 630 ==> VisitedCells()[n] == DiamondCell(n)
    ensures forall c :: c in VisitedCells() <==> c.row <= 20 && c.col < 30
    ensures forall c: Cell :: c.row < 30 && c.col < 30 ==> (Skipped(c) <==> c.row * TILE_SIZE > 560)
  {
    VisitedBeforeAt(DIAMOND_GRID, 0);
    forall c
      ensures c in VisitedCells() <==> c.row <= 20 && c.col < 30
    {
      VisitedBeforeMembers(DIAMOND_GRID, Skipped, DIAMOND_GRID, 0, c);
    }
  }

  /** With exact quarter-turn values, the k-th triangle of a tile runs from
      the centre (ox + 14, oy + 14) to the points 12.6 away along the k-th and
      (k+1)-th cardinal directions (east, south, west, north, east), and all
      four share the tile's shade colour. */
  lemma CellTrianglesCardinal(trig: Trig, c: Cell)
    requires Cardinal(trig)
    ensures var cx, cy := TileLeft(c) as real + 14.0, TileTop(c) as real + 14.0;
            var ctr := Point(cx, cy);
            var fill := ShadeColor((c.row + c.col) % 3);
            CellTriangles(trig, c) ==
              [ Polygon(fill, [ctr, Point(cx + 12.6, cy), Point(cx, cy + 12.6)]),
                Polygon(fill, [ctr, Point(cx, cy + 12.6), Point(cx - 12.6, cy)]),
                Polygon(fill, [ctr, Point(cx - 12.6, cy), Point(cx, cy - 12.6)]),
                Polygon(fill, [ctr, Point(cx, cy - 12.6), Point(cx + 12.6, cy)]) ]
  {
    assert 1 as real / 2.0 == 0.5 && 2 as real / 2.0 == 1.0 && 3 as real / 2.0 == 1.5 && 4 as real / 2.0 == 2.0;
  }

  /** The three shades and their fill strings, `#2a314d`, `#3e405a`, `#524f66`. */
  lemma ShadeTable()
    ensures ShadeChannels(0) == Rgb(42, 49, 77) && ShadeColor(0) == "#2a314d"
    ensures ShadeChannels(1) == Rgb(62, 64, 90) && ShadeColor(1) == "#3e405a"
    ensures ShadeChannels(2) == Rgb(82, 79, 102) && ShadeColor(2) == "#524f66"
  {
    Hex02Byte(42); Hex02Byte(49); Hex02Byte(77);
    Hex02Byte(62); Hex02Byte(64); Hex02Byte(90);
    Hex02Byte(82); Hex02Byte(79); Hex02Byte(102);
  }

  /** Every shade index of the loop is 0, 1 or 2, so every channel is a byte
      and the fill string is the seven characters `#rrggbb`. */
  lemma ShadeColorIsRgb(row: nat, col: nat)
    ensures (row + col) % 3 < 3
    ensures var rgb := ShadeChannels((row + col) % 3);
            rgb.r < 256 && rgb.g < 256 && rgb.b < 256 && |ShadeColor((row + col) % 3)| == 7 && ShadeColor((row + col) % 3)[0] == '#'
  {
    var rgb := ShadeChannels((row + col) % 3);
    ShadeTable();
    ColorHexShape(rgb.r, rgb.g, rgb.b);
  }

  /** Any drawing of four triangles per cell, walked over the grid: position
      k holds triangle k % 4 of cell k / 4. */
  lemma DiamondWalkAt(tiles: Cell -> seq<Primitive>)
    requires forall c :: |tiles(c)| == 4
    ensures |TilesBefore(DIAMOND_GRID, Skipped, tiles, DIAMOND_GRID, 0)| == 2520
    ensures forall k :: 0 <= k < 2520 ==>
              TilesBefore(DIAMOND_GRID, Skipped, tiles, DIAMOND_GRID, 0)[k] == tiles(DiamondCell(k / 4))[k % 4]
  {
    TilesBeforeVisited(DIAMOND_GRID, Skipped, tiles, DIAMOND_GRID, 0);
    VisitedCellsShape();
    TilesAt(tiles, VisitedCells());
  }

  /** The tiling: 2520 triangles, 4 per visited cell; triangle k is triangle
      k % 4 of cell (row, col) = (k / 120, (k / 4) % 30), in that cell's shade. */
  lemma DiamondLayerShape(trig: Trig)
    ensures |DiamondLayer(trig)| == 2520
    ensures forall k :: 0 <= k < 2520 ==> DiamondLayer(trig)[k] == TileTriangle(trig, DiamondCell(k / 4), k % 4)
    ensures forall k :: 0 <= k < 2520 ==>
              && IsTriangle(DiamondLayer(trig)[k])
              && DiamondLayer(trig)[k].fill == ShadeColor((DiamondCell(k / 4).row + DiamondCell(k / 4).col) % 3)
  {
    DiamondWalkAt(TileTriangles(trig));
    forall k | 0 <= k < 2520
      ensures DiamondLayer(trig)[k] == TileTriangle(trig, DiamondCell(k / 4), k % 4)
    {
      CellTrianglesAt(trig, DiamondCell(k / 4), k % 4);
    }
  }

  // ---------------------------------------------------------------------
  // Layer 4: textured panels

  const PANEL_1_UVS: seq<UV> := [UV(0.2, 0.25), UV(0.55, 0.25), UV(0.55, 0.6), UV(0.2, 0.6)]
  const PANEL_2_UVS: seq<UV> := [UV(0.5, 0.1), UV(0.9, 0.1), UV(0.9, 0.5), UV(0.5, 0.5)]
  const PANEL_3_UVS: seq<UV> := [UV(0.1, 0.6), UV(0.35, 0.6), UV(0.35, 0.9), UV(0.1, 0.9)]

  function Panel1(): seq<Point> { RectCorners(W as real * 0.15, H as real * 0.58, 220.0, 160.0) }
  function Panel2(): seq<Point> { RectCorners(W as real * 0.52, H as real * 0.62, 180.0, 130.0) }
  function Panel3(): seq<Point> { RectCorners(W as real * 0.68, H as real * 0.52, 90.0, 95.0) }

  function PanelLayer(): seq<Primitive>
  {
    QuadSplit("map", Panel1(), PANEL_1_UVS) + QuadSplit("map", Panel2(), PANEL_2_UVS) + QuadSplit("map", Panel3(), PANEL_3_UVS)
  }

  method EmitPanels(out: seq<Primitive>) returns (res: seq<Primitive>)
    ensures res == out + PanelLayer()
  {
    var panelX0, panelY0 := W as real * 0.15, H as real * 0.58;
    var panelW, panelH := 220.0, 160.0;
    var corners := [Point(panelX0, panelY0), Point(panelX0 + panelW, panelY0),
                    Point(panelX0 + panelW, panelY0 + panelH), Point(panelX0, panelY0 + panelH)];
    res := EmitTexturedQuad(out, "map", corners, PANEL_1_UVS);

    var panelX1, panelY1 := W as real * 0.52, H as real * 0.62;
    var pw2, ph2 := 180.0, 130.0;
    var corners2 := [Point(panelX1, panelY1), Point(panelX1 + pw2, panelY1),
                     Point(panelX1 + pw2, panelY1 + ph2), Point(panelX1, panelY1 + ph2)];
    res := EmitTexturedQuad(res, "map", corners2, PANEL_2_UVS);

    var panelX2, panelY2 := W as real * 0.68, H as real * 0.52;
    var pw3, ph3 := 90.0, 95.0;
    var corners3 := [Point(panelX2, panelY2), Point(panelX2 + pw3, panelY2),
                     Point(panelX2 + pw3, panelY2 + ph3), Point(panelX2, panelY2 + ph3)];
    res := EmitTexturedQuad(res, "map", corners3, PANEL_3_UVS);
  }

  /** Six textured triangles, all on texture "map"; pair p is the split of
      rectangle p, whose computed corners are (120,464)-(340,624),
      (416,496)-(596,626) and (544,416)-(634,511), with the uv of each corner
      given in the same TL, TR, BR, BL order. */
  lemma PanelLayerShape()
    ensures |PanelLayer()| == 6
    ensures forall n :: 0 <= n < 6 ==> PanelLayer()[n].TexTri? && PanelLayer()[n].texid == "map"
    ensures Panel1() == RectCorners(120.0, 464.0, 220.0, 160.0)
    ensures Panel2() == RectCorners(416.0, 496.0, 180.0, 130.0)
    ensures Panel3() == RectCorners(544.0, 416.0, 90.0, 95.0)
    ensures PanelLayer()[0..2] == QuadSplit("map", Panel1(), PANEL_1_UVS)
    ensures PanelLayer()[2..4] == QuadSplit("map", Panel2(), PANEL_2_UVS)
    ensures PanelLayer()[4..6] == QuadSplit("map", Panel3(), PANEL_3_UVS)
    ensures RectUVs(PANEL_1_UVS) && RectUVs(PANEL_2_UVS) && RectUVs(PANEL_3_UVS)
  {
  }

  // ---------------------------------------------------------------------
  // Layer 5: hills and accents

  /** The hill outlines as flat coordinate lists x0, y0, x1, y1, ... */
  const HILLS: seq<(string, seq<real>)> := [
    ("#1e293b", [0.0, 420.0, 120.0, 380.0, 280.0, 400.0, 450.0, 360.0, 600.0, 390.0,
                 W as real, 370.0, W as real, H as real, 0.0, H as real]),
    ("#334155", [0.0, 520.0, 200.0, 460.0, 400.0, 500.0, 550.0, 450.0, 720.0, 480.0,
                 W as real, 440.0, W as real, H as real, 0.0, H as real]),
    ("#0f172a", [0.0, 620.0, 80.0, 580.0, 240.0, 610.0, 380.0, 560.0, 520.0, 600.0, 680.0, 570.0,
                 W as real, 590.0, W as real, H as real, 0.0, H as real])
  ]

  /** The pairs (pts[i], pts[i+1]) for i in range(0, len(pts), 2). */
  function PairUp(flat: seq<real>): (pts: seq<Point>)
    requires |flat| % 2 == 0
    ensures |pts| == |flat| / 2
    ensures forall i :: 0 <= i < |pts| ==> pts[i] == Point(flat[2 * i], flat[2 * i + 1])
    decreases |flat|
  {
    if flat == [] then [] else [Point(flat[0], flat[1])] + PairUp(flat[2..])
  }

  function HillLayer(): seq<Primitive>
  {
    seq(|HILLS|, n requires 0 <= n < |HILLS| => Polygon(HILLS[n].0, PairUp(HILLS[n].1)))
  }

  method EmitHills(out: seq<Primitive>) returns (res: seq<Primitive>)
    ensures res == out + HillLayer()
  {
    res := out;
    for n := 0 to |HILLS|
      invariant res == out + HillLayer()[..n]
    {
      var (color, pts) := HILLS[n];
      res := res + [Polygon(color, PairUp(pts))];
    }
  }

  const ACCENTS: seq<(Point, Point, Point, string)> := [
    (Point(120.0, 680.0), Point(155.0, 600.0), Point(190.0, 680.0), "#4ade80"),
    (Point(380.0, 690.0), Point(415.0, 610.0), Point(450.0, 690.0), "#38bdf8"),
    (Point(600.0, 685.0), Point(635.0, 615.0), Point(670.0, 685.0), "#f97316")
  ]

  function AccentLayer(): seq<Primitive>
  {
    seq(|ACCENTS|, n requires 0 <= n < |ACCENTS| => Polygon(ACCENTS[n].3, [ACCENTS[n].0, ACCENTS[n].1, ACCENTS[n].2]))
  }

  method EmitAccents(out: seq<Primitive>) returns (res: seq<Primitive>)
    ensures res == out + AccentLayer()
  {
    res := out;
    for n := 0 to |ACCENTS|
      invariant res == out + AccentLayer()[..n]
    {
      var (p0, p1, p2, fill) := ACCENTS[n];
      res := EmitTriangle(res, p0, p1, p2, fill);
    }
  }

  /** Three hill outlines of 8, 8 and 9 vertices, each closed along the
      bottom edge by (W, H), (0, H). */
  lemma HillLayerShape()
    ensures |HillLayer()| == 3
    ensures |HillLayer()[0].pts| == 8 && |HillLayer()[1].pts| == 8 && |HillLayer()[2].pts| == 9
    ensures forall n :: 0 <= n < 3 ==>
              var pts := HillLayer()[n].pts;
              HillLayer()[n].Polygon? && pts[|pts| - 2] == Point(W as real, H as real) && pts[|pts| - 1] == Point(0.0, H as real)
  {
    forall n | 0 <= n < 3
      ensures var pts := HillLayer()[n].pts;
              pts[|pts| - 2] == Point(W as real, H as real) && pts[|pts| - 1] == Point(0.0, H as real)
    {
      HillClosed(n);
    }
  }

  /** Hill n has 8, 8 or 9 vertices, the last two being (W, H) and (0, H). */
  lemma HillClosed(n: nat)
    requires n < 3
    ensures var pts := HillLayer()[n].pts;
            |pts| == (if n == 2 then 9 else 8)
            && pts[|pts| - 2] == Point(W as real, H as real) && pts[|pts| - 1] == Point(0.0, H as real)
  {
    var flat := HILLS[n].1;
    assert HillLayer()[n].pts == PairUp(flat);
    if n == 0 {
      assert flat == HILLS[0].1;
    } else if n == 1 {
      assert flat == HILLS[1].1;
    } else {
      assert flat == HILLS[2].1;
    }
    ClosedOutline(flat);
  }

  /** An outline whose last four coordinates are W, H, 0, H ends with the
      points (W, H) and (0, H). */
  lemma ClosedOutline(flat: seq<real>)
    requires |flat| % 2 == 0 && |flat| >= 4
    requires flat[|flat| - 4..] == [W as real, H as real, 0.0, H as real]
    ensures var pts := PairUp(flat);
            pts[|pts| - 2] == Point(W as real, H as real) && pts[|pts| - 1] == Point(0.0, H as real)
  {
    assert flat[|flat| - 4] == W as real && flat[|flat| - 3] == H as real;
    assert flat[|flat| - 2] == 0.0 && flat[|flat| - 1] == H as real;
  }

  /** Three triangles, each with its base on one horizontal line, its apex
      above the base and horizontally at the base's midpoint. */
  lemma AccentLayerShape()
    ensures |AccentLayer()| == 3
    ensures forall n :: 0 <= n < 3 ==>
              var pts := AccentLayer()[n].pts;
              && IsTriangle(AccentLayer()[n])
              && pts[0].y == pts[2].y && pts[1].y < pts[0].y
              && pts[1].x == (pts[0].x + pts[2].x) / 2.0
  {
  }

  // ---------------------------------------------------------------------
  // The whole document

  function SceneLayers(trig: Trig): seq<Primitive>
  {
    BackgroundLayer() + SpiralLayer(trig) + DiamondLayer(trig) + PanelLayer() + HillLayer() + AccentLayer()
  }

  /** `main`: declare the texture, then write the five layers back to front. */
  method WriteScene(trig: Trig) returns (textures: seq<Texture>, prims: seq<Primitive>)
    ensures textures == [MAP_TEXTURE]
    ensures prims == SceneLayers(trig)
  {
    textures := [Texture(TEX_PATH, "map")];
    ghost var bg, sp, dm, pn, hl, ac := BackgroundLayer(), SpiralLayer(trig), DiamondLayer(trig), PanelLayer(), HillLayer(), AccentLayer();
    prims := EmitBackground([]);
    assert prims == bg;
    prims := EmitSpiral(prims, trig);
    prims := EmitDiamonds(prims, trig);
    prims := EmitPanels(prims);
    prims := EmitHills(prims);
    prims := EmitAccents(prims);
    assert prims == bg + sp + dm + pn + hl + ac;
  }

  /** The layers' sizes and kinds: only the panels are textured. */
  lemma LayerKinds(trig: Trig)
    ensures |BackgroundLayer()| == 4 && AllSolid(BackgroundLayer())
    ensures |SpiralLayer(trig)| == 168 && AllSolid(SpiralLayer(trig))
    ensures |DiamondLayer(trig)| == 2520 && AllSolid(DiamondLayer(trig))
    ensures |PanelLayer()| == 6 && AllTextured(PanelLayer(), MAP_TEXTURE.texid)
    ensures |HillLayer()| == 3 && AllSolid(HillLayer())
    ensures |AccentLayer()| == 3 && AllSolid(AccentLayer())
  {
    BackgroundSplitsAtMidline();
    SpiralLayerShape(trig);
    DiamondLayerShape(trig);
    PanelLayerShape();
    HillLayerShape();
    AccentLayerShape();
  }

  /** 4 + 168 + 2520 + 6 + 3 + 3 = 2704 primitives. The six textured
      triangles sit at positions 2692..2697, between the tiling and the hills,
      and use the one declared texture; everything else is a solid polygon. */
  lemma SceneLayout(trig: Trig)
    ensures |SceneLayers(trig)| == 2704
    ensures forall n :: 0 <= n < 2704 ==> (SceneLayers(trig)[n].TexTri? <==> 2692 <= n < 2698)
    ensures forall n :: 0 <= n < 2704 && SceneLayers(trig)[n].TexTri? ==> SceneLayers(trig)[n].texid == MAP_TEXTURE.texid
    ensures SceneLayers(trig)[..4] == BackgroundLayer() && SceneLayers(trig)[2692..] == PanelLayer() + HillLayer() + AccentLayer()
  {
    LayerKinds(trig);
    var bg, sp, dm, pn, hl, ac := BackgroundLayer(), SpiralLayer(trig), DiamondLayer(trig), PanelLayer(), HillLayer(), AccentLayer();
    SolidConcat(bg, sp);
    SolidConcat(bg + sp, dm);
    SolidConcat(hl, ac);
    TexturedBand(bg + sp + dm, pn, hl + ac, MAP_TEXTURE.texid);
    var s := bg + sp + dm + pn + (hl + ac);
    assert SceneLayers(trig) == s;
    assert s[..4] == bg;
    assert s[2692..] == pn + hl + ac;
  }
}
