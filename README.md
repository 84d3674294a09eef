# Competition scene generator, modelled in Dafny

Two Python scripts generate the same kind of 800 x 800 SVG scene for a
triangle rasterizer. The scene uses only solid polygons and textured
triangles. It is drawn in six layers, in this order:

1. a two-tone sky of four triangles;
2. a spiral of 7 arms x 24 wedge triangles;
3. a grid of tiles with four triangles each;
4. three textured panels of two textured triangles each;
5. three hill silhouettes;
6. three foreground accent triangles.

The scripts:

- `hw1/svg_competition.py` streams the document into the output file as
  it goes. Every triangle goes through `emit_triangle` or
  `emit_textured_quad`. The texture line and the hill outlines are written
  with `f.write`.
- `src/generate_competition_svg.py` builds each element with the pure
  helpers `polygon` and `textri`, collects the lines in the list `lines`,
  and writes the list out at the end.

The model reads the document as the sequence of primitives it draws, in
document order:

- `Polygon(fill, pts)` for every `<polygon>`;
- `TexTri(texid, uvs, pts)` for every `<textri>`.

The texture declaration is a separate list. In both variants, each loop of the
program is a Dafny method whose `while`/`for` loop appends to that sequence.
Its postcondition ties the result to a specification function of the
layer. The lemmas about those functions state what the scene promises:

- counts and positions;
- colours by arm and by cell;
- shared vertices along an arm;
- each tile's triangles fanning out from its centre;
- uv/point alignment in the textured quads;
- which cells of the grid are drawn;
- where the textured band sits in the document.

A third module proves what the two variants share.

Files:

- `primitives.dfy`, module `Primitives`: the canvas, points, uvs, the
  primitive and texture datatypes, the trigonometry parameter, and generic
  lemmas about layered sequences.
- `hex_format.dfy`, module `HexFormat`: Python's `format(n, "02x")` and the
  `#rrggbb` f-string of hw1's tile colours, with the parse that reads them
  back.
- `tile_grid.dfy`, module `TileGrid`: the row-major walk over a grid that
  skips some cells, shared by both tiling loops.
- `svg_competition.dfy`, module `SvgCompetition`: the hw1 variant.
- `generate_competition_svg.dfy`, module `GenerateCompetitionSvg`: the src
  variant.
- `variants.dfy`, module `CompetitionVariants`: what the two variants have in
  common and where they differ.

Trigonometry is not computed. `Trig(cosPi, sinPi)` stands for `math.cos`
and `math.sin`, taking angles in multiples of pi. Every `math.pi * x` of the
source becomes the angle `x`. Where a property depends on exact values, such
as hw1's tile directions, the lemma requires `Cardinal(trig)`: the exact
values at the quarter turns. All other arithmetic is exact real arithmetic.
Python's `int()` and `//` appear only on non-negative operands, so they are
`.Floor` and Dafny's `/` on `int`.

Where the source's own names and comments say more than its code draws,
the model follows the code:

- hw1 turns each arm by `base_angle = 2 * math.pi * arm / n_arms`
  (hw1/svg_competition.py:91). The src spiral has no such term: its angles
  are `2 * math.pi * t0` and `2 * math.pi * t1`
  (src/generate_competition_svg.py:67-68). So its seven arms draw the same
  24 wedges one over another. `GenerateCompetitionSvg.ArmsCoincide` proves
  this.
- The src tiling is named for diamonds: `diamond_size`, and the comment
  "4 triangles per diamond" (src/generate_competition_svg.py:84, 94). Its
  corners are (cx +- d, cy +- d) with d = 6.3, so each tile is an
  axis-aligned square of side 12.6.
- The src grid skips a cell only when `cx > W + diamond_size` or
  `cy > H + diamond_size` (src/generate_competition_svg.py:90). Inside the
  65 x 65 grid this drops exactly the last cell of every odd row.
- hw1 skips every cell with `oy > H * 0.7` (hw1/svg_competition.py:117),
  which is every row after row 20. Its tile corners lie along the
  quarter-turn directions `k * math.pi / 2`, so with exact cosines and sines
  each tile is a diamond.

## Model

| member | source | states |
|---|---|---|
| Primitives.SolidConcat | hw1/svg_competition.py:72-190 | concatenating two runs of solid polygons gives a run of solid polygons |
| Primitives.TexturedBand | hw1/svg_competition.py:72-190 | an element of solid + textured + solid is textured exactly when it lies in the middle band, and then it uses the band's texture |
| Primitives.ArmsLayout | hw1/svg_competition.py:90-93 | a sequence grown by one block of 24 per arm has length 24n, and position k holds element k % 24 of block k / 24 |
| Primitives.ArmDrawn | hw1/svg_competition.py:93-108 | proof helper: the wedge function of an arm is a drawing of every step of that arm |
| Primitives.DrawnArmIsArmRun | hw1/svg_competition.py:93-108 | a loop that appends a drawing agreeing with an arm's wedges has appended the arm's first n wedges in order; both variants' arm loops use it |
| Primitives.ArmRunAt | hw1/svg_competition.py:93-108 | an arm's first n wedges are n long, and wedge i sits at position i |
| Primitives.ArmsRunAt | hw1/svg_competition.py:90-108 | the first n arms give 24n wedges; position k is wedge k % 24 of arm k / 24, and inside an arm position k + 1 is the next wedge (the same holds for src/generate_competition_svg.py:59-78) |
| Primitives.LayerEnds | src/generate_competition_svg.py:39-127 | the first layer and the last three layers of a six-layer document are its first and last slices |
| HexFormat.HexDigits | hw1/svg_competition.py:131 | the hex digits of n are at least one character |
| HexFormat.DigitRoundTrip | hw1/svg_competition.py:131 | each hex digit is a lower-case hex character that reads back to its value |
| HexFormat.HexDigitsRoundTrip | hw1/svg_competition.py:131 | parsing the digits of n gives n, and all of them are hex characters |
| HexFormat.HexDigitsAtMostTwo | hw1/svg_competition.py:131 | n has at most two hex digits iff n < 256, and one iff n < 16 |
| HexFormat.Hex02Byte | hw1/svg_competition.py:131 | `02x` of a byte is its high nibble digit followed by its low nibble digit |
| HexFormat.Hex02Length | hw1/svg_competition.py:131 | `02x` is at least two characters, and exactly two iff n < 256 |
| HexFormat.Hex02RoundTrip | hw1/svg_competition.py:131 | parsing `02x` of n gives n back; every character is a hex digit |
| HexFormat.ColorHexShape | hw1/svg_competition.py:131 | `#{r:02x}{g:02x}{b:02x}` has 7 characters iff every channel is a byte, and then it is `#` plus six hex digits from which r, g and b read back |
| TileGrid.TilesBeforeNextCol | hw1/svg_competition.py:114-118 | one column step appends the cell's tile unless the cell is skipped |
| TileGrid.TilesBeforeNextRow | hw1/svg_competition.py:113-114 | the end of one row is the start of the next |
| TileGrid.TilesBeforeCongruent | hw1/svg_competition.py:113-131 | two drawings that agree on every cell give the same walk |
| TileGrid.TilesBeforeVisited | src/generate_competition_svg.py:86-104 | the walk draws exactly the tiles of the visited cells, in visiting order |
| TileGrid.VisitedBeforeMembers | src/generate_competition_svg.py:86-91 | a cell has been visited before (row, col) iff it lies on the board, comes earlier in row-major order and is not skipped |
| TileGrid.VisitedBeforeOrdered | src/generate_competition_svg.py:86-87 | visited cells come in strictly increasing row-major order, so no cell is drawn twice |
| TileGrid.TilesAt | src/generate_competition_svg.py:95-104 | with four triangles per cell, position k of the drawing is triangle k % 4 of cell k / 4 |
| SvgCompetition.EmitTriangle | hw1/svg_competition.py:58-60 | the output grows by exactly one solid triangle with the given points and fill |
| SvgCompetition.FanCorner | hw1/svg_competition.py:65-66 | every fan index names one of the four corners |
| SvgCompetition.EmitTexturedQuad | hw1/svg_competition.py:63-69 | the loop over (0,1,2), (0,2,3) appends exactly the two triangles of QuadSplit |
| SvgCompetition.QuadSplitPairsByCorner | hw1/svg_competition.py:63-69 | two textured triangles; in each, point slot m and uv slot m come from the same corner FanCorner(t, m) |
| SvgCompetition.QuadFanCoversCorners | hw1/svg_competition.py:65 | the triangles use corners {0,1,2} and {0,2,3} and together all four |
| SvgCompetition.RectSplitConsistent | hw1/svg_competition.py:135-144 | for a non-degenerate rectangle, equal points in the two triangles carry equal uvs |
| SvgCompetition.EmitBackground | hw1/svg_competition.py:78-82 | the four sky triangles are appended in order |
| SvgCompetition.BackgroundSplitsAtMidline | hw1/svg_competition.py:79-82 | four triangles: the upper two in #0a0e1a never below H/2, the lower two in #141c28 never above it, using exactly the corners and midline ends |
| SvgCompetition.EmitSpiral | hw1/svg_competition.py:86-108 | the arm loop appends the whole spiral layer |
| SvgCompetition.EmitArm | hw1/svg_competition.py:91-108 | one arm's loop appends its 24 wedges in order |
| SvgCompetition.EmitWedge | hw1/svg_competition.py:94-108 | the segment loop's body appends exactly wedge i of the arm |
| SvgCompetition.WedgeGeometry | hw1/svg_competition.py:94-108 | the loop's locals give exactly the wedge: radii 40 + 220t inside [40, 260], angles 2arm/7 + 4t, and a pinch point 15 inside the mean radius at the mean angle |
| SvgCompetition.WedgeColor | hw1/svg_competition.py:92-108 | every wedge of arm a < 7 is a solid triangle in colour spiral_colors[a] |
| SvgCompetition.SpiralLayerShape | hw1/svg_competition.py:86-108 | 168 triangles; wedge k has colour spiral_colors[k / 24]; consecutive wedges of an arm share a vertex |
| SvgCompetition.SpiralArmColorsDistinct | hw1/svg_competition.py:89-92 | wedges of two different arms never share a fill colour |
| SvgCompetition.DiamondLayerCells | hw1/svg_competition.py:112-131 | the tiling is the tiles of the visited cells, one after another |
| SvgCompetition.TileTrianglesDraw | hw1/svg_competition.py:119-131 | proof helper: the tile function is a drawing of every cell |
| SvgCompetition.DrawnTilesAreDiamondLayer | hw1/svg_competition.py:112-131 | any drawing that agrees with the tiles gives the tiling layer |
| SvgCompetition.EmitDiamonds | hw1/svg_competition.py:112-131 | the row loop appends the whole tiling layer |
| SvgCompetition.EmitDiamondRow | hw1/svg_competition.py:114-131 | one row's loop appends that row's tiles and skips the cells with oy > 0.7 H |
| SvgCompetition.EmitTile | hw1/svg_competition.py:119-131 | the k-loop appends the cell's four triangles |
| SvgCompetition.ShadeAt | hw1/svg_competition.py:127-131 | the channels int(30 + 80s), int(40 + 60s), int(70 + 50s) are non-negative and give the fill string |
| SvgCompetition.TileTriangleAt | hw1/svg_competition.py:119-131 | the loop's locals give exactly triangle k of the cell |
| SvgCompetition.CellTrianglesAt | hw1/svg_competition.py:121-131 | proof helper: the cell's list holds triangle k at position k |
| SvgCompetition.VisitedBeforeAt | hw1/svg_competition.py:113-118 | the number of cells visited before (row, col) is 30 min(row, 21) + col while row <= 20 and stays 630 after that; the n-th visited cell is (n / 30, n % 30) |
| SvgCompetition.VisitedCellsShape | hw1/svg_competition.py:113-118 | a 30 x 30 grid (`800 // 28 + 2`); rows 0..20 are kept, giving 630 cells in row-major order; a cell is skipped iff 28 row > 560 |
| SvgCompetition.CellTrianglesCardinal | hw1/svg_competition.py:119-131 | with exact quarter-turn values, triangle k runs from the centre to the points 12.6 away along cardinal directions k and k + 1, in the cell's shade |
| SvgCompetition.ShadeTable | hw1/svg_competition.py:127-131 | the three shades are Rgb(42,49,77), (62,64,90), (82,79,102), written #2a314d, #3e405a, #524f66 |
| SvgCompetition.ShadeColorIsRgb | hw1/svg_competition.py:127-131 | every shade index is below 3, every channel is a byte, and the fill is seven characters starting with `#` |
| SvgCompetition.DiamondWalkAt | hw1/svg_competition.py:113-131 | for any four-triangle tiles, the walk gives 2520 triangles, k being triangle k % 4 of cell k / 4 |
| SvgCompetition.DiamondLayerShape | hw1/svg_competition.py:112-131 | 2520 triangles; triangle k is triangle k % 4 of cell k / 4, a solid triangle in that cell's shade |
| SvgCompetition.EmitPanels | hw1/svg_competition.py:134-166 | the three quads are appended, each split into two textured triangles |
| SvgCompetition.PanelLayerShape | hw1/svg_competition.py:135-166 | six textured triangles on "map"; the computed corners are (120,464)-(340,624), (416,496)-(596,626), (544,416)-(634,511); pair p is the split of panel p; each panel's uvs span a texture rectangle in the same TL, TR, BR, BL order as its corners |
| SvgCompetition.PairUp | hw1/svg_competition.py:175-176 | pairing a flat list of 2n coordinates gives n points, point i being (flat[2i], flat[2i+1]) |
| SvgCompetition.EmitHills | hw1/svg_competition.py:169-177 | the loop appends the three hill outlines in order |
| SvgCompetition.EmitAccents | hw1/svg_competition.py:180-187 | the loop appends the three accent triangles in order |
| SvgCompetition.ClosedOutline | hw1/svg_competition.py:175-176 | a flat list ending in W, H, 0, H pairs up to an outline ending in (W, H), (0, H) |
| SvgCompetition.HillClosed | hw1/svg_competition.py:170-176 | hill n has 8, 8 or 9 vertices, the last two being (W, H) and (0, H) |
| SvgCompetition.HillLayerShape | hw1/svg_competition.py:170-177 | three outlines of 8, 8 and 9 vertices, each closed by (W, H), (0, H) |
| SvgCompetition.AccentLayerShape | hw1/svg_competition.py:181-187 | three triangles with a horizontal base, the apex above it and centred over it |
| SvgCompetition.WriteScene | hw1/svg_competition.py:72-193 | `main` declares the one texture and writes exactly the six layers in order |
| SvgCompetition.LayerKinds | hw1/svg_competition.py:72-190 | the layers have 4, 168, 2520, 6, 3 and 3 elements; only the panels are textured |
| SvgCompetition.SceneLayout | hw1/svg_competition.py:72-190 | 2704 primitives; element n is textured iff 2692 <= n < 2698, and then on "map"; the document starts with the sky and ends with panels, hills and accents |
| GenerateCompetitionSvg.BackgroundLayerShape | src/generate_competition_svg.py:48-51 | four triangles: the upper two in #0a0e1a never below H/2, the lower two in #141c28 never above it |
| GenerateCompetitionSvg.AppendSpiral | src/generate_competition_svg.py:56-78 | the arm loop appends the whole spiral layer to `lines` |
| GenerateCompetitionSvg.AppendArm | src/generate_competition_svg.py:60-78 | one arm's loop appends its 24 wedges in order |
| GenerateCompetitionSvg.WedgeGeometry | src/generate_competition_svg.py:62-78 | the loop's locals give exactly the wedge: radii 50 + 230t inside [50, 280], angle 2t independent of the arm, inner point at 0.85 times the mean radius and the mean angle |
| GenerateCompetitionSvg.AppendWedge | src/generate_competition_svg.py:62-78 | the segment loop's body appends exactly wedge i of the arm to `lines` |
| GenerateCompetitionSvg.WedgeColor | src/generate_competition_svg.py:60-78 | every wedge of arm a < 7 is a solid triangle in colour spiral_colors[a] |
| GenerateCompetitionSvg.SpiralLayerShape | src/generate_competition_svg.py:56-78 | 168 triangles; wedge k has colour spiral_colors[k / 24]; consecutive wedges of an arm share a vertex |
| GenerateCompetitionSvg.ArmsCoincide | src/generate_competition_svg.py:59-78 | every arm draws the same points for step i, and the seven arm colours are distinct |
| GenerateCompetitionSvg.GridBound | src/generate_competition_svg.py:86-87 | `int(800 / 12.6) + 2` is 65 for rows and columns |
| GenerateCompetitionSvg.SquaresDrawn | src/generate_competition_svg.py:92-104 | proof helper: the square function is a drawing of every cell |
| GenerateCompetitionSvg.DrawnSquaresAreDiamondLayer | src/generate_competition_svg.py:86-104 | any drawing that agrees with the squares gives the tiling layer |
| GenerateCompetitionSvg.AppendDiamonds | src/generate_competition_svg.py:84-104 | the row loop appends the whole tiling layer to `lines` |
| GenerateCompetitionSvg.AppendDiamondRow | src/generate_competition_svg.py:87-104 | one row's loop appends that row's squares |
| GenerateCompetitionSvg.AppendCell | src/generate_competition_svg.py:88-104 | a cell whose centre is beyond W + 12.6 or H + 12.6 adds nothing (`continue`); any other adds its four triangles |
| GenerateCompetitionSvg.AppendSquare | src/generate_competition_svg.py:92-104 | the loop over the four directions appends the cell's four triangles |
| GenerateCompetitionSvg.SquareTriangleAt | src/generate_competition_svg.py:95-104 | for each direction, the `abs(dx) > 0.01` branch picks the two corners of that side of the square |
| GenerateCompetitionSvg.SquareTrianglesCoverSquare | src/generate_competition_svg.py:92-104 | four triangles in the cell's colour from the centre to two corners (cx +- 6.3, cy +- 6.3) that span one full side of length 12.6; the four sides are different |
| GenerateCompetitionSvg.OffCanvasExactly | src/generate_competition_svg.py:88-91 | inside the 65 x 65 grid, a cell is skipped iff it is the last cell of an odd row |
| GenerateCompetitionSvg.VisitedBeforeCount | src/generate_competition_svg.py:86-91 | the number of cells visited before (row, col) is 65 row - row / 2 + col, less one at the end of an odd row |
| GenerateCompetitionSvg.VisitedBeforeAt | src/generate_competition_svg.py:86-91 | for any skip test that drops exactly the last cell of each odd row, the n-th visited cell is DiamondCell(n): cell n % 129 of the row pair n / 129 |
| GenerateCompetitionSvg.VisitedCellsShape | src/generate_competition_svg.py:86-91 | 4193 cells in row-major order, the n-th being DiamondCell(n); a cell is visited iff row < 65, col < 65 and it is not the last cell of an odd row |
| GenerateCompetitionSvg.DiamondWalkAt | src/generate_competition_svg.py:86-104 | for any four-triangle tiles, the walk gives 16772 triangles, k being triangle k % 4 of cell DiamondCell(k / 4) |
| GenerateCompetitionSvg.SquareTrianglesAt | src/generate_competition_svg.py:92-104 | the cell's list holds triangle n at position n, a solid triangle in colour diamond_colors[(row + col) % 3] |
| GenerateCompetitionSvg.DiamondLayerShape | src/generate_competition_svg.py:84-104 | 16772 triangles; triangle k is triangle k % 4 of cell DiamondCell(k / 4), in that cell's colour |
| GenerateCompetitionSvg.PanelLayerShape | src/generate_competition_svg.py:109-114 | six textured triangles on "map" in three pairs, (TL, TR, BR) and (TL, BR, BL) of rectangles (120,464)-(340,624), (416,496)-(596,626), (544,416)-(634,511), each corner carrying one uv in both triangles |
| GenerateCompetitionSvg.HillLayerShape | src/generate_competition_svg.py:117-119 | three outlines of 8, 8 and 9 vertices, each closed by (W, H), (0, H) |
| GenerateCompetitionSvg.AccentLayerShape | src/generate_competition_svg.py:122-124 | three triangles with a horizontal base, the apex above it and centred over it |
| GenerateCompetitionSvg.Generate | src/generate_competition_svg.py:38-127 | `main` declares the one texture, and `lines` ends up holding exactly the six layers in order |
| GenerateCompetitionSvg.LayerKinds | src/generate_competition_svg.py:38-127 | the layers have 4, 168, 16772, 6, 3 and 3 elements; only the panels are textured |
| GenerateCompetitionSvg.SceneLayout | src/generate_competition_svg.py:38-127 | 16956 primitives; element n is textured iff 16944 <= n < 16950, and then on "map" |
| GenerateCompetitionSvg.SceneFrame | src/generate_competition_svg.py:38-127 | the document starts with the sky and ends with panels, hills and accents |
| CompetitionVariants.SameBackground | src/generate_competition_svg.py:48-51 | both variants draw the same four sky triangles |
| CompetitionVariants.SamePanels | hw1/svg_competition.py:135-166 | hw1's computed panel corners and uvs give exactly src's six literal textured triangles (src/generate_competition_svg.py:109-114), in exact real arithmetic |
| CompetitionVariants.SameDiamondPalette | hw1/svg_competition.py:127-131 | hw1's three computed shades are src's diamond_colors (src/generate_competition_svg.py:85) |
| CompetitionVariants.SameSpiralPalette | src/generate_competition_svg.py:56-58 | both spirals use the same palette, 7 arms and 24 wedges per arm |
| CompetitionVariants.SameHills | hw1/svg_competition.py:170-177 | hw1's paired-up hill table is src's three outlines (src/generate_competition_svg.py:117-119) |
| CompetitionVariants.SameAccents | src/generate_competition_svg.py:122-124 | both variants draw the same three accents |
| CompetitionVariants.SpiralsDiffer | hw1/svg_competition.py:86-99 | the spirals differ in centre, radius range and per-arm angle offset (src/generate_competition_svg.py:62-68) |
| CompetitionVariants.SharedFrame | src/generate_competition_svg.py:38-127 | both documents (2704 and 16956 primitives) start with the same sky and end with the same twelve primitives |

## Left out

- File output is not modelled: `open`, `write`, `os.makedirs`, the final `"\n".join`, and the "Wrote ..." message (hw1/svg_competition.py:73, 192; src/generate_competition_svg.py:129-133). The document is the sequence of primitives.
- The text-only lines are not primitives and are not modelled: the XML/DOCTYPE/`<svg>` header (`emit_header`), the section comments, the blank lines and `</svg>`.
- Decimal formatting of numbers (`.4f`, `.6f`, `.0f`; `fmt`, `fmt_pts`, `fmt_pts_space`) is not modelled. Coordinates stay exact reals.
- `math.cos`, `math.sin` and `math.pi` are a parameter, and IEEE rounding is not modelled.
- CompetitionVariants.SamePanels: holds in exact real arithmetic. In IEEE doubles hw1's `H * 0.58` is 463.99999999999994, which agrees with src's literal 464 only once `.4f` prints both as 464.0000.
- SvgCompetition.QuadSplit: requires at least four corners and four uvs. The IndexError that `corners[k]` or `uvs[k]` raises on a shorter list (hw1/svg_competition.py:67-68) is not modelled, because `main` always passes four.
- SvgCompetition.EmitTexturedQuad: the same requirement and the same reason as QuadSplit.
- SvgCompetition.QuadSplitPairsByCorner: the same requirement and the same reason as QuadSplit.
- SvgCompetition.PairUp: requires an even number of coordinates. The IndexError that `pts[i+1]` raises on an odd-length list (hw1/svg_competition.py:176) is not modelled, because every hill table has an even length.
- The spiral and tile values are stated for any trigonometry. Only hw1's tile directions use the exact quarter-turn values.
- `main`'s return value and `sys.exit` in hw1 are not modelled.
- SvgCompetition.ShadeAt: states hw1's `int()` as `.Floor`. The two agree because every operand is positive.
- CompetitionVariants.SpiralsDiffer: compares the centres and the radius formulas at t = 0 and t = 1. It does not compare the two spirals point by point.
