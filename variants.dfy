/** What the two variants of the generator have in common. Both draw the same
    six layers in the same order; the background, the textured panels, the
    hills, the accents and both palettes agree, while the spiral geometry
    and the tiling differ. */
module CompetitionVariants {
  import opened Primitives
  import Hw1 = SvgCompetition
  import Src = GenerateCompetitionSvg

  /** The two skies are the same four triangles (H * 0.5 and H / 2 agree). */
  lemma SameBackground()
    ensures Hw1.BackgroundLayer() == Src.BackgroundLayer()
  {
  }

  /** The panel corners that hw1 computes from fractions of the canvas are
      the integer corners src writes out, and the uvs agree corner by corner:
      the six textured triangles are identical. */
  lemma SamePanels()
    ensures Hw1.PanelLayer() == Src.PanelLayer()
  {
    Hw1.PanelLayerShape();
  }

  /** The shades hw1 computes, 0.15 + 0.25 * idx turned into channels and
      hex digits, are exactly the three colours src lists. */
  lemma SameDiamondPalette()
    ensures forall idx :: 0 <= idx < 3 ==> Hw1.ShadeColor(idx) == Src.DIAMOND_COLORS[idx]
  {
    Hw1.ShadeTable();
  }

  lemma SameSpiralPalette()
    ensures Hw1.SPIRAL_COLORS == Src.SPIRAL_COLORS
    ensures Hw1.NUM_ARMS == Src.NUM_ARMS && Hw1.TRIANGLES_PER_ARM == Src.SEGMENTS_PER_ARM
  {
  }

  /** hw1's hills, flat coordinate lists paired up, are src's outlines. */
  lemma SameHills()
    ensures Hw1.HillLayer() == Src.HillLayer()
  {
    SameFirstHill();
    SameSecondHill();
    SameThirdHill();
  }

  lemma SameFirstHill()
    ensures Hw1.HillLayer()[0] == Src.HillLayer()[0]
  {
    var p := Hw1.PairUp(Hw1.HILLS[0].1);
    assert p == [p[0], p[1], p[2], p[3], p[4], p[5], p[6], p[7]];
  }

  lemma SameSecondHill()
    ensures Hw1.HillLayer()[1] == Src.HillLayer()[1]
  {
    var p := Hw1.PairUp(Hw1.HILLS[1].1);
    assert p == [p[0], p[1], p[2], p[3], p[4], p[5], p[6], p[7]];
  }

  lemma SameThirdHill()
    ensures Hw1.HillLayer()[2] == Src.HillLayer()[2]
  {
    var p := Hw1.PairUp(Hw1.HILLS[2].1);
    assert p == [p[0], p[1], p[2], p[3], p[4], p[5], p[6], p[7], p[8]];
  }

  lemma SameAccents()
    ensures Hw1.AccentLayer() == Src.AccentLayer()
  {
  }

  /** The spirals differ: hw1 centres at (W/2, 0.45 H) with radius
      40 + 220 t and offsets each arm by 2 pi arm / 7, src centres at
      (W/2, H/2) with radius 50 + 230 t and gives every arm the same angle. */
  lemma SpiralsDiffer()
    ensures Hw1.SPIRAL_CENTRE != Src.CENTRE
    ensures Hw1.SpiralRadius(0.0) == 40.0 && Src.SpiralRadius(0.0) == 50.0
    ensures Hw1.SpiralRadius(1.0) == 260.0 && Src.SpiralRadius(1.0) == 280.0
    ensures Hw1.SpiralAngle(1, 0.0) != Hw1.SpiralAngle(0, 0.0)
  {
  }

  /** Both documents declare the one texture, start with the same sky and
      end with the same twelve primitives: panels, hills and accents. Only the
      spiral and the tiling between them differ in size: 168 + 2520 in hw1,
      168 + 16772 in src. */
  lemma SharedFrame(trig1: Trig, trig2: Trig)
    ensures |Hw1.SceneLayers(trig1)| == 2704 && |Src.SceneLayers(trig2)| == 16956
    ensures Hw1.SceneLayers(trig1)[..4] == Src.SceneLayers(trig2)[..4]
    ensures Hw1.SceneLayers(trig1)[2692..] == Src.SceneLayers(trig2)[16944..]
  {
    Hw1.SceneLayout(trig1);
    Src.SceneLayout(trig2);
    Src.SceneFrame(trig2);
    SameBackground();
    SamePanels();
    SameHills();
    SameAccents();
  }
}
