/** Vocabulary shared by both variants of the competition scene generator:
    the canvas, points and texture coordinates, the drawing primitives the
    SVG serialiser turns into `<polygon>` and `<textri>` elements, and the
    stand-in for the trigonometric functions. */
module Primitives {

  /** Canvas width and height in SVG units. */
  const W: int := 800
  const H: int := 800

  /** Path of the one texture image, relative to the output document. */
  const TEX_PATH: string := "../svg/texmap/pexels_scene.png"

  datatype Point = Point(x: real, y: real)

  /** A normalised texture coordinate. */
  datatype UV = UV(u: real, v: real)

  /** One element of the document, in drawing order.
      Polygon: a solid outline (a triangle or a hill silhouette) and its `#rrggbb` fill.
      TexTri: a textured triangle; uvs[m] is the texture coordinate of pts[m]. */
  datatype Primitive =
    | Polygon(fill: string, pts: seq<Point>)
    | TexTri(texid: string, uvs: seq<UV>, pts: seq<Point>)

  /** A `<texture filename=... texid=...>` declaration. */
  datatype Texture = Texture(filename: string, texid: string)

  /** The single texture both variants declare. */
  const MAP_TEXTURE: Texture := Texture(TEX_PATH, "map")

  /** A cell of a diamond-tiling grid. */
  datatype Cell = Cell(row: nat, col: nat)

  /** Cosine and sine are not modelled: a Trig value stands for them.
      Angles are given in multiples of pi, so cosPi(a) stands for cos(a * pi). */
  datatype Trig = Trig(cosPi: real -> real, sinPi: real -> real)

  /** The exact values at the quarter turns 0, pi/2, pi, 3pi/2 and 2pi. */
  predicate Cardinal(trig: Trig)
  {
    && trig.cosPi(0.0) == 1.0 && trig.sinPi(0.0) == 0.0
    && trig.cosPi(0.5) == 0.0 && trig.sinPi(0.5) == 1.0
    && trig.cosPi(1.0) == -1.0 && trig.sinPi(1.0) == 0.0
    && trig.cosPi(1.5) == 0.0 && trig.sinPi(1.5) == -1.0
    && trig.cosPi(2.0) == 1.0 && trig.sinPi(2.0) == 0.0
  }

  /** The point at distance r from c, in direction a (a multiple of pi). */
  function Polar(trig: Trig, c: Point, r: real, a: real): Point
  {
    Point(c.x + r * trig.cosPi(a), c.y + r * trig.sinPi(a))
  }

  /** A solid triangle. */
  predicate IsTriangle(p: Primitive)
  {
    p.Polygon? && |p.pts| == 3
  }

  /** Every element is a solid polygon. */
  predicate AllSolid(s: seq<Primitive>)
  {
    forall n :: 0 <= n < |s| ==> s[n].Polygon?
  }

  /** Every element is a textured triangle drawing from texture `texid`. */
  predicate AllTextured(s: seq<Primitive>, texid: string)
  {
    forall n :: 0 <= n < |s| ==> s[n].TexTri? && s[n].texid == texid
  }

  lemma SolidConcat(a: seq<Primitive>, b: seq<Primitive>)
    requires AllSolid(a) && AllSolid(b)
    ensures AllSolid(a + b)
  {
    forall n | 0 <= n < |a + b|
      ensures (a + b)[n].Polygon?
    {
      if n >= |a| {
        assert (a + b)[n] == b[n - |a|];
      }
    }
  }

  /** A textured band between two solid runs: an element is textured exactly
      when it lies in the band, and then it uses the band's texture. */
  lemma TexturedBand(pre: seq<Primitive>, band: seq<Primitive>, post: seq<Primitive>, texid: string)
    requires AllSolid(pre) && AllTextured(band, texid) && AllSolid(post)
    ensures forall n :: 0 <= n < |pre + band + post| ==>
              ((pre + band + post)[n].TexTri? <==> |pre| <= n < |pre| + |band|)
    ensures forall n :: 0 <= n < |pre + band + post| && (pre + band + post)[n].TexTri? ==>
              (pre + band + post)[n].texid == texid
  {
    var s := pre + band + post;
    forall n | 0 <= n < |s|
      ensures (s[n].TexTri? <==> |pre| <= n < |pre| + |band|) && (s[n].TexTri? ==> s[n].texid == texid)
    {
      if n < |pre| {
        assert s[n] == pre[n];
      } else if n < |pre| + |band| {
        assert s[n] == band[n - |pre|];
      } else {
        assert s[n] == post[n - |pre| - |band|];
      }
    }
  }

  /** The first n elements f(0), ..., f(n - 1). */
  function Run(f: nat -> Primitive, n: nat): seq<Primitive>
  {
    if n == 0 then [] else Run(f, n - 1) + [f(n - 1)]
  }

  /** Any sequence built by appending blocks of 24 elements, one per arm:
      position k holds element k % 24 of block k / 24. */
  lemma {:induction false} ArmsLayout(whole: nat -> seq<Primitive>, arms: nat -> seq<Primitive>, n: nat)
    requires whole(0) == []
    requires forall a: nat :: whole(a + 1) == whole(a) + arms(a)
    requires forall a: nat :: |arms(a)| == 24
    ensures |whole(n)| == 24 * n
    ensures forall k :: 0 <= k < 24 * n ==> whole(n)[k] == arms(k / 24)[k % 24]
  {
    if n > 0 {
      ArmsLayout(whole, arms, n - 1);
      assert whole(n) == whole(n - 1) + arms(n - 1);
      forall k | 24 * (n - 1) <= k < 24 * n
        ensures whole(n)[k] == arms(k / 24)[k % 24]
      {
        assert k / 24 == n - 1 && k % 24 == k - 24 * (n - 1);
      }
    }
  }

  // A spiral of arms of 24 wedges each: wedge(trig, arm, i) is wedge i of arm
  // `arm` when the trigonometric functions are `trig`.

  const ARM_LENGTH: nat := 24

  /** The first n wedges of arm `arm`. */
  function ArmRun(wedge: (Trig, nat, nat) -> Primitive, trig: Trig, arm: nat, n: nat): seq<Primitive>
  {
    if n == 0 then [] else ArmRun(wedge, trig, arm, n - 1) + [wedge(trig, arm, n - 1)]
  }

  /** The 24 wedges of each of the first n arms, arm by arm. */
  function ArmsRun(wedge: (Trig, nat, nat) -> Primitive, trig: Trig, n: nat): seq<Primitive>
  {
    if n == 0 then [] else ArmsRun(wedge, trig, n - 1) + ArmRun(wedge, trig, n - 1, ARM_LENGTH)
  }

  /** `wedges` gives every step of arm `arm` its wedge. A drawing loop
      reasons about such a `wedges` without looking into the wedges. */
  ghost predicate DrawsArm(wedge: (Trig, nat, nat) -> Primitive, trig: Trig, arm: nat, wedges: nat -> Primitive)
  {
    forall i: nat {:trigger wedge(trig, arm, i)} :: wedges(i) == wedge(trig, arm, i)
  }

  /** Proof helper: a drawing of the arm exists. */
  lemma ArmDrawn(wedge: (Trig, nat, nat) -> Primitive, trig: Trig, arm: nat)
    ensures DrawsArm(wedge, trig, arm, (i: nat) => wedge(trig, arm, i))
  {
  }

  /** A loop that appends wedges(0), ..., wedges(n - 1) has appended the arm's first n wedges. */
  lemma {:induction false} DrawnArmIsArmRun(wedge: (Trig, nat, nat) -> Primitive, trig: Trig, arm: nat, wedges: nat -> Primitive, n: nat)
    requires DrawsArm(wedge, trig, arm, wedges)
    ensures Run(wedges, n) == ArmRun(wedge, trig, arm, n)
  {
    if n > 0 {
      DrawnArmIsArmRun(wedge, trig, arm, wedges, n - 1);
      assert wedges(n - 1) == wedge(trig, arm, n - 1);
    }
  }

  lemma {:induction false} ArmRunAt(wedge: (Trig, nat, nat) -> Primitive, trig: Trig, arm: nat, n: nat)
    ensures |ArmRun(wedge, trig, arm, n)| == n
    ensures forall i :: 0 <= i < n ==> ArmRun(wedge, trig, arm, n)[i] == wedge(trig, arm, i)
  {
    if n > 0 {
      ArmRunAt(wedge, trig, arm, n - 1);
    }
  }

  /** Position k of the first n arms holds wedge k % 24 of arm k / 24, and
      inside an arm position k + 1 holds the next wedge of the same arm. */
  lemma ArmsRunAt(wedge: (Trig, nat, nat) -> Primitive, trig: Trig, n: nat)
    ensures |ArmsRun(wedge, trig, n)| == 24 * n
    ensures forall k :: 0 <= k < 24 * n ==> ArmsRun(wedge, trig, n)[k] == wedge(trig, k / 24, k % 24)
    ensures forall k :: 0 <= k < 24 * n - 1 && k % 24 != 23 ==> ArmsRun(wedge, trig, n)[k + 1] == wedge(trig, k / 24, k % 24 + 1)
  {
    var whole: nat -> seq<Primitive> := (m: nat) => ArmsRun(wedge, trig, m);
    var arms: nat -> seq<Primitive> := (a: nat) => ArmRun(wedge, trig, a, ARM_LENGTH);
    forall a: nat
      ensures |arms(a)| == 24
    {
      ArmRunAt(wedge, trig, a, ARM_LENGTH);
    }
    ArmsLayout(whole, arms, n);
    forall k | 0 <= k < 24 * n
      ensures ArmsRun(wedge, trig, n)[k] == wedge(trig, k / 24, k % 24)
    {
      ArmRunAt(wedge, trig, k / 24, ARM_LENGTH);
    }
    forall k | 0 <= k < 24 * n - 1 && k % 24 != 23
      ensures ArmsRun(wedge, trig, n)[k + 1] == wedge(trig, k / 24, k % 24 + 1)
    {
      assert (k + 1) / 24 == k / 24 && (k + 1) % 24 == k % 24 + 1;
    }
  }

  /** The first layer and the last three layers of a six-layer document. */
  lemma LayerEnds(a: seq<Primitive>, b: seq<Primitive>, c: seq<Primitive>, d: seq<Primitive>, e: seq<Primitive>, f: seq<Primitive>)
    ensures (a + b + c + d + e + f)[..|a|] == a
    ensures (a + b + c + d + e + f)[|a| + |b| + |c|..] == d + e + f
  {
    var s := a + b + c + d + e + f;
    assert s == (a + b + c) + (d + e + f);
  }

  /** Regrouping a concatenation; called where a loop appends to its output. */
  lemma AppendAssoc(a: seq<Primitive>, b: seq<Primitive>, c: seq<Primitive>)
    ensures a + b + c == a + (b + c)
  {
  }

  /** Extending a prefix by one element. */
  lemma PrefixSnoc(s: seq<Primitive>, k: nat)
    requires k < |s|
    ensures s[..k + 1] == s[..k] + [s[k]]
  {
  }
}
