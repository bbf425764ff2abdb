/**
 * The procedural card art of src/components/TarotCardArt.tsx: the palette
 * table and the parameters `createSpec` draws for a card. Every `rand()`
 * call advances one shared generator, so the helpers are methods on a
 * Generator; what they compute is stated as functions of the draws they
 * consume, and the bounds of every parameter are lemmas about those
 * functions. SVG path text is left out: a path is the record of numbers
 * it is printed from.
 */
module CardArt {
  import opened Utf16
  import opened Mulberry32
  import opened Tarot

  /** The six colours a card is painted with. */
  datatype Palette = Palette(backgroundA: Text, backgroundB: Text, frame: Text, accent: Text,
                             line: Text, highlight: Text)

  const Palettes: seq<Palette> := [
    Palette(Lit("#fef6e4"), Lit("#f7d9c4"), Lit("#6f4a3d"), Lit("#b05f6d"), Lit("#3b2c35"), Lit("#7dcfb6")),
    Palette(Lit("#fdf2f8"), Lit("#fce7f3"), Lit("#7a4f7a"), Lit("#d86c89"), Lit("#3c2a4d"), Lit("#f8c77d")),
    Palette(Lit("#f3f8ee"), Lit("#dce6c7"), Lit("#597a5c"), Lit("#99c5b5"), Lit("#3a4d42"), Lit("#f2a541")),
    Palette(Lit("#f4f1de"), Lit("#e0c097"), Lit("#9c6644"), Lit("#a44a3f"), Lit("#43302e"), Lit("#68a691")),
    Palette(Lit("#edf7fc"), Lit("#d6e6f2"), Lit("#4b6587"), Lit("#9dacff"), Lit("#2b3a55"), Lit("#f1b963")),
    Palette(Lit("#fff5f0"), Lit("#f9dcc4"), Lit("#7f5539"), Lit("#c2847a"), Lit("#463f3a"), Lit("#9dc08b"))
  ]

  const CardWidth: real := 300.0
  const CardHeight: real := 480.0

  /** The numbers of one vine, `M startX bottomMargin C (startX -
      controlOffset) midY, (endX + controlOffset) midY, endX topMargin`. */
  datatype Vine = Vine(topMargin: real, bottomMargin: real, midY: real, sway: real,
                       startX: real, controlOffset: real, endX: real)

  /** The drawn part of one petal: its place in the flower (radius and
      angle in degrees), its length and its half-width. */
  datatype Petal = Petal(radius: real, angle: real, length: real, width: real)

  /** The numbers of one motif: the y of its top, the y of its bottom, its
      half-width and the depth of its side controls. */
  datatype Motif = Motif(top: real, bottom: real, width: real, control: real)

  /** What `createSpec` returns. */
  datatype CardSpec = CardSpec(palette: Palette, vines: seq<Vine>, petals: seq<Petal>, motifs: seq<Motif>)

  const VineCount: nat := 3
  const MotifCount: nat := 2

  /** Draws per helper call. */
  const CurveDraws: nat := 6
  const PetalDraws: nat := 2
  const MotifDraws: nat := 3

  /** (radius, angle) of the five petals, in the order they are drawn. */
  const PetalPlaces: seq<(real, real)> := [(110.0, 0.0), (120.0, 72.0), (130.0, 144.0), (140.0, 216.0), (150.0, 288.0)]

  /** Where the petal draws and the motif draws of a spec begin (18 and
      28), and how many draws a spec consumes (34). */
  const PetalsFrom: nat := VineCount * CurveDraws
  const MotifsFrom: nat := PetalsFrom + |PetalPlaces| * PetalDraws
  const SpecDraws: nat := MotifsFrom + MotifCount * MotifDraws

  /** Floats as `rand()` returns them: each in [0, 1). */
  predicate InUnit(r: seq<real>)
  {
    forall k :: 0 <= k < |r| ==> 0.0 <= r[k] < 1.0
  }

  // ---------------------------------------------------------------------
  // What each helper computes from the floats it draws
  // ---------------------------------------------------------------------

  /** `createOrganicCurve(rand, variant)` when its six draws are floats
      k .. k + 5 of `r`, in the order the helper draws them. */
  function CurveOf(r: seq<real>, k: nat, variant: nat): Vine
    requires k + CurveDraws <= |r|
  {
    var topMargin := 30.0 + r[k] * 40.0;
    var bottomMargin := 380.0 + r[k + 1] * 40.0;
    var midY := CardHeight / 2.0 + (r[k + 2] - 0.5) * 80.0;
    var sway := 40.0 + r[k + 3] * 80.0;
    var startX := 60.0 + variant as real * 25.0 + r[k + 4] * 10.0;
    var controlOffset := sway * (if r[k + 5] > 0.5 then 1.0 else -1.0);
    Vine(topMargin, bottomMargin, midY, sway, startX, controlOffset, CardWidth - startX)
  }

  /** `createPetal(rand, radius, angle)` when its two draws are floats k
      and k + 1 of `r`. */
  function PetalOf(r: seq<real>, k: nat, radius: real, angle: real): Petal
    requires k + PetalDraws <= |r|
  {
    Petal(radius, angle, radius * (0.6 + r[k] * 0.3), 18.0 + r[k + 1] * 12.0)
  }

  /** `createMotif(rand)` when its three draws are floats k .. k + 2 of `r`. */
  function MotifOf(r: seq<real>, k: nat): Motif
    requires k + MotifDraws <= |r|
  {
    var top := 100.0 + r[k] * 60.0;
    Motif(top, CardHeight - top, 40.0 + r[k + 1] * 30.0, 80.0 + r[k + 2] * 30.0)
  }

  /** The vines of a spec whose floats are `r`: vine v takes floats 6v ..
      6v + 5. */
  function VinesOf(r: seq<real>): (vines: seq<Vine>)
    requires PetalsFrom <= |r|
    ensures |vines| == VineCount
  {
    seq(VineCount, v requires 0 <= v < VineCount => CurveOf(r, v * CurveDraws, v))
  }

  /** The petals of a spec whose floats are `r`: petal p takes floats 18 +
      2p and 19 + 2p and the p-th (radius, angle). */
  function PetalsOf(r: seq<real>): (petals: seq<Petal>)
    requires MotifsFrom <= |r|
    ensures |petals| == |PetalPlaces|
  {
    seq(|PetalPlaces|, p requires 0 <= p < |PetalPlaces| =>
      PetalOf(r, PetalsFrom + p * PetalDraws, PetalPlaces[p].0, PetalPlaces[p].1))
  }

  /** The motifs of a spec whose floats are `r`: motif m takes floats 28 +
      3m .. 30 + 3m. */
  function MotifsOf(r: seq<real>): (motifs: seq<Motif>)
    requires SpecDraws <= |r|
    ensures |motifs| == MotifCount
  {
    seq(MotifCount, m requires 0 <= m < MotifCount => MotifOf(r, MotifsFrom + m * MotifDraws))
  }

  /** The spec of a card: palette `seed % 6`, then the first 34 floats of
      mulberry32(seed), the first 18 for the vines, the next 10 for the
      petals, the last 6 for the motifs. */
  function SpecOf(cardId: Text): CardSpec
  {
    var seed := SeedOf(cardId);
    var r := SpecFloats(cardId);
    CardSpec(Palettes[seed % |Palettes|], VinesOf(r), PetalsOf(r), MotifsOf(r))
  }

  /** The 34 floats a card's spec is drawn from: the first draws of
      mulberry32(seed), each in [0, 1). */
  function SpecFloats(cardId: Text): (r: seq<real>)
    ensures |r| == SpecDraws && InUnit(r)
  {
    Floats(Stream(Uint32(SeedOf(cardId)), SpecDraws))
  }

  // ---------------------------------------------------------------------
  // Bounds of each drawn parameter
  // ---------------------------------------------------------------------

  /** A vine of variant v: its margins, its middle and its sway lie in
      fixed bands, it starts in a band of its own 25 units right of the
      previous variant's and ends mirrored about the centre line, and it
      bends by +sway exactly when its sixth float exceeds 0.5, else by
      -sway. */
  lemma CurveBounds(r: seq<real>, k: nat, variant: nat)
    requires k + CurveDraws <= |r| && InUnit(r)
    ensures 30.0 <= CurveOf(r, k, variant).topMargin < 70.0
    ensures 380.0 <= CurveOf(r, k, variant).bottomMargin < 420.0
    ensures 200.0 <= CurveOf(r, k, variant).midY < 280.0
    ensures 40.0 <= CurveOf(r, k, variant).sway < 120.0
    ensures 60.0 + 25.0 * variant as real <= CurveOf(r, k, variant).startX < 70.0 + 25.0 * variant as real
    ensures CurveOf(r, k, variant).startX + CurveOf(r, k, variant).endX == CardWidth
    ensures r[k + 5] > 0.5 ==> CurveOf(r, k, variant).controlOffset == CurveOf(r, k, variant).sway
    ensures r[k + 5] <= 0.5 ==> CurveOf(r, k, variant).controlOffset == -CurveOf(r, k, variant).sway
  {
  }

  /** A petal is between 0.6 and 0.9 of its radius long and between 18 and
      30 wide. */
  lemma PetalBounds(r: seq<real>, k: nat, radius: real, angle: real)
    requires k + PetalDraws <= |r| && InUnit(r) && radius > 0.0
    ensures 0.6 * radius <= PetalOf(r, k, radius, angle).length < 0.9 * radius
    ensures 18.0 <= PetalOf(r, k, radius, angle).width < 30.0
    ensures PetalOf(r, k, radius, angle).radius == radius && PetalOf(r, k, radius, angle).angle == angle
  {
    ScaleBetween(radius, r[k]);
  }

  /** radius * (0.6 + x * 0.3) lies in [0.6 radius, 0.9 radius) for x in
      [0, 1). */
  lemma ScaleBetween(radius: real, x: real)
    requires radius > 0.0 && 0.0 <= x < 1.0
    ensures 0.6 * radius <= radius * (0.6 + x * 0.3) < 0.9 * radius
  {
    assert radius * (0.6 + x * 0.3) == 0.6 * radius + 0.3 * (radius * x);
    assert radius * x < radius * 1.0;
  }

  /** A motif sits in the middle band, mirrored top to bottom about the
      card's centre line. */
  lemma MotifBounds(r: seq<real>, k: nat)
    requires k + MotifDraws <= |r| && InUnit(r)
    ensures 100.0 <= MotifOf(r, k).top < 160.0
    ensures MotifOf(r, k).top + MotifOf(r, k).bottom == CardHeight
    ensures 40.0 <= MotifOf(r, k).width < 70.0
    ensures 80.0 <= MotifOf(r, k).control < 110.0
  {
  }

  /** Every spec has three vines, five petals in the fixed (radius, angle)
      order and two motifs, and a palette of the table picked by
      `seed % 6`. */
  lemma SpecShape(cardId: Text)
    ensures |SpecOf(cardId).vines| == 3 && |SpecOf(cardId).petals| == 5 && |SpecOf(cardId).motifs| == 2
    ensures 0 <= SeedOf(cardId) % 6 < 6 && SpecOf(cardId).palette == Palettes[SeedOf(cardId) % 6]
    ensures forall p :: 0 <= p < 5 ==>
      SpecOf(cardId).petals[p].radius == 110.0 + 10.0 * p as real &&
      SpecOf(cardId).petals[p].angle == 72.0 * p as real
  {
    var spec := SpecOf(cardId);
    var r := SpecFloats(cardId);
    forall p | 0 <= p < 5
      ensures spec.petals[p].radius == 110.0 + 10.0 * p as real && spec.petals[p].angle == 72.0 * p as real
    {
      PetalBounds(r, PetalsFrom + p * PetalDraws, PetalPlaces[p].0, PetalPlaces[p].1);
    }
  }

  /** Every vine of a spec lies in its bands and bends by +sway exactly
      when its sixth float (float 6v + 5 of the spec) exceeds 0.5, else
      by -sway. */
  lemma SpecVineBounds(cardId: Text)
    ensures forall v :: 0 <= v < 3 ==>
      60.0 + 25.0 * v as real <= SpecOf(cardId).vines[v].startX < 70.0 + 25.0 * v as real &&
      SpecOf(cardId).vines[v].startX + SpecOf(cardId).vines[v].endX == CardWidth &&
      30.0 <= SpecOf(cardId).vines[v].topMargin < 70.0 &&
      380.0 <= SpecOf(cardId).vines[v].bottomMargin < 420.0 &&
      200.0 <= SpecOf(cardId).vines[v].midY < 280.0 &&
      40.0 <= SpecOf(cardId).vines[v].sway < 120.0
    ensures forall v :: 0 <= v < 3 ==>
      (SpecFloats(cardId)[v * 6 + 5] > 0.5 ==> SpecOf(cardId).vines[v].controlOffset == SpecOf(cardId).vines[v].sway) &&
      (SpecFloats(cardId)[v * 6 + 5] <= 0.5 ==> SpecOf(cardId).vines[v].controlOffset == -SpecOf(cardId).vines[v].sway)
  {
    var spec := SpecOf(cardId);
    var r := SpecFloats(cardId);
    forall v | 0 <= v < 3
      ensures 60.0 + 25.0 * v as real <= spec.vines[v].startX < 70.0 + 25.0 * v as real
      ensures spec.vines[v].startX + spec.vines[v].endX == CardWidth
      ensures 30.0 <= spec.vines[v].topMargin < 70.0 && 380.0 <= spec.vines[v].bottomMargin < 420.0
      ensures 200.0 <= spec.vines[v].midY < 280.0 && 40.0 <= spec.vines[v].sway < 120.0
      ensures r[v * 6 + 5] > 0.5 ==> spec.vines[v].controlOffset == spec.vines[v].sway
      ensures r[v * 6 + 5] <= 0.5 ==> spec.vines[v].controlOffset == -spec.vines[v].sway
    {
      CurveBounds(r, v * CurveDraws, v);
    }
  }

  /** Every petal of a spec is between 0.6 and 0.9 of its radius long and
      between 18 and 30 wide; every motif has its top in [100, 160), its
      bottom mirrored about the centre line, its width in [40, 70) and its
      control in [80, 110). */
  lemma SpecPetalMotifBounds(cardId: Text)
    ensures forall p :: 0 <= p < 5 ==>
      18.0 <= SpecOf(cardId).petals[p].width < 30.0 &&
      0.6 * SpecOf(cardId).petals[p].radius <= SpecOf(cardId).petals[p].length < 0.9 * SpecOf(cardId).petals[p].radius
    ensures forall m :: 0 <= m < 2 ==>
      100.0 <= SpecOf(cardId).motifs[m].top < 160.0 &&
      SpecOf(cardId).motifs[m].bottom == CardHeight - SpecOf(cardId).motifs[m].top &&
      40.0 <= SpecOf(cardId).motifs[m].width < 70.0 &&
      80.0 <= SpecOf(cardId).motifs[m].control < 110.0
  {
    var spec := SpecOf(cardId);
    var r := SpecFloats(cardId);
    forall p | 0 <= p < 5
      ensures 18.0 <= spec.petals[p].width < 30.0
      ensures 0.6 * spec.petals[p].radius <= spec.petals[p].length < 0.9 * spec.petals[p].radius
    {
      PetalBounds(r, PetalsFrom + p * PetalDraws, PetalPlaces[p].0, PetalPlaces[p].1);
    }
    forall m | 0 <= m < 2
      ensures 100.0 <= spec.motifs[m].top < 160.0 && spec.motifs[m].bottom == CardHeight - spec.motifs[m].top
      ensures 40.0 <= spec.motifs[m].width < 70.0 && 80.0 <= spec.motifs[m].control < 110.0
    {
      MotifBounds(r, MotifsFrom + m * MotifDraws);
    }
  }

  // ---------------------------------------------------------------------
  // The helpers, drawing from a shared generator
  // ---------------------------------------------------------------------
  // Each helper is handed the generator part-way through a planned run of
  // n draws from counter t0 and consumes draws k, k + 1, ... of that run.

  /** `rand()`: draw k of the run, as the float the closure returns. */
  method Rand(random: Generator, ghost t0: bv32, ghost n: nat, ghost k: nat) returns (x: real)
    requires k < n && random.t == Advance(t0, k)
    modifies random
    ensures random.t == Advance(t0, k + 1)
    ensures x == Floats(Stream(t0, n))[k]
  {
    var u := random.Next();
    DrawAt(t0, n, k, random.t, u);
    x := Value(u);
    FloatsAt(Stream(t0, n), k);
  }

  /** `createOrganicCurve(rand, variant)`: six draws, in the order top
      margin, bottom margin, middle, sway, start, bend. */
  method CreateOrganicCurve(random: Generator, variant: nat, ghost t0: bv32, ghost n: nat, ghost k: nat)
      returns (vine: Vine)
    requires k + CurveDraws <= n && random.t == Advance(t0, k)
    modifies random
    ensures random.t == Advance(t0, k + CurveDraws)
    ensures vine == CurveOf(Floats(Stream(t0, n)), k, variant)
  {
    var r := Rand(random, t0, n, k);
    var topMargin := 30.0 + r * 40.0;
    r := Rand(random, t0, n, k + 1);
    var bottomMargin := 380.0 + r * 40.0;
    r := Rand(random, t0, n, k + 2);
    var midY := CardHeight / 2.0 + (r - 0.5) * 80.0;
    r := Rand(random, t0, n, k + 3);
    var sway := 40.0 + r * 80.0;
    r := Rand(random, t0, n, k + 4);
    var startX := 60.0 + variant as real * 25.0 + r * 10.0;
    r := Rand(random, t0, n, k + 5);
    var controlOffset := sway * (if r > 0.5 then 1.0 else -1.0);
    var endX := CardWidth - startX;
    vine := Vine(topMargin, bottomMargin, midY, sway, startX, controlOffset, endX);
  }

  /** `createPetal(rand, radius, angle)`, up to its two draws: length, then
      width. */
  method CreatePetal(random: Generator, radius: real, angle: real, ghost t0: bv32, ghost n: nat, ghost k: nat)
      returns (petal: Petal)
    requires k + PetalDraws <= n && random.t == Advance(t0, k)
    modifies random
    ensures random.t == Advance(t0, k + PetalDraws)
    ensures petal == PetalOf(Floats(Stream(t0, n)), k, radius, angle)
  {
    var r := Rand(random, t0, n, k);
    var length := radius * (0.6 + r * 0.3);
    r := Rand(random, t0, n, k + 1);
    var width := 18.0 + r * 12.0;
    petal := Petal(radius, angle, length, width);
  }

  /** `createMotif(rand)`: three draws, top, width, control. */
  method CreateMotif(random: Generator, ghost t0: bv32, ghost n: nat, ghost k: nat) returns (motif: Motif)
    requires k + MotifDraws <= n && random.t == Advance(t0, k)
    modifies random
    ensures random.t == Advance(t0, k + MotifDraws)
    ensures motif == MotifOf(Floats(Stream(t0, n)), k)
  {
    var r := Rand(random, t0, n, k);
    var top := 100.0 + r * 60.0;
    var bottom := CardHeight - top;
    r := Rand(random, t0, n, k + 1);
    var width := 40.0 + r * 30.0;
    r := Rand(random, t0, n, k + 2);
    var control := 80.0 + r * 30.0;
    motif := Motif(top, bottom, width, control);
  }

  /** `Array.from({ length: 3 }, (_, index) => createOrganicCurve(rand, index))`:
      draws 0 .. 17 of the run. */
  method CreateVines(random: Generator, ghost t0: bv32, ghost n: nat) returns (vines: seq<Vine>)
    requires PetalsFrom <= n && random.t == Advance(t0, 0)
    modifies random
    ensures random.t == Advance(t0, PetalsFrom)
    ensures vines == VinesOf(Floats(Stream(t0, n)))
  {
    ghost var goal := VinesOf(Floats(Stream(t0, n)));
    vines := [];
    var index := 0;
    while index < VineCount
      invariant 0 <= index <= VineCount
      invariant random.t == Advance(t0, index * CurveDraws)
      invariant vines == goal[..index]
    {
      var vine := CreateOrganicCurve(random, index, t0, n, index * CurveDraws);
      vines := vines + [vine];
      index := index + 1;
    }
  }

  /** The five `createPetal` calls, in (radius, angle) order: draws 18 ..
      27 of the run. */
  method CreatePetals(random: Generator, ghost t0: bv32, ghost n: nat) returns (petals: seq<Petal>)
    requires MotifsFrom <= n && random.t == Advance(t0, PetalsFrom)
    modifies random
    ensures random.t == Advance(t0, MotifsFrom)
    ensures petals == PetalsOf(Floats(Stream(t0, n)))
  {
    ghost var k: nat := PetalsFrom;
    var p0 := CreatePetal(random, 110.0, 0.0, t0, n, k);
    var p1 := CreatePetal(random, 120.0, 72.0, t0, n, k + 2);
    var p2 := CreatePetal(random, 130.0, 144.0, t0, n, k + 4);
    var p3 := CreatePetal(random, 140.0, 216.0, t0, n, k + 6);
    var p4 := CreatePetal(random, 150.0, 288.0, t0, n, k + 8);
    petals := [p0, p1, p2, p3, p4];
  }

  /** `Array.from({ length: 2 }, () => createMotif(rand))`: draws 28 .. 33
      of the run. */
  method CreateMotifs(random: Generator, ghost t0: bv32, ghost n: nat) returns (motifs: seq<Motif>)
    requires SpecDraws <= n && random.t == Advance(t0, MotifsFrom)
    modifies random
    ensures random.t == Advance(t0, SpecDraws)
    ensures motifs == MotifsOf(Floats(Stream(t0, n)))
  {
    ghost var goal := MotifsOf(Floats(Stream(t0, n)));
    motifs := [];
    var index := 0;
    while index < MotifCount
      invariant 0 <= index <= MotifCount
      invariant random.t == Advance(t0, MotifsFrom + index * MotifDraws)
      invariant motifs == goal[..index]
    {
      var motif := CreateMotif(random, t0, n, MotifsFrom + index * MotifDraws);
      motifs := motifs + [motif];
      index := index + 1;
    }
  }

  /** The spec of a card is the spec of the run its seed starts. */
  lemma SpecIsRun(cardId: Text, t0: bv32, n: nat)
    requires t0 == Uint32(SeedOf(cardId)) && n == SpecDraws
    ensures SpecOf(cardId) == CardSpec(Palettes[SeedOf(cardId) % |Palettes|], VinesOf(Floats(Stream(t0, n))),
                                       PetalsOf(Floats(Stream(t0, n))), MotifsOf(Floats(Stream(t0, n))))
  {
  }

  /** `createSpec(cardId)`: seed the generator from the id, pick the
      palette, then draw vines, petals and motifs in that order. The spec
      depends on the id alone. */
  method CreateSpec(cardId: Text) returns (spec: CardSpec)
    ensures spec == SpecOf(cardId)
  {
    var seed := SeedFromString(cardId);
    var random := new Generator(seed);
    ghost var t0 := random.t;
    ghost var n: nat := SpecDraws;
    SpecIsRun(cardId, t0, n);
    var palette := Palettes[seed % |Palettes|];
    var vines := CreateVines(random, t0, n);
    var petals := CreatePetals(random, t0, n);
    var motifs := CreateMotifs(random, t0, n);
    spec := CardSpec(palette, vines, petals, motifs);
  }
}
