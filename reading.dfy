/**
 * The reading logic of src/App.tsx: the table of spreads, the lookup of
 * the selected spread, `buildReading`, and the seed text `handleDraw`
 * composes for the next reading.
 */
module Reading {
  import opened Utf16
  import opened Mulberry32
  import opened Tarot

  datatype Option<T> = None | Some(value: T)

  /** One way of laying out cards: an id, a title (`label` in the page,
      a reserved word here), a blurb and a label per card. */
  datatype SpreadDefinition = SpreadDefinition(id: Text, title: Text, description: Text, positions: seq<Text>)

  /** One card of a reading. `card` is None where JavaScript reads past the
      end of the deck and gets `undefined`. */
  datatype ReadingCard = ReadingCard(card: Option<TarotCard>, reversed: bool, positionLabel: Text)

  /** The three spreads, in the order the page lists them. */
  const Spreads: seq<SpreadDefinition> := [
    SpreadDefinition(
      Lit("single"), Lit("Single Insight"),
      Lit("One card to illuminate the core of your question."),
      [Lit("Illumination")]),
    SpreadDefinition(
      Lit("three"), Lit("Past | Present | Future"),
      Lit("A balanced look at how your story is unfolding."),
      [Lit("Past"), Lit("Present"), Lit("Future")]),
    SpreadDefinition(
      Lit("five"), Lit("Crossroads of Growth"),
      Lit("Explore influences, challenges, support, guidance, and momentum."),
      [Lit("Root"), Lit("Challenge"), Lit("Support"), Lit("Guidance"), Lit("Trajectory")])
  ]

  /** The spread a fresh page starts with: `spreads[1].id`. */
  const InitialSpreadId: Text := Spreads[1].id

  /** The offset between the deck seed and the orientation seed. */
  const OrientationOffset: int := 137

  /** Every spread has between one and five positions, and no two spreads
      share an id. */
  lemma SpreadsWellFormed()
    ensures |Spreads| == 3
    ensures forall k :: 0 <= k < |Spreads| ==> 1 <= |Spreads[k].positions| <= 5
    ensures forall a, b :: 0 <= a < b < |Spreads| ==> Spreads[a].id != Spreads[b].id
    ensures |Spreads[0].positions| == 1 && |Spreads[1].positions| == 3 && |Spreads[2].positions| == 5
  {
    assert Spreads[0].id[0] != Spreads[1].id[0];
    assert Spreads[0].id[0] != Spreads[2].id[0];
    assert Spreads[1].id[0] != Spreads[2].id[0];
  }

  /** `spreads.find(option => option.id === id)`: the index of the first
      spread with that id, if any. */
  function FindSpread(spreads: seq<SpreadDefinition>, id: Text): (r: Option<nat>)
    ensures r.Some? ==> r.value < |spreads| && spreads[r.value].id == id
    ensures r.Some? ==> forall k :: 0 <= k < r.value ==> spreads[k].id != id
    ensures r.None? <==> forall k :: 0 <= k < |spreads| ==> spreads[k].id != id
  {
    if spreads == [] then None
    else if spreads[0].id == id then Some(0)
    else match FindSpread(spreads[1..], id)
      case None => None
      case Some(k) => Some(k + 1)
  }

  /** `spreads.find(...) ?? spreads[0]`. */
  function SelectedSpread(spreadId: Text): (s: SpreadDefinition)
    ensures s in Spreads
    ensures s.id == spreadId || (s == Spreads[0] && forall k :: 0 <= k < |Spreads| ==> Spreads[k].id != spreadId)
  {
    match FindSpread(Spreads, spreadId)
      case Some(k) => Spreads[k]
      case None => Spreads[0]
  }

  /** Each listed spread is selected by its own id; whatever the id, the
      selected spread has at most five positions. */
  lemma SelectedSpreadFacts(spreadId: Text)
    ensures forall k :: 0 <= k < |Spreads| && Spreads[k].id == spreadId ==> SelectedSpread(spreadId) == Spreads[k]
    ensures 1 <= |SelectedSpread(spreadId).positions| <= 5
    ensures SelectedSpread(InitialSpreadId) == Spreads[1]
  {
    SpreadsWellFormed();
  }

  /** Dealing a deck onto positions: entry i takes deck card i (None past
      the end of the deck), is reversed when orientation draw i is above
      0.5, and carries position label i. */
  function Deal(deck: seq<TarotCard>, flips: seq<bv32>, positions: seq<Text>): (r: seq<ReadingCard>)
    requires |flips| == |positions|
    ensures |r| == |positions|
    decreases |positions|
  {
    if positions == [] then []
    else
      [ReadingCard(if deck != [] then Some(deck[0]) else None, Value(flips[0]) > 0.5, positions[0])] +
      Deal(if deck != [] then deck[1..] else [], flips[1..], positions[1..])
  }

  /** Entry i of a deal, spelled out. */
  lemma {:induction false} DealAt(deck: seq<TarotCard>, flips: seq<bv32>, positions: seq<Text>, i: nat)
    requires |flips| == |positions| && i < |positions|
    ensures Deal(deck, flips, positions)[i] ==
      ReadingCard(if i < |deck| then Some(deck[i]) else None, Value(flips[i]) > 0.5, positions[i])
    decreases i
  {
    if i > 0 {
      DealAt(if deck != [] then deck[1..] else [], flips[1..], positions[1..], i - 1);
    }
  }

  /** The reading `buildReading(seedText, spread)` returns: the shuffled
      deck of seed `seedFromString(seedText)` dealt in order, orientations
      drawn from a second generator seeded 137 higher. */
  function ReadingOf(catalog: seq<TarotCard>, seedText: Text, positions: seq<Text>): (r: seq<ReadingCard>)
    ensures |r| == |positions|
  {
    var seed := SeedOf(seedText);
    Deal(ShuffledDeck(catalog, seed), Stream(Uint32(seed + OrientationOffset), |positions|), positions)
  }

  /** A reading is the deal of the shuffled deck with the orientation
      draws of the generator seeded 137 above the deck seed. */
  lemma ReadingIsDeal(catalog: seq<TarotCard>, seedText: Text, positions: seq<Text>,
                      deck: seq<TarotCard>, t0: bv32)
    requires deck == ShuffledDeck(catalog, SeedOf(seedText))
    requires t0 == Uint32(SeedOf(seedText) + OrientationOffset)
    ensures ReadingOf(catalog, seedText, positions) == Deal(deck, Stream(t0, |positions|), positions)
  {
  }

  /** The entry a pass of the loop of `buildReading` appends: with the
      orientation generator at `t` after `index` earlier draws and `u` its
      next output, it is entry `index` of the deal. */
  lemma Dealt(deck: seq<TarotCard>, positions: seq<Text>, t0: bv32, index: nat, t: bv32, u: bv32)
    requires index < |positions|
    requires t == Advance(t0, index) + Increment && u == Mix(t)
    ensures t == Advance(t0, index + 1)
    ensures Deal(deck, Stream(t0, |positions|), positions)[index] ==
      ReadingCard(if index < |deck| then Some(deck[index]) else None, Value(u) > 0.5, positions[index])
  {
    DrawAt(t0, |positions|, index, t, u);
    DealAt(deck, Stream(t0, |positions|), positions, index);
  }

  /** Entry i of a reading: its card is deck card i, present exactly when
      the catalog has more than i cards; its label is position i; it is
      reversed exactly when draw i of the orientation generator is above
      2^31, the (i+1)-th raw output of mulberry32(seed + 137). */
  lemma ReadingEntry(catalog: seq<TarotCard>, seedText: Text, positions: seq<Text>, i: nat)
    requires i < |positions|
    ensures ReadingOf(catalog, seedText, positions)[i].card.Some? <==> i < |catalog|
    ensures i < |catalog| ==>
      ReadingOf(catalog, seedText, positions)[i].card.value == ShuffledDeck(catalog, SeedOf(seedText))[i]
    ensures ReadingOf(catalog, seedText, positions)[i].positionLabel == positions[i]
    ensures ReadingOf(catalog, seedText, positions)[i].reversed <==>
      Mix(Advance(Uint32(SeedOf(seedText) + OrientationOffset), i + 1)) as int > TwoTo31
  {
    var seed := SeedOf(seedText);
    var deck := ShuffledDeck(catalog, seed);
    ShuffledDeckIsPermutation(catalog, seed);
    var t := Uint32(seed + OrientationOffset);
    ReadingIsDeal(catalog, seedText, positions, deck, t);
    EntryOfDeal(deck, t, positions, i);
  }

  /** Entry i of a deal with the orientation generator started at t. */
  lemma EntryOfDeal(deck: seq<TarotCard>, t: bv32, positions: seq<Text>, i: nat)
    requires i < |positions|
    ensures Deal(deck, Stream(t, |positions|), positions)[i].card == (if i < |deck| then Some(deck[i]) else None)
    ensures Deal(deck, Stream(t, |positions|), positions)[i].positionLabel == positions[i]
    ensures Deal(deck, Stream(t, |positions|), positions)[i].reversed <==> Mix(Advance(t, i + 1)) as int > TwoTo31
  {
    var flips := Stream(t, |positions|);
    DealAt(deck, flips, positions, i);
    StreamAt(t, |positions|, i);
    ValueAboveHalf(flips[i]);
  }

  /** Two deals of one deck with one orientation generator agree on
      every position both have. */
  lemma DealPrefix(deck: seq<TarotCard>, t: bv32, p: seq<Text>, q: seq<Text>, i: nat)
    requires i < |p| && i < |q|
    ensures Deal(deck, Stream(t, |p|), p)[i].card == Deal(deck, Stream(t, |q|), q)[i].card
    ensures Deal(deck, Stream(t, |p|), p)[i].reversed == Deal(deck, Stream(t, |q|), q)[i].reversed
  {
    DealAt(deck, Stream(t, |p|), p, i);
    DealAt(deck, Stream(t, |q|), q, i);
    StreamAt(t, |p|, i);
    StreamAt(t, |q|, i);
  }

  /** Two spreads read with the same seed text agree, card and orientation,
      on every position both of them have. */
  lemma PrefixStable(catalog: seq<TarotCard>, seedText: Text, p: seq<Text>, q: seq<Text>, i: nat)
    requires i < |p| && i < |q|
    ensures ReadingOf(catalog, seedText, p)[i].card == ReadingOf(catalog, seedText, q)[i].card
    ensures ReadingOf(catalog, seedText, p)[i].reversed == ReadingOf(catalog, seedText, q)[i].reversed
  {
    var deck := ShuffledDeck(catalog, SeedOf(seedText));
    var t := Uint32(SeedOf(seedText) + OrientationOffset);
    ReadingIsDeal(catalog, seedText, p, deck, t);
    ReadingIsDeal(catalog, seedText, q, deck, t);
    DealPrefix(deck, t, p, q, i);
  }

  /** The cards of a reading are the first cards of the shuffled deck, in
      order, and None where the deck runs out. */
  lemma ReadingCards(catalog: seq<TarotCard>, seedText: Text, positions: seq<Text>)
    ensures forall i :: 0 <= i < |positions| ==>
      ReadingOf(catalog, seedText, positions)[i].card ==
      (if i < |catalog| then Some(ShuffledDeck(catalog, SeedOf(seedText))[i]) else None)
  {
    var seed := SeedOf(seedText);
    var deck := ShuffledDeck(catalog, seed);
    var t := Uint32(seed + OrientationOffset);
    ShuffledDeckIsPermutation(catalog, seed);
    ReadingIsDeal(catalog, seedText, positions, deck, t);
    forall i | 0 <= i < |positions|
      ensures Deal(deck, Stream(t, |positions|), positions)[i].card == (if i < |deck| then Some(deck[i]) else None)
    {
      EntryOfDeal(deck, t, positions, i);
    }
  }

  /** A catalog without repeated cards deals readings without repeated
      cards, and a catalog at least as long as the spread fills every
      position. */
  lemma ReadingDistinct(catalog: seq<TarotCard>, seedText: Text, positions: seq<Text>)
    requires forall a, b :: 0 <= a < b < |catalog| ==> catalog[a] != catalog[b]
    ensures forall a, b :: (0 <= a < b < |positions| &&
      ReadingOf(catalog, seedText, positions)[a].card.Some?) ==>
      (ReadingOf(catalog, seedText, positions)[a].card != ReadingOf(catalog, seedText, positions)[b].card)
    ensures |positions| <= |catalog| ==>
      forall k :: 0 <= k < |positions| ==> ReadingOf(catalog, seedText, positions)[k].card.Some?
  {
    var deck := ShuffledDeck(catalog, SeedOf(seedText));
    ShuffledDeckIsPermutation(catalog, SeedOf(seedText));
    DistinctPermutation(catalog, deck);
    ReadingCards(catalog, seedText, positions);
  }

  /** A permutation of a sequence without repeats has no repeats. */
  lemma DistinctPermutation<T>(s: seq<T>, p: seq<T>)
    requires forall a, b :: 0 <= a < b < |s| ==> s[a] != s[b]
    requires multiset(p) == multiset(s)
    ensures forall a, b :: 0 <= a < b < |p| ==> p[a] != p[b]
  {
    forall a, b | 0 <= a < b < |p|
      ensures p[a] != p[b]
    {
      if p[a] == p[b] {
        assert p == p[..a] + [p[a]] + p[a + 1..b] + [p[b]] + p[b + 1..];
        assert multiset(p)[p[a]] >= 2;
        MultiplicityAtMostOne(s, p[a]);
        assert false;
      }
    }
  }

  /** In a sequence without repeats every value occurs at most once. */
  lemma {:induction false} MultiplicityAtMostOne<T>(s: seq<T>, x: T)
    requires forall a, b :: 0 <= a < b < |s| ==> s[a] != s[b]
    ensures multiset(s)[x] <= 1
  {
    if s != [] {
      MultiplicityAtMostOne(s[1..], x);
      assert s == [s[0]] + s[1..];
      if s[0] == x {
        assert x !in s[1..];
      }
    }
  }

  /** The loop of `buildReading`: one pass per position, in order, taking
      card `index` of the deck (None past its end) and drawing the
      orientation from `random`. */
  method DealWith(deck: array<TarotCard>, random: Generator, positions: seq<Text>)
    returns (cards: seq<ReadingCard>)
    modifies random
    ensures cards == Deal(deck[..], Stream(old(random.t), |positions|), positions)
    ensures random.t == Advance(old(random.t), |positions|)
  {
    ghost var t0 := random.t;
    ghost var goal := Deal(deck[..], Stream(t0, |positions|), positions);
    cards := [];
    var index := 0;
    while index < |positions|
      invariant 0 <= index <= |positions|
      invariant random.t == Advance(t0, index)
      invariant cards == goal[..index]
    {
      var u := random.Next();
      Dealt(deck[..], positions, t0, index, random.t, u);
      var card := if index < deck.Length then Some(deck[index]) else None;
      cards := cards + [ReadingCard(card, Value(u) > 0.5, positions[index])];
      index := index + 1;
    }
  }

  /** `buildReading(seedText, spread)`: seed, shuffle, then deal the spread
      with a second generator seeded 137 higher. */
  method BuildReading(catalog: seq<TarotCard>, seedText: Text, spread: SpreadDefinition)
    returns (cards: seq<ReadingCard>)
    ensures cards == ReadingOf(catalog, seedText, spread.positions)
  {
    var numericSeed := SeedFromString(seedText);
    var deck := CreateShuffledDeck(catalog, numericSeed);
    var orientationRandom := new Generator(numericSeed + OrientationOffset);
    ReadingIsDeal(catalog, seedText, spread.positions, deck[..], orientationRandom.t);
    cards := DealWith(deck, orientationRandom, spread.positions);
  }

  /** '|' */
  const Bar: CodeUnit := 0x7C

  /** What stands in for an empty question. */
  const OpenIntention: Text := Lit("open-intention")

  /** The seed text of the next reading (`handleDraw`):
      `${base}|${question || 'open-intention'}|${spreadId}`, where `base`
      is the trimmed custom seed, or `fallbackBase` when that is empty. The
      fallback is built from the clock and Math.random in the page and is a
      parameter here. */
  function NextSeedText(customSeedInput: Text, question: Text, spreadId: Text, fallbackBase: Text): Text
  {
    var trimmed := Trim(customSeedInput);
    var base := if trimmed != [] then trimmed else fallbackBase;
    base + [Bar] + (if question != [] then question else OpenIntention) + [Bar] + spreadId
  }

  /** `s.split('|')`. */
  function SplitBar(s: Text): (r: seq<Text>)
    ensures |r| >= 1
    decreases |s|
  {
    if Bar !in s then [s]
    else
      var k := FirstBar(s);
      [s[..k]] + SplitBar(s[k + 1..])
  }

  /** The index of the first '|' of `s`. */
  function FirstBar(s: Text): (k: nat)
    requires Bar in s
    ensures k < |s| && s[k] == Bar && Bar !in s[..k]
  {
    if s[0] == Bar then 0 else FirstBar(s[1..]) + 1
  }

  /** The first '|' of a + "|" + b is the one after a, when a has none. */
  lemma {:induction false} FirstBarAfter(a: Text, b: Text)
    requires Bar !in a
    ensures Bar in a + [Bar] + b && FirstBar(a + [Bar] + b) == |a|
  {
    var s := a + [Bar] + b;
    assert s[|a|] == Bar;
    if a != [] {
      assert s[1..] == a[1..] + [Bar] + b;
      FirstBarAfter(a[1..], b);
    }
  }

  /** Splitting a text at its first '|'. */
  lemma SplitBarAppend(a: Text, b: Text)
    requires Bar !in a
    ensures SplitBar(a + [Bar] + b) == [a] + SplitBar(b)
  {
    var s := a + [Bar] + b;
    FirstBarAfter(a, b);
    assert s[..|a|] == a;
    assert s[|a| + 1..] == b;
  }

  /** The stand-in for an empty question holds no '|'. */
  lemma OpenIntentionHasNoBar()
    ensures Bar !in OpenIntention
  {
    forall k | 0 <= k < |OpenIntention|
      ensures OpenIntention[k] != Bar
    {
      assert OpenIntention[k] == "open-intention"[k] as int;
    }
  }

  /** Three fields without '|' joined by '|' split back into those fields. */
  lemma SplitThree(a: Text, b: Text, c: Text)
    requires Bar !in a && Bar !in b && Bar !in c
    ensures SplitBar(a + [Bar] + b + [Bar] + c) == [a, b, c]
  {
    var bc := b + [Bar] + c;
    assert a + [Bar] + b + [Bar] + c == a + [Bar] + bc;
    SplitBarAppend(a, bc);
    SplitBarAppend(b, c);
    SplitBarNone(c);
  }

  /** A text without '|' splits into itself alone. */
  lemma SplitBarNone(c: Text)
    requires Bar !in c
    ensures SplitBar(c) == [c]
  {
  }

  /** The three parts of a seed text come back out of `split('|')` as
      long as none of them holds a '|' itself. A non-blank custom seed
      replaces the fallback, and the question's stand-in is used only for
      an empty question. */
  lemma NextSeedTextFields(customSeedInput: Text, question: Text, spreadId: Text, fallbackBase: Text)
    requires Bar !in Trim(customSeedInput) && Bar !in fallbackBase && Bar !in question && Bar !in spreadId
    ensures SplitBar(NextSeedText(customSeedInput, question, spreadId, fallbackBase)) ==
      [if Trim(customSeedInput) != [] then Trim(customSeedInput) else fallbackBase,
       if question != [] then question else OpenIntention,
       spreadId]
  {
    OpenIntentionHasNoBar();
    var base := if Trim(customSeedInput) != [] then Trim(customSeedInput) else fallbackBase;
    var q := if question != [] then question else OpenIntention;
    SplitThree(base, q, spreadId);
  }

  /** With a non-blank custom seed the next reading is reproducible: it
      does not depend on the clock or on Math.random, and custom seeds that
      differ only in surrounding white space give the same reading. */
  lemma CustomSeedReproducible(catalog: seq<TarotCard>, custom1: Text, custom2: Text, question: Text,
                               spreadId: Text, fallback1: Text, fallback2: Text)
    requires Trim(custom1) != [] && Trim(custom1) == Trim(custom2)
    ensures ReadingOf(catalog, NextSeedText(custom1, question, spreadId, fallback1), SelectedSpread(spreadId).positions) ==
            ReadingOf(catalog, NextSeedText(custom2, question, spreadId, fallback2), SelectedSpread(spreadId).positions)
  {
  }
}
