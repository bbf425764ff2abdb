/**
 * The deterministic part of src/data/tarot.ts: the string hash that turns
 * any text into a seed (`seedFromString`) and the Fisher-Yates shuffle of
 * the card catalog driven by a seeded generator (`createShuffledDeck`).
 */
module Tarot {
  import opened Utf16
  import opened Mulberry32

  /** A catalog entry. Only the identity is used by the core (as the seed
      of the card's art); the remaining catalog fields are display data. */
  datatype TarotCard = TarotCard(id: Text, name: Text, index: nat)

  // ---------------------------------------------------------------------
  // seedFromString
  // ---------------------------------------------------------------------

  /** JavaScript's ToInt32: the signed 32-bit integer congruent to x
      modulo 2^32 (what `x | 0` and `<<` produce). */
  function ToInt32(x: int): (r: int)
    ensures -TwoTo31 <= r < TwoTo31
    ensures (x - r) % TwoTo32 == 0
  {
    var m := x % TwoTo32;
    if m >= TwoTo31 then m - TwoTo32 else m
  }

  /** ToInt32 only looks at its argument modulo 2^32. */
  lemma ToInt32Congruent(x: int, y: int)
    requires (x - y) % TwoTo32 == 0
    ensures ToInt32(x) == ToInt32(y)
  {
    var k := (x - y) / TwoTo32;
    assert x == y + k * TwoTo32;
    assert x % TwoTo32 == y % TwoTo32;
  }

  /** One step of the hash loop as the source writes it:
      `hash = (hash << 5) - hash + c; hash |= 0`. */
  function HashStep(hash: int, c: CodeUnit): int
  {
    ToInt32(ToInt32(hash * 32) - hash + c)
  }

  /** The step is `31 * hash + c` reduced to a signed 32-bit value: the
      wrap-around of the shift is absorbed by the final `| 0`. */
  lemma HashStepIsTimes31(hash: int, c: CodeUnit)
    ensures HashStep(hash, c) == ToInt32(31 * hash + c)
  {
    var shifted := ToInt32(hash * 32);
    assert (shifted - hash + c) - (31 * hash + c) == shifted - hash * 32;
    assert ((shifted - hash + c) - (31 * hash + c)) % TwoTo32 == 0 by {
      assert (hash * 32 - shifted) % TwoTo32 == 0;
      var k := (hash * 32 - shifted) / TwoTo32;
      assert shifted - hash * 32 == (-k) * TwoTo32;
    }
    ToInt32Congruent(shifted - hash + c, 31 * hash + c);
  }

  /** The accumulator after the hash loop has consumed all of `s`. */
  function Hash(s: Text): (h: int)
    ensures -TwoTo31 <= h < TwoTo31
  {
    if s == [] then 0 else HashStep(Hash(s[..|s| - 1]), s[|s| - 1])
  }

  /** `Math.abs(hash) || 1`. */
  function SeedOf(s: Text): (seed: int)
    ensures 1 <= seed <= TwoTo31
    ensures s == [] ==> seed == 1
    ensures seed == 1 || seed == Hash(s) || seed == -Hash(s)
  {
    var h := Hash(s);
    if h == 0 then 1 else if h < 0 then -h else h
  }

  /** `seedFromString(input)`: the hash loop over the code units of the input. */
  method SeedFromString(input: Text) returns (seed: int)
    ensures seed == SeedOf(input)
    ensures 1 <= seed <= TwoTo31
  {
    var hash := 0;
    var i := 0;
    while i < |input|
      invariant 0 <= i <= |input|
      invariant hash == Hash(input[..i])
    {
      assert input[..i + 1][..i] == input[..i];
      var shifted := ToInt32(hash * 32);
      hash := ToInt32(shifted - hash + input[i]);
      i := i + 1;
    }
    assert input[..i] == input;
    seed := if hash < 0 then -hash else hash;
    if seed == 0 {
      seed := 1;
    }
  }

  // ---------------------------------------------------------------------
  // createShuffledDeck
  // ---------------------------------------------------------------------

  /** The number of draws the shuffle loop makes on a deck of n cards. */
  function DrawsFor(n: nat): nat
  {
    if n <= 1 then 0 else n - 1
  }

  /** `Math.floor(random() * n)` for the raw draw u: the integer
      floor(u * n / 2^32). The float product is exact while u * n < 2^53. */
  function SwapIndex(u: bv32, n: nat): (j: nat)
    requires n >= 1
    ensures j < n
  {
    ScaledBelow(u as int, n);
    (u as int * n) / TwoTo32
  }

  lemma ScaledBelow(x: nat, n: nat)
    requires x < TwoTo32 && n >= 1
    ensures x * n / TwoTo32 < n
  {
    var d := TwoTo32 - 1 - x;
    assert d * n >= 0;
    assert x * n == TwoTo32 * n - n - d * n;
  }

  /** The swap partner is the floor of the float `random() * n`. */
  lemma SwapIndexIsFloor(u: bv32, n: nat)
    requires n >= 1
    ensures SwapIndex(u, n) as real <= Value(u) * n as real < (SwapIndex(u, n) + 1) as real
  {
    ScaleProduct(u as int, n, Value(u));
    FloorOfQuotient(u as int * n, SwapIndex(u, n));
  }

  lemma ScaleProduct(x: int, n: nat, v: real)
    requires v * 4294967296.0 == x as real
    ensures v * n as real == (x * n) as real / 4294967296.0
  {
    assert v == x as real / 4294967296.0;
    RealMulDiv(x as real, n as real);
    ToRealMul(x, n);
  }

  lemma RealMulDiv(x: real, y: real)
    ensures (x / 4294967296.0) * y == (x * y) / 4294967296.0
  {
  }

  lemma {:induction false} ToRealMul(x: int, n: nat)
    ensures (x * n) as real == x as real * n as real
    decreases n
  {
    if n > 0 {
      ToRealMul(x, n - 1);
      assert x * n == x * (n - 1) + x;
      assert x as real * n as real == x as real * (n - 1) as real + x as real;
    }
  }

  lemma FloorOfQuotient(p: int, j: int)
    requires j == p / TwoTo32
    ensures j as real <= p as real / 4294967296.0 < (j + 1) as real
  {
  }

  /** `[deck[i], deck[j]] = [deck[j], deck[i]]` */
  function Swap<T>(s: seq<T>, i: nat, j: nat): (r: seq<T>)
    requires i < |s| && j < |s|
    ensures |r| == |s|
  {
    s[i := s[j]][j := s[i]]
  }

  lemma SwapPermutes<T>(s: seq<T>, i: nat, j: nat)
    requires i < |s| && j < |s|
    ensures multiset(Swap(s, i, j)) == multiset(s)
  {
    var s1 := s[i := s[j]];
    assert multiset(s1) == multiset(s) - multiset{s[i]} + multiset{s[j]};
  }

  /** The swap partners a shuffle of n cards draws from the raw draws
      `draws`: draw k serves index n - 1 - k and picks a partner in
      0 .. n - 1 - k. */
  function Partners(draws: seq<bv32>, n: nat): (js: seq<nat>)
    requires |draws| == DrawsFor(n)
    ensures ValidPartners(js, n)
    decreases |draws|
  {
    if draws == [] then [] else [SwapIndex(draws[0], n)] + Partners(draws[1..], n - 1)
  }

  /** Partner k comes from draw k, scaled to the n - k places left. */
  lemma {:induction false} PartnersAt(draws: seq<bv32>, n: nat, k: nat)
    requires |draws| == DrawsFor(n) && k < |draws|
    ensures Partners(draws, n)[k] == SwapIndex(draws[k], n - k)
    decreases k
  {
    if k > 0 {
      PartnersAt(draws[1..], n - 1, k - 1);
    }
  }

  /** Partners for a shuffle of n cards: one per index n - 1 down to 1,
      each at most that index. */
  predicate ValidPartners(js: seq<nat>, n: nat)
  {
    |js| == DrawsFor(n) && forall k :: 0 <= k < |js| ==> js[k] < n - k
  }

  /** The Fisher-Yates loop on `s` with swap partners `js`: the last
      position is swapped with the first partner, then stays put while
      the loop goes on with the positions before it. */
  function FisherYates<T>(s: seq<T>, js: seq<nat>): (r: seq<T>)
    requires ValidPartners(js, |s|)
    ensures |r| == |s|
    decreases |s|
  {
    if |s| <= 1 then s
    else
      var i := |s| - 1;
      var swapped := Swap(s, i, js[0]);
      FisherYates(swapped[..i], js[1..]) + [swapped[i]]
  }

  /** The shuffle returns a permutation of its input. */
  lemma {:induction false} FisherYatesPermutes<T>(s: seq<T>, js: seq<nat>)
    requires ValidPartners(js, |s|)
    ensures multiset(FisherYates(s, js)) == multiset(s)
    decreases |s|
  {
    if |s| > 1 {
      var i := |s| - 1;
      var swapped := Swap(s, i, js[0]);
      SwapPermutes(s, i, js[0]);
      FisherYatesPermutes(swapped[..i], js[1..]);
      assert swapped == swapped[..i] + [swapped[i]];
    }
  }

  /** The passes of the shuffle loop at indices i, i - 1, ..., 1 applied
      to `s`: the pass at index i swaps s[i] with its partner
      js[|s| - 1 - i]. */
  function SwapsFrom<T>(s: seq<T>, i: int, js: seq<nat>): (r: seq<T>)
    requires -1 <= i < |s| && (|s| == 0 || i >= 0)
    requires ValidPartners(js, |s|)
    ensures |r| == |s|
    decreases i
  {
    if i <= 0 then s else SwapsFrom(Swap(s, i, js[|s| - 1 - i]), i - 1, js)
  }

  /** The shuffle a generator whose counter is `t` performs on `s`: the
      loop run over all of `s` with the partners of the generator's draws. */
  function Shuffled<T>(s: seq<T>, t: bv32): seq<T>
  {
    SwapsFrom(s, |s| - 1, Partners(Stream(t, DrawsFor(|s|)), |s|))
  }

  /** The deck `createShuffledDeck(seed)` returns, as a value. */
  function ShuffledDeck(tarotCards: seq<TarotCard>, seed: int): seq<TarotCard>
  {
    Shuffled(tarotCards, Uint32(seed))
  }

  /** The loop of the shuffle stands at index i of `s` with partners `js`,
      and finishing it yields `goal`. */
  predicate ShuffleLoop(s: seq<TarotCard>, i: int, js: seq<nat>, goal: seq<TarotCard>)
  {
    -1 <= i < |s| && (|s| == 0 || i >= 0) && ValidPartners(js, |s|) &&
    SwapsFrom(s, i, js) == goal
  }

  /** The state of the recursive shuffle when the loop stands at index i:
      finish it on s[..i + 1] with the partners not used yet, then the
      settled tail. */
  ghost function Remaining<T>(s: seq<T>, i: int, js: seq<nat>): seq<T>
    requires -1 <= i < |s| && (|s| == 0 || i >= 0)
    requires ValidPartners(js, |s|)
  {
    FisherYates(s[..i + 1], js[|s| - 1 - i..]) + s[i + 1..]
  }

  /** Before the loop, all of the shuffle is left. */
  lemma RemainingStart<T>(s: seq<T>, js: seq<nat>)
    requires ValidPartners(js, |s|)
    ensures Remaining(s, |s| - 1, js) == FisherYates(s, js)
  {
    assert s[..|s|] == s && s[|s|..] == [];
  }

  /** Once the loop stops, at index 0 (or -1 for an empty deck), nothing
      of the shuffle is left to do. */
  lemma RemainingDone<T>(s: seq<T>, i: int, js: seq<nat>)
    requires -1 <= i <= 0 && i < |s| && (|s| == 0 || i >= 0)
    requires ValidPartners(js, |s|)
    ensures Remaining(s, i, js) == s
  {
    assert s == s[..i + 1] + s[i + 1..];
  }

  /** One pass of the loop at index i keeps what is left of the shuffle. */
  lemma RemainingStep<T>(before: seq<T>, after: seq<T>, i: nat, js: seq<nat>)
    requires 1 <= i < |before| && ValidPartners(js, |before|)
    requires after == Swap(before, i, js[|before| - 1 - i])
    ensures Remaining(after, i - 1, js) == Remaining(before, i, js)
  {
    var rest := js[|before| - 1 - i..];
    var swapped := Swap(before[..i + 1], i, rest[0]);
    assert after[..i + 1] == swapped;
    assert after[..i] == swapped[..i];
    assert after[i..] == [swapped[i]] + before[i + 1..];
    assert rest[1..] == js[|before| - 1 - (i - 1)..];
  }

  /** The loop from index i computes what the recursive shuffle leaves to
      do at index i. */
  lemma {:induction false} SwapsFromIsRemaining<T>(s: seq<T>, i: int, js: seq<nat>)
    requires -1 <= i < |s| && (|s| == 0 || i >= 0)
    requires ValidPartners(js, |s|)
    ensures SwapsFrom(s, i, js) == Remaining(s, i, js)
    decreases i
  {
    if i <= 0 {
      RemainingDone(s, i, js);
    } else {
      var after := Swap(s, i, js[|s| - 1 - i]);
      SwapsFromIsRemaining(after, i - 1, js);
      RemainingStep(s, after, i, js);
    }
  }

  /** The in-place loop and the recursive Fisher-Yates shuffle agree. */
  lemma LoopIsFisherYates<T>(s: seq<T>, js: seq<nat>)
    requires ValidPartners(js, |s|)
    ensures SwapsFrom(s, |s| - 1, js) == FisherYates(s, js)
  {
    SwapsFromIsRemaining(s, |s| - 1, js);
    RemainingStart(s, js);
  }

  /** Every seed gives a permutation of the catalog: same length, every
      card as often as in the catalog; a catalog of at most one card
      comes back as it is. */
  lemma ShuffledDeckIsPermutation(tarotCards: seq<TarotCard>, seed: int)
    ensures |ShuffledDeck(tarotCards, seed)| == |tarotCards|
    ensures multiset(ShuffledDeck(tarotCards, seed)) == multiset(tarotCards)
    ensures |tarotCards| <= 1 ==> ShuffledDeck(tarotCards, seed) == tarotCards
  {
    var js := Partners(Stream(Uint32(seed), DrawsFor(|tarotCards|)), |tarotCards|);
    LoopIsFisherYates(tarotCards, js);
    FisherYatesPermutes(tarotCards, js);
  }

  /** `Math.floor(random() * (i + 1))` on a deck of n cards: the partner
      of index i is the next draw of the generator, scaled to 0 .. i. */
  method DrawPartner(random: Generator, n: nat, i: nat, ghost t0: bv32) returns (j: nat)
    requires 1 <= i < n
    requires random.t == Advance(t0, n - 1 - i)
    modifies random
    ensures random.t == Advance(t0, n - 1 - (i - 1))
    ensures j <= i && j == Partners(Stream(t0, DrawsFor(n)), n)[n - 1 - i]
  {
    var u := random.Next();
    PartnerDrawn(t0, n, i, random.t, u);
    j := SwapIndex(u, i + 1);
  }

  /** The draw made at index i, scaled to 0 .. i, is the partner of i. */
  lemma PartnerDrawn(t0: bv32, n: nat, i: nat, t: bv32, u: bv32)
    requires 1 <= i < n
    requires t == Advance(t0, n - 1 - i) + Increment && u == Mix(t)
    ensures t == Advance(t0, n - i)
    ensures Partners(Stream(t0, DrawsFor(n)), n)[n - 1 - i] == SwapIndex(u, i + 1)
  {
    DrawAt(t0, DrawsFor(n), n - 1 - i, t, u);
    PartnersAt(Stream(t0, DrawsFor(n)), n, n - 1 - i);
  }

  /** One pass of the loop of `createShuffledDeck` at index i: draw the
      partner j, then swap deck[i] with deck[j]. */
  method ShuffleStep(deck: array<TarotCard>, random: Generator, i: nat,
                     ghost t0: bv32, ghost goal: seq<TarotCard>)
    requires 1 <= i < deck.Length
    requires random.t == Advance(t0, deck.Length - 1 - i)
    requires ShuffleLoop(deck[..], i, Partners(Stream(t0, DrawsFor(deck.Length)), deck.Length), goal)
    modifies deck, random
    ensures random.t == Advance(t0, deck.Length - 1 - (i - 1))
    ensures ShuffleLoop(deck[..], i - 1, Partners(Stream(t0, DrawsFor(deck.Length)), deck.Length), goal)
  {
    ghost var before := deck[..];
    var j := DrawPartner(random, deck.Length, i, t0);
    deck[i], deck[j] := deck[j], deck[i];
    assert deck[..] == Swap(before, i, j);
    ShuffleLoopStep(before, i, Partners(Stream(t0, DrawsFor(deck.Length)), deck.Length), goal, j);
  }

  /** Swapping index i with its partner moves the loop on to i - 1. */
  lemma ShuffleLoopStep(s: seq<TarotCard>, i: nat, js: seq<nat>, goal: seq<TarotCard>, j: nat)
    requires 1 <= i && ShuffleLoop(s, i, js, goal) && j == js[|s| - 1 - i]
    ensures ShuffleLoop(Swap(s, i, j), i - 1, js, goal)
  {
  }

  /** The loop of `createShuffledDeck`: for i from the last index down
      to 1, one ShuffleStep. It makes exactly DrawsFor(deck.Length) draws
      and touches nothing but the deck and the generator. */
  method ShuffleWith(deck: array<TarotCard>, random: Generator)
    modifies deck, random
    ensures deck[..] == Shuffled(old(deck[..]), old(random.t))
    ensures random.t == Advance(old(random.t), DrawsFor(deck.Length))
  {
    ghost var t0 := random.t;
    ghost var goal := Shuffled(deck[..], t0);
    var i := deck.Length - 1;
    while i > 0
      invariant random.t == Advance(t0, deck.Length - 1 - i)
      invariant ShuffleLoop(deck[..], i, Partners(Stream(t0, DrawsFor(deck.Length)), deck.Length), goal)
    {
      ShuffleStep(deck, random, i, t0, goal);
      i := i - 1;
    }
  }

  /** `createShuffledDeck(seed)`: a shuffled copy of the catalog, which
      itself is left as it is. */
  method CreateShuffledDeck(tarotCards: seq<TarotCard>, seed: int) returns (deck: array<TarotCard>)
    ensures fresh(deck)
    ensures deck[..] == ShuffledDeck(tarotCards, seed)
  {
    deck := new TarotCard[|tarotCards|](k requires 0 <= k < |tarotCards| => tarotCards[k]);
    assert deck[..] == tarotCards;
    var random := new Generator(seed);
    ShuffleWith(deck, random);
  }
}
