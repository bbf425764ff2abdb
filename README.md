# Tarot atelier: the deterministic core, in Dafny

This project models the deterministic heart of the tarot-atelier web app and proves
what it promises. There are two pipelines.

- **A reading.** A seed text is hashed to a numeric seed (`seedFromString`). The seed
  starts a mulberry32 generator, which drives an in-place Fisher-Yates shuffle of the
  card catalog (`createShuffledDeck`). `buildReading` then deals the first cards of the
  shuffled deck onto the positions of a spread. Each card is reversed when a second
  generator, seeded 137 higher, draws above 0.5. `handleDraw` composes the seed text of
  the next reading as `base|question|spreadId`.
- **A card's art.** `createSpec` hashes the card id and picks one of six palettes by
  `seed % 6`. It then draws 34 floats from one generator: six for each of three vines,
  two for each of five petals, and three for each of two motifs.

The model also covers `slugify`, which turns a card name into its id.

Files and modules:

- `utf16.dfy` (`Utf16`): JavaScript strings as UTF-16 code units, and `String.prototype.trim`.
- `mulberry32.dfy` (`Mulberry32`): the generator as a class with one 32-bit counter. Its
  draws are also described as values: `Advance` gives the counter after k draws, `Stream`
  the first n raw outputs, and `Floats` those outputs as floats.
- `tarot.dfy` (`Tarot`): the string hash, and the shuffle as an array loop. The loop is
  proved equal to a recursive Fisher-Yates and to be a permutation.
- `tarot_names.dfy` (`TarotNames`): `slugify` as three functions on code units.
- `reading.dfy` (`Reading`): the spread table, the spread lookup with its fallback,
  `buildReading` as a loop over the orientation generator, and the next seed text.
- `card_art.dfy` (`CardArt`): the palette table and the draw-consuming helpers of the
  card art, as methods on the shared generator.

Every method that changes state is proved equal to a function of its inputs and of the
generator's counter. The properties are lemmas about those functions.

## Model

| member | source | states |
|---|---|---|
| Utf16.Trim | src/App.tsx:82 | `trim` removes the white space and line terminators at both ends: the result is empty exactly when every unit is trimmable, it starts and ends with a non-trimmable unit, and it is the infix that remains |
| Utf16.TrimIdempotent | src/App.tsx:82 | trimming a trimmed text changes nothing |
| Mulberry32.Generator.constructor | src/data/tarot.ts:102 | the counter starts at `seed >>> 0`, the seed modulo 2^32 |
| Mulberry32.Generator.Next | src/data/tarot.ts:103-108 | a call adds 0x6d2b79f5 to the counter, changes nothing else, and returns the mix of the new counter |
| Mulberry32.Mix | src/data/tarot.ts:105-107 | definition: the raw output of counter t, the product of (t XOR t >>> 15) and (t OR 1), then x XOR (x + the product of (x XOR x >>> 7) and (x OR 61)), then x XOR x >>> 14, all modulo 2^32 |
| Mulberry32.Advance | src/data/tarot.ts:104 | definition: the counter after k draws, the increment added k times modulo 2^32 |
| Mulberry32.Stream | src/data/tarot.ts:103-108 | the first n raw outputs of a generator, n of them; definition: draw one is the mix of the counter plus the increment, the rest are the stream of that new counter |
| Mulberry32.Value | src/data/tarot.ts:107 | the float of a raw output u is u / 2^32, so it lies in [0, 1) |
| Mulberry32.Floats | src/data/tarot.ts:107 | every float of a run of draws lies in [0, 1), and there is one per draw |
| Mulberry32.FloatsAt | src/data/tarot.ts:107 | float k of a run is the value of raw output k |
| Mulberry32.ValueAboveHalf | src/App.tsx:53 | a draw is above 0.5 exactly when its raw output exceeds 2^31 |
| Mulberry32.AdvanceStep | src/data/tarot.ts:104 | one more draw adds the increment once more to the counter |
| Mulberry32.AdvanceAdd | src/data/tarot.ts:104 | k draws followed by m draws leave the counter where k + m draws leave it |
| Mulberry32.StreamAt | src/data/tarot.ts:103-108 | draw i of a generator is the mix of its counter after i + 1 increments |
| Mulberry32.StreamSplit | src/data/tarot.ts:103-108 | the first a + b draws are the first a draws followed by the b draws of the generator they leave behind |
| Mulberry32.StreamPrefix | src/data/tarot.ts:103-108 | a longer run of one generator begins with the shorter run |
| Mulberry32.DrawAt | src/data/tarot.ts:103-108 | the k-th call of the closure returns raw output k of the generator's stream and leaves the counter after k + 1 increments |
| Mulberry32.CongruentSeedsSameStream | src/data/tarot.ts:102 | seeds that agree modulo 2^32 give identical streams of any length |
| Tarot.ToInt32 | src/data/tarot.ts:114-115 | ORing with 0 gives the signed 32-bit value congruent to x modulo 2^32 |
| Tarot.HashStep | src/data/tarot.ts:114-115 | definition: one pass of the hash loop, `(hash << 5) - hash + c` then the OR with 0, with the shift wrapping to 32 bits |
| Tarot.HashStepIsTimes31 | src/data/tarot.ts:114-115 | the step `(hash << 5) - hash + c`, then the OR with 0, is 31 * hash + c reduced to signed 32 bits, although the shift wraps on its own |
| Tarot.Hash | src/data/tarot.ts:112-116 | after every step the hash is a signed 32-bit value |
| Tarot.SeedOf | src/data/tarot.ts:117 | the seed is the absolute value of the hash, or 1 when that is 0; it lies in [1, 2^31], and the empty text gives 1 |
| Tarot.SeedFromString | src/data/tarot.ts:111-118 | the hash loop computes SeedOf of its input, a value in [1, 2^31] |
| Tarot.SwapIndex | src/data/tarot.ts:93 | the partner drawn for index i is below i + 1 |
| Tarot.SwapIndexIsFloor | src/data/tarot.ts:93 | the integer (u * n) div 2^32 is the floor of the float `random() * n` |
| Tarot.Swap | src/data/tarot.ts:94 | exchanging elements i and j keeps the length; definition: element i becomes old element j and element j old element i |
| Tarot.SwapsFrom | src/data/tarot.ts:92-95 | the passes of the loop at indices i down to 1 keep the length; definition: the pass at index i swaps it with its partner |
| Tarot.Shuffled | src/data/tarot.ts:92-95 | definition: the loop run over the whole deck with the partners of the generator's draws |
| Tarot.ShuffledDeck | src/data/tarot.ts:89-97 | definition: the deck `createShuffledDeck(seed)` returns, the shuffle by a generator started at `seed >>> 0` |
| Tarot.SwapPermutes | src/data/tarot.ts:94 | a swap is a permutation |
| Tarot.Partners | src/data/tarot.ts:92-93 | the shuffle of n cards draws n - 1 partners (none for n <= 1), the k-th below n - k |
| Tarot.PartnersAt | src/data/tarot.ts:92-93 | partner k comes from draw k, scaled to the n - k places left |
| Tarot.FisherYatesPermutes | src/data/tarot.ts:92-95 | the recursive Fisher-Yates shuffle returns a permutation of its input |
| Tarot.LoopIsFisherYates | src/data/tarot.ts:92-95 | the descending swap loop computes the recursive Fisher-Yates shuffle |
| Tarot.ShuffledDeckIsPermutation | src/data/tarot.ts:89-97 | for every seed the shuffled deck has the catalog's length and multiset, and a catalog of at most one card comes back unchanged |
| Tarot.DrawPartner | src/data/tarot.ts:93 | the partner j of index i satisfies 0 <= j <= i and is the partner of the generator's next draw; the generator advances once |
| Tarot.PartnerDrawn | src/data/tarot.ts:93 | the draw made at index i, scaled to 0 .. i, is the partner of index i |
| Tarot.ShuffleStep | src/data/tarot.ts:93-94 | one pass swaps deck[i] with its partner and moves the loop from index i to i - 1 toward the same shuffle |
| Tarot.ShuffleWith | src/data/tarot.ts:92-95 | the loop leaves the shuffle of the deck in the array and makes exactly max(n - 1, 0) draws |
| Tarot.CreateShuffledDeck | src/data/tarot.ts:89-97 | a fresh array holding the shuffle of the catalog for the seed; the catalog is not changed |
| TarotNames.Keep | src/data/tarot.ts:52 | the units of the class [a-z0-9], in order, and no more of them than the text has |
| TarotNames.Lower | src/data/tarot.ts:51 | after lower-casing no unit is an ASCII capital; units of [a-z0-9] are left alone; a unit is in [a-z0-9] afterwards exactly when it was in [a-z0-9] or was a letter A-Z |
| TarotNames.LowerText | src/data/tarot.ts:51 | the model's lower-casing works unit by unit and keeps the length (`toLowerCase` itself can lengthen a text: U+0130 becomes two units, see Left out) |
| TarotNames.SeparatorRun | src/data/tarot.ts:52 | the run of units outside [a-z0-9] at the start of a text is maximal |
| TarotNames.Dashed | src/data/tarot.ts:52 | replacing each run of units outside [a-z0-9] by '-' gives only [a-z0-9-] with no "--", is empty only for empty input, and starts with '-' exactly when the input starts with a separator |
| TarotNames.DropLeadingDashes | src/data/tarot.ts:53 | `^-+` removes exactly the leading '-' |
| TarotNames.DropTrailingDashes | src/data/tarot.ts:53 | `-+$` removes exactly the trailing '-' |
| TarotNames.StripDashes | src/data/tarot.ts:53 | definition: leading dashes removed, then trailing dashes |
| TarotNames.Slugify | src/data/tarot.ts:49-53 | definition: lower-case, replace each separator run by '-', strip the end dashes |
| TarotNames.DashedKeeps | src/data/tarot.ts:52 | replacing separators keeps every letter and digit, in order |
| TarotNames.StripDashesKeeps | src/data/tarot.ts:53 | stripping the end dashes keeps the letters and digits and yields an id |
| TarotNames.SlugifyIsSlug | src/data/tarot.ts:49-53 | an id holds only [a-z0-9-], has no '-' at either end and never "--" |
| TarotNames.SlugifyKeepsAlphanumerics | src/data/tarot.ts:49-53 | an id keeps exactly the lower-cased letters and digits of the name, in order |
| TarotNames.SlugifyEmptyIff | src/data/tarot.ts:49-53 | an id is empty exactly when the name has no ASCII letter or digit |
| TarotNames.SlugKeepsSomething | src/data/tarot.ts:49-53 | a non-empty id holds a letter or a digit |
| TarotNames.LowerSlug | src/data/tarot.ts:51 | an id is already lower case |
| TarotNames.DashedSlug | src/data/tarot.ts:52 | an id has no separator run to replace |
| TarotNames.SlugifyIdempotent | src/data/tarot.ts:49-53 | slugifying an id returns the id |
| Reading.SpreadsWellFormed | src/App.tsx:24-44 | three spreads with distinct ids and 1, 3 and 5 positions, so none has more than five |
| Reading.FindSpread | src/App.tsx:68 | `find` returns the first spread with the id, and nothing exactly when no spread has it |
| Reading.SelectedSpread | src/App.tsx:67-70 | the selected spread is a listed spread with the requested id, or `spreads[0]` exactly when no spread has that id |
| Reading.SelectedSpreadFacts | src/App.tsx:63-70 | each listed spread is selected by its own id, every selected spread has 1 to 5 positions, and the initial id selects `spreads[1]` |
| Reading.Deal | src/App.tsx:51-55 | a deal has one entry per position |
| Reading.DealAt | src/App.tsx:51-55 | entry i takes deck card i (nothing past the end of the deck), orientation draw i and position label i |
| Reading.ReadingOf | src/App.tsx:46-56 | a reading has exactly one entry per position of the spread |
| Reading.Dealt | src/App.tsx:51-55 | the entry the loop appends at index i is entry i of the deal |
| Reading.EntryOfDeal | src/App.tsx:51-55 | in a deal, entry i has deck card i, position label i, and is reversed exactly when raw draw i of the orientation generator exceeds 2^31 |
| Reading.ReadingEntry | src/App.tsx:46-56 | entry i holds card i of `createShuffledDeck(seedFromString(seedText))`, present exactly when the catalog has more than i cards; its label is position i; it is reversed exactly when draw i of the generator seeded `numericSeed + 137` exceeds 2^31, that is, its float exceeds 0.5 |
| Reading.ReadingCards | src/App.tsx:47-52 | the cards of a reading are the shuffled deck's prefix, in order |
| Reading.ReadingDistinct | src/App.tsx:47-52 | a catalog without repeats gives readings without repeated cards, and a catalog at least as long as the spread fills every position |
| Reading.DealPrefix | src/App.tsx:51-55 | two deals of one deck with one orientation generator agree at every index both have |
| Reading.PrefixStable | src/App.tsx:46-56 | two spreads read with the same seed text agree, in card and orientation, on every index below the shorter length |
| Reading.DealWith | src/App.tsx:51-55 | the position loop returns the deal of the deck with the orientation generator's draws, in position order, and advances the generator once per position |
| Reading.BuildReading | src/App.tsx:46-56 | `buildReading` returns the reading of its seed text for the spread's positions |
| Reading.NextSeedText | src/App.tsx:82-84 | definition: the trimmed custom seed (or the fallback base when it is empty), a bar, the question (or 'open-intention' when it is empty), a bar, the spread id |
| Reading.NextSeedTextFields | src/App.tsx:82-84 | when no field contains the bar character, the next seed text splits at bars into the base, the question or 'open-intention', and the spread id; the base is the trimmed custom seed when that is non-empty, else the clock-and-random fallback |
| Reading.CustomSeedReproducible | src/App.tsx:82-84 | with a non-blank custom seed, the next reading depends on neither the fallback nor the white space around the seed |
| CardArt.CurveOf | src/components/TarotCardArt.tsx:72-79 | definition: the vine computed from six floats, in the order top margin, bottom margin, middle, sway, start, bend |
| CardArt.PetalOf | src/components/TarotCardArt.tsx:85-89 | definition: the petal's radius and angle, its length `radius * (0.6 + r * 0.3)` and width `18 + r * 12` from two floats |
| CardArt.MotifOf | src/components/TarotCardArt.tsx:108-113 | definition: the motif's top `100 + r * 60`, bottom `480 - top`, width `40 + r * 30` and control `80 + r * 30` from three floats |
| CardArt.VinesOf | src/components/TarotCardArt.tsx:124-127 | three vines; definition: vine v from floats 6v to 6v + 5 with variant v |
| CardArt.PetalsOf | src/components/TarotCardArt.tsx:128-134 | five petals; definition: petal p from floats 18 + 2p and 19 + 2p with the p-th (radius, angle) |
| CardArt.MotifsOf | src/components/TarotCardArt.tsx:135 | two motifs; definition: motif m from floats 28 + 3m to 30 + 3m |
| CardArt.SpecFloats | src/components/TarotCardArt.tsx:120-122 | the 34 floats a spec uses, each in [0, 1): the first draws of the generator seeded with `seedFromString(cardId)` |
| CardArt.SpecOf | src/components/TarotCardArt.tsx:120-142 | definition: the palette `palettes[seed % 6]` and the vines, petals and motifs of the spec's floats |
| CardArt.CurveBounds | src/components/TarotCardArt.tsx:72-79 | for vine v: topMargin in [30, 70), bottomMargin in [380, 420), midY in [200, 280), sway in [40, 120), startX in [60 + 25v, 70 + 25v), endX = 300 - startX, and controlOffset is +sway exactly when the sixth float exceeds 0.5, else -sway |
| CardArt.PetalBounds | src/components/TarotCardArt.tsx:85-89 | a petal keeps its radius and angle, its length lies in [0.6, 0.9) times its radius and its width in [18, 30) |
| CardArt.MotifBounds | src/components/TarotCardArt.tsx:108-113 | a motif has top in [100, 160), bottom = 480 - top, width in [40, 70) and control in [80, 110) |
| CardArt.SpecShape | src/components/TarotCardArt.tsx:120-142 | a spec has 3 vines, 5 petals with (radius, angle) = (110, 0), (120, 72), (130, 144), (140, 216), (150, 288) in that order, and 2 motifs, and the palette `palettes[seed % 6]`, an index in 0 .. 5 |
| CardArt.SpecVineBounds | src/components/TarotCardArt.tsx:72-127 | every vine v of a spec has startX in [60 + 25v, 70 + 25v), endX = 300 - startX, topMargin in [30, 70), bottomMargin in [380, 420), midY in [200, 280), sway in [40, 120), and controlOffset = +sway when float 6v + 5 of the spec exceeds 0.5, else -sway |
| CardArt.SpecPetalMotifBounds | src/components/TarotCardArt.tsx:85-135 | every petal of a spec has its length in [0.6, 0.9) times its radius and its width in [18, 30); every motif has top in [100, 160), bottom = 480 - top, width in [40, 70) and control in [80, 110) |
| CardArt.Rand | src/data/tarot.ts:103-108 | a `rand()` call returns the next float of the planned run and advances the counter once |
| CardArt.CreateOrganicCurve | src/components/TarotCardArt.tsx:72-83 | consumes exactly 6 draws and returns the vine of those draws, in the order top, bottom, middle, sway, start, bend |
| CardArt.CreatePetal | src/components/TarotCardArt.tsx:85-89 | consumes exactly 2 draws, length then width, and returns the petal of those draws |
| CardArt.CreateMotif | src/components/TarotCardArt.tsx:108-113 | consumes exactly 3 draws, top, width, control, and returns the motif of those draws |
| CardArt.CreateVines | src/components/TarotCardArt.tsx:125-127 | vine v takes draws 6v to 6v + 5; the three vines take draws 0 to 17 |
| CardArt.CreatePetals | src/components/TarotCardArt.tsx:128-134 | the five petals take draws 18 to 27, two each, in (radius, angle) order |
| CardArt.CreateMotifs | src/components/TarotCardArt.tsx:135 | the two motifs take draws 28 to 33, three each |
| CardArt.CreateSpec | src/components/TarotCardArt.tsx:120-142 | `createSpec(cardId)` is SpecOf(cardId): a function of the id alone, consuming 34 draws in the order vines, petals, motifs |

## Left out

- The React components, JSX, hooks and page state. These are UI with nothing to state.
  The model keeps only the spread lookup and the seed-text composition of `handleDraw`.
- `Date.now()` and `Math.random()` in `handleDraw`. The fallback base they build is the
  parameter `fallbackBase` of `NextSeedText`.
- The catalog built from `tarot_raw.json`, including `sanitizeName` and the rank and suit
  labels. The JSON is not available, so the catalog is a parameter: a sequence of cards
  with an id, a name and an index.
- Floating-point rounding. The floats a generator returns are exact (u / 2^32), but the
  art arithmetic on them is done in exact reals. The bounds proved hold for the real
  values, not necessarily for the rounded doubles at their ends.
- The petal's trigonometric coordinates (`Math.sin` and `Math.cos`) and every SVG path
  string. A helper's path is represented by the record of numbers it is printed from.
- Mulberry32.Generator: the counter is kept modulo 2^32. JavaScript lets `t` grow as a
  double, so the model is exact only while `t` stays below 2^53, which is about 4.9 million
  draws from one generator.
- Tarot.SwapIndex: it computes the floor of the exact product u * n / 2^32. This equals the
  float `random() * n` while u * n stays below 2^53, which holds for any deck shorter than
  2^21 cards.
- TarotNames.Lower: only A-Z are lower-cased. No other unit's lower case falls in
  [a-z0-9], except U+0130 and U+212A. `toLowerCase` maps U+212A to 'k', where the model makes
  a '-'. It maps U+0130 to two units, 'i' followed by U+0307; the U+0307 is a separator, so
  the source keeps an 'i' followed by a '-' where the model makes only the '-'. For "İa"
  the source gives "i-a" and the model gives "a". `LowerText` keeps the length only because
  of this restriction.
- TarotNames.Slugify: its lemmas state the shape of an id and exactly which letters and
  digits it keeps. Where exactly the single '-' characters fall is given only by the
  definition.
- Reading.ReadingCard: the source types `card` as a `TarotCard`, but `deck[index]` past the
  end of the deck is `undefined`. The model follows the code and makes it `None`. With the
  78-card catalog and at most five positions this never happens.
