/**
 * The card-id normaliser of src/data/tarot.ts (`slugify`):
 * `name.toLowerCase().replace(/[^a-z0-9]+/g, '-').replace(/^-+|-+$/g, '')`.
 * Each of the three steps is a function on code units; the lemmas state
 * what an id looks like and what it keeps of the name.
 */
module TarotNames {
  import opened Utf16

  /** '-' */
  const Dash: CodeUnit := 0x2D

  /** The units the class [a-z0-9] matches. */
  predicate IsSlugUnit(c: CodeUnit)
  {
    (0x61 <= c <= 0x7A) || (0x30 <= c <= 0x39)
  }

  /** Every unit is a lower-case ASCII letter, a digit or '-'. */
  predicate InSlugAlphabet(s: Text)
  {
    forall k :: 0 <= k < |s| ==> IsSlugUnit(s[k]) || s[k] == Dash
  }

  /** No '-' is directly followed by another '-'. */
  predicate NoDoubleDash(s: Text)
  {
    forall k :: 0 <= k < |s| - 1 && s[k] == Dash ==> s[k + 1] != Dash
  }

  /** The shape of an id: its alphabet, no '-' at either end, no "--". */
  predicate IsSlug(s: Text)
  {
    InSlugAlphabet(s) && NoDoubleDash(s) &&
    (s != [] ==> s[0] != Dash && s[|s| - 1] != Dash)
  }

  /** The [a-z0-9] units of `s`, in order: what a slug keeps of a name. */
  function Keep(s: Text): (r: Text)
    ensures |r| <= |s|
    ensures forall k :: 0 <= k < |r| ==> IsSlugUnit(r[k])
  {
    if s == [] then []
    else (if IsSlugUnit(s[0]) then [s[0]] else []) + Keep(s[1..])
  }

  /** `toLowerCase` on one unit, for the ASCII letters A-Z (the only units
      whose lower case can meet [a-z0-9] apart from U+0130 and U+212A). No
      upper-case ASCII letter survives it, letters and digits of [a-z0-9]
      are left alone, and a unit lands in [a-z0-9] exactly when it was in
      [a-z0-9] or was a letter A-Z. */
  function Lower(c: CodeUnit): (d: CodeUnit)
    ensures !(0x41 <= d <= 0x5A)
    ensures IsSlugUnit(c) ==> d == c
    ensures IsSlugUnit(d) <==> IsSlugUnit(c) || 0x41 <= c <= 0x5A
  {
    if 0x41 <= c <= 0x5A then c + 0x20 else c
  }

  /** `name.toLowerCase()`, unit by unit. */
  function LowerText(s: Text): (r: Text)
    ensures |r| == |s|
    ensures forall k :: 0 <= k < |s| ==> r[k] == Lower(s[k])
  {
    if s == [] then [] else [Lower(s[0])] + LowerText(s[1..])
  }

  /** Length of the run of units outside [a-z0-9] that starts `s`. */
  function SeparatorRun(s: Text): (n: nat)
    ensures n <= |s|
    ensures forall k :: 0 <= k < n ==> !IsSlugUnit(s[k])
    ensures n < |s| ==> IsSlugUnit(s[n])
  {
    if s == [] || IsSlugUnit(s[0]) then 0 else 1 + SeparatorRun(s[1..])
  }

  /** `.replace(/[^a-z0-9]+/g, '-')`: every maximal run of units outside
      [a-z0-9] becomes one '-'. */
  function Dashed(s: Text): (r: Text)
    ensures InSlugAlphabet(r)
    ensures NoDoubleDash(r)
    ensures r == [] <==> s == []
    ensures r != [] ==> (r[0] == Dash <==> !IsSlugUnit(s[0]))
    decreases |s|
  {
    if s == [] then []
    else if IsSlugUnit(s[0]) then [s[0]] + Dashed(s[1..])
    else [Dash] + Dashed(s[SeparatorRun(s)..])
  }

  /** `.replace(/^-+/, '')`: the suffix left once the leading '-' are gone. */
  function DropLeadingDashes(s: Text): (r: Text)
    ensures |r| <= |s| && r == s[|s| - |r|..]
    ensures forall k :: 0 <= k < |s| - |r| ==> s[k] == Dash
    ensures r != [] ==> r[0] != Dash
  {
    if s != [] && s[0] == Dash then DropLeadingDashes(s[1..]) else s
  }

  /** `.replace(/-+$/, '')`: the prefix left once the trailing '-' are gone. */
  function DropTrailingDashes(s: Text): (r: Text)
    ensures |r| <= |s| && r == s[..|r|]
    ensures forall k :: |r| <= k < |s| ==> s[k] == Dash
    ensures r != [] ==> r[|r| - 1] != Dash
  {
    if s != [] && s[|s| - 1] == Dash then DropTrailingDashes(s[..|s| - 1]) else s
  }

  /** `.replace(/^-+|-+$/g, '')`: both ends stripped of '-'. When the text
      is all '-' the first alternative takes all of it, as here. */
  function StripDashes(s: Text): Text
  {
    DropTrailingDashes(DropLeadingDashes(s))
  }

  /** `slugify(name)`. */
  function Slugify(name: Text): Text
  {
    StripDashes(Dashed(LowerText(name)))
  }

  /** Keep distributes over concatenation. */
  lemma {:induction false} KeepAppend(a: Text, b: Text)
    ensures Keep(a + b) == Keep(a) + Keep(b)
  {
    if a == [] {
      assert a + b == b;
    } else {
      assert (a + b)[1..] == a[1..] + b;
      KeepAppend(a[1..], b);
    }
  }

  /** A text with no [a-z0-9] unit keeps nothing. */
  lemma {:induction false} KeepNone(s: Text)
    requires forall k :: 0 <= k < |s| ==> !IsSlugUnit(s[k])
    ensures Keep(s) == []
  {
    if s != [] {
      KeepNone(s[1..]);
    }
  }

  /** Replacing separator runs by '-' keeps every [a-z0-9] unit, in order. */
  lemma {:induction false} DashedKeeps(s: Text)
    ensures Keep(Dashed(s)) == Keep(s)
    decreases |s|
  {
    if s != [] {
      if IsSlugUnit(s[0]) {
        DashedKeeps(s[1..]);
        KeepAppend([s[0]], Dashed(s[1..]));
      } else {
        var n := SeparatorRun(s);
        DashedKeeps(s[n..]);
        KeepAppend([Dash], Dashed(s[n..]));
        assert s == s[..n] + s[n..];
        KeepAppend(s[..n], s[n..]);
        KeepNone(s[..n]);
      }
    }
  }

  /** Dropping the leading '-' keeps what Keep sees, the alphabet and the
      absence of "--". */
  lemma DropLeadingKeeps(s: Text)
    requires InSlugAlphabet(s) && NoDoubleDash(s)
    ensures Keep(DropLeadingDashes(s)) == Keep(s)
    ensures InSlugAlphabet(DropLeadingDashes(s)) && NoDoubleDash(DropLeadingDashes(s))
  {
    var m := DropLeadingDashes(s);
    var i := |s| - |m|;
    assert s == s[..i] + m;
    KeepAppend(s[..i], m);
    KeepNone(s[..i]);
  }

  /** Dropping the trailing '-' keeps what Keep sees, the alphabet and the
      absence of "--". */
  lemma DropTrailingKeeps(s: Text)
    requires InSlugAlphabet(s) && NoDoubleDash(s)
    ensures Keep(DropTrailingDashes(s)) == Keep(s)
    ensures InSlugAlphabet(DropTrailingDashes(s)) && NoDoubleDash(DropTrailingDashes(s))
  {
    var r := DropTrailingDashes(s);
    assert s == r + s[|r|..];
    KeepAppend(r, s[|r|..]);
    KeepNone(s[|r|..]);
  }

  /** Stripping '-' from the ends changes nothing that Keep sees, and what
      is left is an id. */
  lemma StripDashesKeeps(s: Text)
    requires InSlugAlphabet(s) && NoDoubleDash(s)
    ensures Keep(StripDashes(s)) == Keep(s)
    ensures IsSlug(StripDashes(s))
  {
    var m := DropLeadingDashes(s);
    DropLeadingKeeps(s);
    DropTrailingKeeps(m);
    var r := DropTrailingDashes(m);
    if r != [] {
      assert r[0] == m[0];
    }
  }

  /** What `slugify` returns is an id: only [a-z0-9-], no '-' at either
      end, never "--". */
  lemma SlugifyIsSlug(name: Text)
    ensures IsSlug(Slugify(name))
  {
    StripDashesKeeps(Dashed(LowerText(name)));
  }

  /** `slugify` keeps exactly the letters (lower-cased) and digits of the
      name, in their order; everything else it drops or turns into '-'. */
  lemma SlugifyKeepsAlphanumerics(name: Text)
    ensures Keep(Slugify(name)) == Keep(LowerText(name))
  {
    var d := Dashed(LowerText(name));
    StripDashesKeeps(d);
    DashedKeeps(LowerText(name));
  }

  /** An id is empty exactly when the name has no ASCII letter or digit. */
  lemma SlugifyEmptyIff(name: Text)
    ensures Slugify(name) == [] <==> Keep(LowerText(name)) == []
  {
    SlugifyIsSlug(name);
    SlugifyKeepsAlphanumerics(name);
    var id := Slugify(name);
    if id != [] {
      SlugKeepsSomething(id);
    }
  }

  /** A non-empty id has a letter or digit (it cannot be all '-'). */
  lemma SlugKeepsSomething(id: Text)
    requires IsSlug(id) && id != []
    ensures Keep(id) != []
  {
    assert id == [id[0]] + id[1..];
    KeepAppend([id[0]], id[1..]);
  }

  /** An id is lower case already. */
  lemma {:induction false} LowerSlug(s: Text)
    requires InSlugAlphabet(s)
    ensures LowerText(s) == s
  {
    if s != [] {
      LowerSlug(s[1..]);
    }
  }

  /** Separator runs in an id are single '-', so there is nothing to replace. */
  lemma {:induction false} DashedSlug(s: Text)
    requires InSlugAlphabet(s) && NoDoubleDash(s)
    ensures Dashed(s) == s
    decreases |s|
  {
    if s != [] {
      if !IsSlugUnit(s[0]) {
        assert SeparatorRun(s) == 1;
      }
      DashedSlug(s[1..]);
    }
  }

  /** `slugify` leaves an id as it is, so applying it twice is applying it
      once. */
  lemma SlugifyIdempotent(name: Text)
    ensures Slugify(Slugify(name)) == Slugify(name)
  {
    var id := Slugify(name);
    SlugifyIsSlug(name);
    LowerSlug(id);
    DashedSlug(id);
  }
}
