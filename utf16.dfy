/**
 * JavaScript strings as the core sees them: sequences of UTF-16 code units,
 * as returned by `charCodeAt`, together with the one string built-in the
 * reading code relies on besides concatenation (`String.prototype.trim`).
 */
module Utf16 {

  /** One UTF-16 code unit. */
  type CodeUnit = c: int | 0 <= c < 0x1_0000

  /** A JavaScript string value. */
  type Text = seq<CodeUnit>

  /** The code unit of a character of the Basic Multilingual Plane
      (every literal of this model is ASCII). */
  function UnitOf(c: char): CodeUnit
  {
    if c as int < 0x1_0000 then c as int else 0xFFFD
  }

  /** A string literal of the source, as code units. */
  function Lit(s: string): (t: Text)
    ensures |t| == |s|
    ensures forall k :: 0 <= k < |s| && s[k] as int < 0x1_0000 ==> t[k] == s[k] as int
  {
    seq(|s|, k requires 0 <= k < |s| => UnitOf(s[k]))
  }

  /** The code units `trim` removes: WhiteSpace (TAB, VT, FF, SP, NBSP,
      ZWNBSP and the space separators) and LineTerminator (LF, CR, LS, PS). */
  predicate IsTrimmable(c: CodeUnit)
  {
    c == 0x09 || c == 0x0A || c == 0x0B || c == 0x0C || c == 0x0D || c == 0x20 ||
    c == 0xA0 || c == 0x1680 || (0x2000 <= c <= 0x200A) || c == 0x2028 ||
    c == 0x2029 || c == 0x202F || c == 0x205F || c == 0x3000 || c == 0xFEFF
  }

  /** Length of the longest prefix of trimmable code units. */
  function LeadingSpace(s: Text): (n: nat)
    ensures n <= |s|
    ensures forall k :: 0 <= k < n ==> IsTrimmable(s[k])
    ensures n < |s| ==> !IsTrimmable(s[n])
  {
    if s == [] || !IsTrimmable(s[0]) then 0 else 1 + LeadingSpace(s[1..])
  }

  /** Length of the longest suffix of trimmable code units. */
  function TrailingSpace(s: Text): (n: nat)
    ensures n <= |s|
    ensures forall k :: |s| - n <= k < |s| ==> IsTrimmable(s[k])
    ensures n < |s| ==> !IsTrimmable(s[|s| - 1 - n])
  {
    if s == [] || !IsTrimmable(s[|s| - 1]) then 0 else 1 + TrailingSpace(s[..|s| - 1])
  }

  /** `s.trim()`: the infix of `s` left once the trimmable code units at
      both ends are removed. */
  function Trim(s: Text): (r: Text)
    ensures r == [] <==> forall k :: 0 <= k < |s| ==> IsTrimmable(s[k])
    ensures r != [] ==> !IsTrimmable(r[0]) && !IsTrimmable(r[|r| - 1])
    ensures LeadingSpace(s) + |r| <= |s|
    ensures r == s[LeadingSpace(s)..LeadingSpace(s) + |r|]
    ensures forall k :: LeadingSpace(s) + |r| <= k < |s| ==> IsTrimmable(s[k])
  {
    var i := LeadingSpace(s);
    if i == |s| then []
    else
      var j := |s| - TrailingSpace(s);
      s[i..j]
  }

  /** Trimming twice is trimming once. */
  lemma TrimIdempotent(s: Text)
    ensures Trim(Trim(s)) == Trim(s)
  {
    var r := Trim(s);
    if r != [] {
      assert LeadingSpace(r) == 0;
      assert TrailingSpace(r) == 0;
    }
  }
}
