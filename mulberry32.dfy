/**
 * The seeded generator of src/data/tarot.ts (`mulberry32`, exported as
 * `createSeededRandom`). A generator owns one 32-bit counter `t`; every
 * call advances it by 0x6d2b79f5 and returns a 32-bit mix `u` of the new
 * counter, which JavaScript hands out as the float u / 2^32.
 *
 * JavaScript never wraps `t` itself, but `t` reaches the output only
 * through ToInt32/ToUint32, so keeping it modulo 2^32 is exact for as long
 * as the float `t` stays an integer (below 2^53, some 4.9 million draws).
 */
module Mulberry32 {

  const TwoTo32: int := 0x1_0000_0000
  const TwoTo31: int := 0x8000_0000

  /** The constant added to the counter on every draw. */
  const Increment: bv32 := 0x6d2b79f5

  /** JavaScript's `n >>> 0` on an integral number: n modulo 2^32. */
  function Uint32(n: int): bv32
  {
    (n % TwoTo32) as bv32
  }

  /** The raw output for counter value `t` (the counter already advanced):
      `x = imul(t ^ (t >>> 15), t | 1)`, then `x ^= x + imul(x ^ (x >>> 7), x | 61)`,
      then `(x ^ (x >>> 14)) >>> 0`. Math.imul keeps the low 32 bits of the
      product, and the sum `x + imul(..)` reaches the XOR through ToInt32,
      so every step is 32-bit wrap-around arithmetic. */
  function Mix(t: bv32): bv32
  {
    var x := (t ^ (t >> 15)) * (t | 1);
    var x := x ^ (x + (x ^ (x >> 7)) * (x | 61));
    x ^ (x >> 14)
  }

  /** The float a draw returns: u / 4294967296. */
  function Value(u: bv32): (r: real)
    ensures 0.0 <= r < 1.0
    ensures r * 4294967296.0 == u as int as real
  {
    u as int as real / 4294967296.0
  }

  /** The floats a run of raw outputs returns, one by one. */
  function Floats(d: seq<bv32>): (r: seq<real>)
    ensures |r| == |d|
    ensures forall k :: 0 <= k < |r| ==> 0.0 <= r[k] < 1.0
  {
    if d == [] then [] else [Value(d[0])] + Floats(d[1..])
  }

  /** Float k of a run is the value of raw output k. */
  lemma {:induction false} FloatsAt(d: seq<bv32>, k: nat)
    requires k < |d|
    ensures Floats(d)[k] == Value(d[k])
  {
    if k > 0 {
      FloatsAt(d[1..], k - 1);
    }
  }

  /** `value > 0.5` compares the raw output with 2^31. */
  lemma ValueAboveHalf(u: bv32)
    ensures Value(u) > 0.5 <==> u as int > TwoTo31
  {
    assert Value(u) * 4294967296.0 == u as int as real;
  }

  /** The counter after `k` draws from counter `t`. */
  function Advance(t: bv32, k: nat): bv32
    decreases k
  {
    if k == 0 then t else Advance(t + Increment, k - 1)
  }

  /** The first `n` raw outputs of a generator whose counter is `t`. */
  function Stream(t: bv32, n: nat): (s: seq<bv32>)
    ensures |s| == n
    decreases n
  {
    if n == 0 then [] else [Mix(t + Increment)] + Stream(t + Increment, n - 1)
  }

  /** One more draw advances the counter once more. */
  lemma {:induction false} AdvanceStep(t: bv32, k: nat)
    ensures Advance(t, k + 1) == Advance(t, k) + Increment
    decreases k
  {
    if k > 0 {
      AdvanceStep(t + Increment, k - 1);
    }
  }

  /** Draw i (counting from 0) is the mix of the counter after i + 1 steps. */
  lemma {:induction false} StreamAt(t: bv32, n: nat, i: nat)
    requires i < n
    ensures Stream(t, n)[i] == Mix(Advance(t, i + 1))
    decreases i
  {
    if i > 0 {
      var rest := Stream(t + Increment, n - 1);
      assert Stream(t, n)[i] == rest[i - 1];
      StreamAt(t + Increment, n - 1, i - 1);
      assert Advance(t, i + 1) == Advance(t + Increment, i);
    }
  }

  /** A stream is the stream of its first draws followed by the stream of
      the generator left behind by them. */
  lemma {:induction false} StreamSplit(t: bv32, a: nat, b: nat)
    ensures Stream(t, a + b) == Stream(t, a) + Stream(Advance(t, a), b)
    decreases a
  {
    if a > 0 {
      StreamSplit(t + Increment, a - 1, b);
    }
  }

  /** A longer run of the same generator begins with the shorter run. */
  lemma StreamPrefix(t: bv32, m: nat, n: nat)
    requires m <= n
    ensures Stream(t, n)[..m] == Stream(t, m)
  {
    StreamSplit(t, m, n - m);
  }

  /** k draws and then m more are k + m draws. */
  lemma {:induction false} AdvanceAdd(t: bv32, k: nat, m: nat)
    ensures Advance(Advance(t, k), m) == Advance(t, k + m)
    decreases k
  {
    if k > 0 {
      AdvanceAdd(t + Increment, k - 1, m);
    }
  }

  /** The draw made by a generator that has made k draws of a planned n:
      its counter moves from Advance(t0, k) to `t`, and it returns Mix(t). */
  lemma DrawAt(t0: bv32, n: nat, k: nat, t: bv32, u: bv32)
    requires k < n
    requires t == Advance(t0, k) + Increment && u == Mix(t)
    ensures u == Stream(t0, n)[k]
    ensures t == Advance(t0, k + 1)
  {
    StreamAt(t0, n, k);
    AdvanceStep(t0, k);
  }

  /** Seeds that agree modulo 2^32 start identical generators, hence
      identical streams forever. */
  lemma CongruentSeedsSameStream(a: int, b: int, n: nat)
    requires a % TwoTo32 == b % TwoTo32
    ensures Stream(Uint32(a), n) == Stream(Uint32(b), n)
  {
  }

  /** A generator: the closure returned by `mulberry32(seed)` with its
      captured counter. */
  class Generator {
    var t: bv32

    /** `let t = seed >>> 0` */
    constructor (seed: int)
      ensures t == Uint32(seed)
    {
      t := Uint32(seed);
    }

    /** One call of the closure: advances the counter (its only effect)
        and returns the raw output `u`; the float result is Value(u). */
    method Next() returns (u: bv32)
      modifies this
      ensures t == old(t) + Increment
      ensures u == Mix(t)
    {
      t := t + Increment;
      u := Mix(t);
    }
  }
}
