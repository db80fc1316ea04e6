/** The two xorshift word generators of randomstream.

    Each generator is a class whose fields are its state words and whose
    `Next` method is the C++ call operator: it updates the fields in place
    and returns one 64-bit word. Every `Next` is specified by a pure step
    function on the state and a pure function that reads the returned word
    off the new state; what is worth knowing about the generators (a step
    loses no information, the all-zero state is a dead end that a seeded
    XORShift96 never reaches, different seeds never meet) is proved about
    those functions.

    Words are `bv64`: shifts drop the bits pushed out, and the multiply of
    XORShift64 wraps modulo 2^64, as `uint64_t` arithmetic does.

    Each statement `v ^= v << k` (or `>> k`) of the C++ is a function of its
    own, named after the statement, with an inverse: `v ^= v << k` is undone
    by xoring in `v << k`, `v << 2k`, `v << 4k`, ... until the shift reaches
    64, because every bit the statement changed is recovered from bits
    below (or above) it.
 */
module Generators {
  import opened Streams

  /** The seed both constructors use when none is given. */
  const DEFAULT_SEED: bv64 := 123456789

  /** The xor of three words, as `t ^ x ^ y` computes it. `Step96` and
      `XorShift96.Next` both go through this one function, so the solver
      matches them term by term instead of reasoning about bits. */
  function Xor3(a: bv64, b: bv64, c: bv64): bv64
  {
    a ^ b ^ c
  }

  /** Xoring the same two words in again cancels them. */
  lemma Xor3Cancel(w: bv64, t: bv64, y: bv64, z: bv64)
    requires w == Xor3(t, y, z)
    ensures Xor3(w, y, z) == t
  {
  }

  // ---------------------------------------------------------------------
  // The xor-shift statements and their inverses
  // ---------------------------------------------------------------------

  /** `v ^= v << 16` */
  function XorShl16(v: bv64): bv64 { v ^ (v << 16) }

  /** `v ^= v >> 5` */
  function XorShr5(v: bv64): bv64 { v ^ (v >> 5) }

  /** `v ^= v << 1` */
  function XorShl1(v: bv64): bv64 { v ^ (v << 1) }

  /** `v ^= v >> 12` */
  function XorShr12(v: bv64): bv64 { v ^ (v >> 12) }

  /** `v ^= v << 25` */
  function XorShl25(v: bv64): bv64 { v ^ (v << 25) }

  /** `v ^= v >> 27` */
  function XorShr27(v: bv64): bv64 { v ^ (v >> 27) }

  function UndoXorShl16(v: bv64): bv64
  {
    var w := v ^ (v << 16);
    w ^ (w << 32)
  }

  function UndoXorShr5(v: bv64): bv64
  {
    var w := v ^ (v >> 5);
    var w := w ^ (w >> 10);
    var w := w ^ (w >> 20);
    w ^ (w >> 40)
  }

  function UndoXorShl1(v: bv64): bv64
  {
    var w := v ^ (v << 1);
    var w := w ^ (w << 2);
    var w := w ^ (w << 4);
    var w := w ^ (w << 8);
    var w := w ^ (w << 16);
    w ^ (w << 32)
  }

  function UndoXorShr12(v: bv64): bv64
  {
    var w := v ^ (v >> 12);
    var w := w ^ (w >> 24);
    w ^ (w >> 48)
  }

  function UndoXorShl25(v: bv64): bv64
  {
    var w := v ^ (v << 25);
    w ^ (w << 50)
  }

  function UndoXorShr27(v: bv64): bv64
  {
    var w := v ^ (v >> 27);
    w ^ (w >> 54)
  }

  // In each round-trip lemma below, the two assertions apply the outer
  // function to the inner one's body written out; the solver settles such
  // a closed bit-vector identity on its own, and the lemma's conclusion
  // then follows from the definitions.

  lemma XorShl16RoundTrip(v: bv64)
    ensures UndoXorShl16(XorShl16(v)) == v && XorShl16(UndoXorShl16(v)) == v
  {
    assert UndoXorShl16(v ^ (v << 16)) == v;
    assert XorShl16(var w := v ^ (v << 16); w ^ (w << 32)) == v;
  }

  lemma XorShr5RoundTrip(v: bv64)
    ensures UndoXorShr5(XorShr5(v)) == v && XorShr5(UndoXorShr5(v)) == v
  {
    assert UndoXorShr5(v ^ (v >> 5)) == v;
    assert XorShr5(var w := v ^ (v >> 5);
                   var w := w ^ (w >> 10);
                   var w := w ^ (w >> 20);
                   w ^ (w >> 40)) == v;
  }

  lemma XorShl1RoundTrip(v: bv64)
    ensures UndoXorShl1(XorShl1(v)) == v && XorShl1(UndoXorShl1(v)) == v
  {
    assert UndoXorShl1(v ^ (v << 1)) == v;
    assert XorShl1(var w := v ^ (v << 1);
                   var w := w ^ (w << 2);
                   var w := w ^ (w << 4);
                   var w := w ^ (w << 8);
                   var w := w ^ (w << 16);
                   w ^ (w << 32)) == v;
  }

  lemma XorShr12RoundTrip(v: bv64)
    ensures UndoXorShr12(XorShr12(v)) == v && XorShr12(UndoXorShr12(v)) == v
  {
    assert UndoXorShr12(v ^ (v >> 12)) == v;
    assert XorShr12(var w := v ^ (v >> 12);
                    var w := w ^ (w >> 24);
                    w ^ (w >> 48)) == v;
  }

  lemma XorShl25RoundTrip(v: bv64)
    ensures UndoXorShl25(XorShl25(v)) == v && XorShl25(UndoXorShl25(v)) == v
  {
    assert UndoXorShl25(v ^ (v << 25)) == v;
    assert XorShl25(var w := v ^ (v << 25); w ^ (w << 50)) == v;
  }

  lemma XorShr27RoundTrip(v: bv64)
    ensures UndoXorShr27(XorShr27(v)) == v && XorShr27(UndoXorShr27(v)) == v
  {
    assert UndoXorShr27(v ^ (v >> 27)) == v;
    assert XorShr27(var w := v ^ (v >> 27); w ^ (w >> 54)) == v;
  }

  // ---------------------------------------------------------------------
  // XORShift96
  // ---------------------------------------------------------------------

  /** The three state words of XORShift96. */
  datatype State96 = State96(x: bv64, y: bv64, z: bv64)

  /** The state of a freshly constructed XORShift96: `x` is the seed, `y`
      and `z` start at fixed constants. */
  function Seeded96(seed: bv64): State96
  {
    State96(seed, 362436069, 521288629)
  }

  /** The three xor-shifts XORShift96 applies to `x`. */
  function Scramble96(x: bv64): bv64
  {
    XorShl1(XorShr5(XorShl16(x)))
  }

  function Unscramble96(x: bv64): bv64
  {
    UndoXorShl16(UndoXorShr5(UndoXorShl1(x)))
  }

  /** One call of XORShift96: `x` is scrambled into `t`, and the state
      rotates to `(y, z, t ^ y ^ z)`. */
  function Step96(s: State96): State96
  {
    State96(s.y, s.z, Xor3(Scramble96(s.x), s.y, s.z))
  }

  /** The word XORShift96 returns: the third state word after the call. */
  function Output96(s: State96): bv64
  {
    s.z
  }

  /** Undoes Step96: the old `y` and `z` are the new `x` and `y`, and the
      old `x` is recovered from the new `z`. */
  function Unstep96(s: State96): State96
  {
    State96(Unscramble96(Xor3(s.z, s.x, s.y)), s.x, s.y)
  }

  /** The xor-shifts of XORShift96 are a bijection on 64-bit words. */
  lemma Scramble96RoundTrip(x: bv64)
    ensures Unscramble96(Scramble96(x)) == x
    ensures Scramble96(Unscramble96(x)) == x
  {
    XorShl16RoundTrip(x);
    XorShr5RoundTrip(XorShl16(x));
    XorShl1RoundTrip(XorShr5(XorShl16(x)));
    XorShl1RoundTrip(x);
    XorShr5RoundTrip(UndoXorShl1(x));
    XorShl16RoundTrip(UndoXorShr5(UndoXorShl1(x)));
  }

  /** One step of XORShift96 is a bijection on states: no two states step
      to the same state, and every state has a predecessor. */
  lemma Step96RoundTrip(s: State96)
    ensures Unstep96(Step96(s)) == s
    ensures Step96(Unstep96(s)) == s
  {
    Scramble96RoundTrip(s.x);
    Xor3Cancel(Step96(s).z, Scramble96(s.x), s.y, s.z);
    Scramble96RoundTrip(Xor3(s.z, s.x, s.y));
    Xor3Cancel(Xor3(s.z, s.x, s.y), s.z, s.x, s.y);
  }

  /** A state steps to the all-zero state exactly when it is the all-zero
      state, which XORShift96 would then repeat for ever, returning 0. */
  lemma Step96Zero(s: State96)
    ensures Step96(s) == State96(0, 0, 0) <==> s == State96(0, 0, 0)
  {
    Step96RoundTrip(s);
    assert Step96(State96(0, 0, 0)) == State96(0, 0, 0);
    assert Unstep96(State96(0, 0, 0)) == State96(0, 0, 0);
  }

  /** A constructed XORShift96 never reaches the all-zero state: the
      constructor's `y` is not 0, and no other state steps to zero. */
  lemma {:induction false} NeverAllZero96(seed: bv64, n: nat)
    ensures Iterate(Step96, Seeded96(seed), n) != State96(0, 0, 0)
  {
    if n > 0 {
      NeverAllZero96(seed, n - 1);
      Step96Zero(Iterate(Step96, Seeded96(seed), n - 1));
    }
  }

  /** Generators built with different seeds are in different states after
      any number of calls. */
  lemma {:induction false} SeedsStayApart96(a: bv64, b: bv64, n: nat)
    requires a != b
    ensures Iterate(Step96, Seeded96(a), n) != Iterate(Step96, Seeded96(b), n)
  {
    if n > 0 {
      SeedsStayApart96(a, b, n - 1);
      Step96RoundTrip(Iterate(Step96, Seeded96(a), n - 1));
      Step96RoundTrip(Iterate(Step96, Seeded96(b), n - 1));
    }
  }

  /** Generators built with different seeds return different first words:
      the first word is the scrambled seed xored with the two constants. */
  lemma FirstWordsDiffer96(a: bv64, b: bv64)
    requires a != b
    ensures Outputs(Step96, Output96, Seeded96(a), 1)[0] != Outputs(Step96, Output96, Seeded96(b), 1)[0]
  {
    Step96RoundTrip(Seeded96(a));
    Step96RoundTrip(Seeded96(b));
    assert Outputs(Step96, Output96, Seeded96(a), 1)[0] == Step96(Seeded96(a)).z;
    assert Outputs(Step96, Output96, Seeded96(b), 1)[0] == Step96(Seeded96(b)).z;
  }

  /** The XORShift96 generator; its call operator is `Next`. */
  class XorShift96 {
    var x: bv64
    var y: bv64
    var z: bv64

    /** The current state as a value. */
    function State(): State96
      reads this
    {
      State96(x, y, z)
    }

    /** `XORShift96(seed)` */
    constructor (seed: bv64)
      ensures State() == Seeded96(seed)
    {
      x := seed;
      y := 362436069;
      z := 521288629;
    }

    /** `XORShift96()`, with the default seed. */
    constructor Default()
      ensures State() == Seeded96(DEFAULT_SEED)
    {
      x := DEFAULT_SEED;
      y := 362436069;
      z := 521288629;
    }

    /** One call: the fields take the next state, and the word returned is
        the new `z`. */
    method Next() returns (r: bv64)
      modifies this
      ensures State() == Step96(old(State()))
      ensures r == Output96(State()) && r == z
    {
      x := XorShl16(x);
      x := XorShr5(x);
      x := XorShl1(x);

      var t := x;
      x := y;
      y := z;
      z := Xor3(t, x, y);

      r := z;
    }
  }

  // ---------------------------------------------------------------------
  // XORShift64
  // ---------------------------------------------------------------------

  /** One call of XORShift64 on its single state word. */
  function Step64(x: bv64): bv64
  {
    XorShr27(XorShl25(XorShr12(x)))
  }

  function Unstep64(x: bv64): bv64
  {
    UndoXorShr12(UndoXorShl25(UndoXorShr27(x)))
  }

  /** The word XORShift64 returns: the new state times 2685821657736338717,
      wrapped modulo 2^64. */
  function Output64(x: bv64): bv64
  {
    x * 2685821657736338717
  }

  /** Undoes Output64: 0x59071d96d81ecd35 is the inverse of the (odd)
      multiplier modulo 2^64. */
  function Unmix64(r: bv64): bv64
  {
    r * 0x5907_1d96_d81e_cd35
  }

  /** One step of XORShift64 is a bijection on 64-bit words. */
  lemma Step64RoundTrip(x: bv64)
    ensures Unstep64(Step64(x)) == x
    ensures Step64(Unstep64(x)) == x
  {
    XorShr12RoundTrip(x);
    XorShl25RoundTrip(XorShr12(x));
    XorShr27RoundTrip(XorShl25(XorShr12(x)));
    XorShr27RoundTrip(x);
    XorShl25RoundTrip(UndoXorShr27(x));
    XorShr12RoundTrip(UndoXorShl25(UndoXorShr27(x)));
  }

  /** The multiply that forms XORShift64's result loses no information: the
      returned word determines the state it was computed from. */
  lemma Output64RoundTrip(x: bv64)
    ensures Unmix64(Output64(x)) == x
    ensures Output64(Unmix64(x)) == x
  {
    assert Unmix64(x * 2685821657736338717) == x;
    assert Output64(x * 0x5907_1d96_d81e_cd35) == x;
  }

  /** XORShift64 seeded with 0 stays in state 0 and returns 0 on every
      call. */
  lemma {:induction false} ZeroSeed64(n: nat)
    ensures Iterate(Step64, 0, n) == 0
    ensures forall i :: 0 <= i < n ==> Outputs(Step64, Output64, 0, n)[i] == 0
  {
    assert Step64(0) == 0 && Output64(0) == 0;
    if n > 0 {
      ZeroSeed64(n - 1);
      var prefix := Outputs(Step64, Output64, 0, n - 1);
      assert Outputs(Step64, Output64, 0, n) == prefix + [Output64(Iterate(Step64, 0, n))];
    }
  }

  /** XORShift64 seeded with anything but 0 never reaches state 0 and never
      returns 0. */
  lemma {:induction false} NonZeroSeed64(seed: bv64, n: nat)
    requires seed != 0
    ensures Iterate(Step64, seed, n) != 0
    ensures forall i :: 0 <= i < n ==> Outputs(Step64, Output64, seed, n)[i] != 0
  {
    assert Unstep64(0) == 0 && Unmix64(0) == 0;
    if n > 0 {
      NonZeroSeed64(seed, n - 1);
      Step64RoundTrip(Iterate(Step64, seed, n - 1));
      Output64RoundTrip(Iterate(Step64, seed, n));
      var prefix := Outputs(Step64, Output64, seed, n - 1);
      assert Outputs(Step64, Output64, seed, n) == prefix + [Output64(Iterate(Step64, seed, n))];
    }
  }

  /** Generators built with different seeds are in different states after
      any number of calls. */
  lemma {:induction false} SeedsStayApart64(a: bv64, b: bv64, n: nat)
    requires a != b
    ensures Iterate(Step64, a, n) != Iterate(Step64, b, n)
  {
    if n > 0 {
      SeedsStayApart64(a, b, n - 1);
      Step64RoundTrip(Iterate(Step64, a, n - 1));
      Step64RoundTrip(Iterate(Step64, b, n - 1));
    }
  }

  /** Generators built with different seeds return different words on
      every call. */
  lemma SeedsGiveDifferentWords64(a: bv64, b: bv64, n: nat)
    requires a != b
    ensures forall i :: 0 <= i < n ==> Outputs(Step64, Output64, a, n)[i] != Outputs(Step64, Output64, b, n)[i]
  {
    forall i | 0 <= i < n
      ensures Outputs(Step64, Output64, a, n)[i] != Outputs(Step64, Output64, b, n)[i]
    {
      OutputsAt(Step64, Output64, a, n, i);
      OutputsAt(Step64, Output64, b, n, i);
      SeedsStayApart64(a, b, i + 1);
      Output64RoundTrip(Iterate(Step64, a, i + 1));
      Output64RoundTrip(Iterate(Step64, b, i + 1));
    }
  }

  /** The XORShift64 generator; its call operator is `Next`. */
  class XorShift64 {
    var x: bv64

    /** `XORShift64(seed)` */
    constructor (seed: bv64)
      ensures x == seed
    {
      x := seed;
    }

    /** `XORShift64()`, with the default seed. */
    constructor Default()
      ensures x == DEFAULT_SEED
    {
      x := DEFAULT_SEED;
    }

    /** One call: `x` takes the next state, and the word returned is the
        new state times the multiplier; the product is not stored. */
    method Next() returns (r: bv64)
      modifies this
      ensures x == Step64(old(x))
      ensures r == Output64(x)
    {
      x := XorShr12(x);
      x := XorShl25(x);
      x := XorShr27(x);

      r := Output64(x);
    }
  }
}
