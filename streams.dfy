/** The stream of words a stateful generator produces.

    Both generators of randomstream work the same way: each call moves the
    state one step forward and returns a word computed from the new state.
    This module describes the resulting stream once, for any state type,
    given the step function and the function that reads a word off a state.
 */
module Streams {

  /** The state after `n` calls, starting from `s`. */
  function Iterate<S>(step: S -> S, s: S, n: nat): S
  {
    if n == 0 then s else step(Iterate(step, s, n - 1))
  }

  /** The first `n` words returned by a generator whose state is `s` before
      the first call, one word per call. */
  function Outputs<S>(step: S -> S, out: S -> bv64, s: S, n: nat): (r: seq<bv64>)
    ensures |r| == n
  {
    if n == 0 then [] else Outputs(step, out, s, n - 1) + [out(Iterate(step, s, n))]
  }

  /** Word `i` of the stream is read off the state after `i + 1` calls. */
  lemma {:induction false} OutputsAt<S>(step: S -> S, out: S -> bv64, s: S, n: nat, i: nat)
    requires i < n
    ensures Outputs(step, out, s, n)[i] == out(Iterate(step, s, i + 1))
  {
    if i < n - 1 {
      OutputsAt(step, out, s, n - 1, i);
    }
  }

  /** Every word of the stream at once. */
  lemma OutputsEach<S>(step: S -> S, out: S -> bv64, s: S, n: nat)
    ensures forall i :: 0 <= i < n ==> Outputs(step, out, s, n)[i] == out(Iterate(step, s, i + 1))
  {
    forall i | 0 <= i < n
      ensures Outputs(step, out, s, n)[i] == out(Iterate(step, s, i + 1))
    {
      OutputsAt(step, out, s, n, i);
    }
  }

  /** Running `m` calls and then `n` more is running `m + n` calls. */
  lemma {:induction false} IterateAdd<S>(step: S -> S, s: S, m: nat, n: nat)
    ensures Iterate(step, Iterate(step, s, m), n) == Iterate(step, s, m + n)
  {
    if n > 0 {
      IterateAdd(step, s, m, n - 1);
    }
  }

  /** The first `m + n` words are the first `m` words followed by the `n`
      words the generator returns from the state it reached after `m` calls. */
  lemma OutputsSplit<S>(step: S -> S, out: S -> bv64, s: S, m: nat, n: nat)
    ensures Outputs(step, out, s, m + n)
         == Outputs(step, out, s, m) + Outputs(step, out, Iterate(step, s, m), n)
  {
    var whole := Outputs(step, out, s, m + n);
    var front := Outputs(step, out, s, m);
    var back := Outputs(step, out, Iterate(step, s, m), n);
    forall i | m <= i < m + n
      ensures whole[i] == back[i - m]
    {
      OutputsAt(step, out, s, m + n, i);
      OutputsAt(step, out, Iterate(step, s, m), n, i - m);
      IterateAdd(step, s, m, i - m + 1);
    }
    forall i | 0 <= i < m
      ensures whole[i] == front[i]
    {
      OutputsAt(step, out, s, m + n, i);
      OutputsAt(step, out, s, m, i);
    }
    assert whole == front + back;
  }
}
