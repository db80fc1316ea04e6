/** The program around the generators: a fixed-size buffer of words is
    filled in place from a generator and handed to `write` on standard
    output, over and over, until a write fails.

    The write itself is not modelled: its only effect on the program is the
    value it returns, so the main loop takes the results of its successive
    writes as a parameter, and says which buffers it handed to them. The
    seed, which the program takes from the clock, is a parameter as well.
 */
module RandomStream {
  import opened Streams
  import opened Generators

  /** Bytes in a `uint64_t`. */
  const WORD_BYTES: nat := 8

  /** Words in the buffer: one write request is 1 MiB. */
  const BUFFERSIZE: nat := 1024 * 1024 / WORD_BYTES

  /** The buffer holds 131072 words, exactly 1 MiB. */
  lemma BufferBytes()
    ensures BUFFERSIZE == 131072
    ensures BUFFERSIZE * WORD_BYTES == 1048576
  {
  }

  /** `for (auto&& v : buffer) v = rnd();` with an XORShift96: every slot
      is overwritten, in order, with the generator's next word, and the
      generator has moved on by one call per slot. */
  method Fill96(rnd: XorShift96, buffer: array<bv64>)
    modifies rnd, buffer
    ensures buffer[..] == Outputs(Step96, Output96, old(rnd.State()), buffer.Length)
    ensures rnd.State() == Iterate(Step96, old(rnd.State()), buffer.Length)
  {
    ghost var start := rnd.State();
    for i := 0 to buffer.Length
      invariant buffer[..i] == Outputs(Step96, Output96, start, i)
      invariant rnd.State() == Iterate(Step96, start, i)
    {
      buffer[i] := rnd.Next();
      assert buffer[..i + 1] == buffer[..i] + [buffer[i]];
    }
    assert buffer[..] == buffer[..buffer.Length];
  }

  /** The same loop with an XORShift64, the generator the program can be
      switched to. */
  method Fill64(rnd: XorShift64, buffer: array<bv64>)
    modifies rnd, buffer
    ensures buffer[..] == Outputs(Step64, Output64, old(rnd.x), buffer.Length)
    ensures rnd.x == Iterate(Step64, old(rnd.x), buffer.Length)
  {
    ghost var start := rnd.x;
    for i := 0 to buffer.Length
      invariant buffer[..i] == Outputs(Step64, Output64, start, i)
      invariant rnd.x == Iterate(Step64, start, i)
    {
      buffer[i] := rnd.Next();
      assert buffer[..i + 1] == buffer[..i] + [buffer[i]];
    }
    assert buffer[..] == buffer[..buffer.Length];
  }

  /** One round of the main loop: the buffer is refilled and handed to
      `write`, so the words appended to `next` are the buffer's new
      contents. If the words written so far are the first words of the stream
      from `start` and the generator has produced exactly those, then after
      the round the written words are still a prefix of that stream, one
      buffer longer, and the generator is again level with them. */
  method Round96(rnd: XorShift96, buffer: array<bv64>, ghost start: State96, written: seq<bv64>)
      returns (next: seq<bv64>)
    requires buffer.Length == BUFFERSIZE
    requires rnd.State() == Iterate(Step96, start, |written|)
    requires written == Outputs(Step96, Output96, start, |written|)
    modifies rnd, buffer
    ensures |next| == |written| + BUFFERSIZE
    ensures next == Outputs(Step96, Output96, start, |next|)
    ensures rnd.State() == Iterate(Step96, start, |next|)
    ensures buffer[..] == next[|written|..]
  {
    Fill96(rnd, buffer);
    IterateAdd(Step96, start, |written|, BUFFERSIZE);
    OutputsSplit(Step96, Output96, start, |written|, BUFFERSIZE);
    next := written + buffer[..];
  }

  /** The main loop, seeded with `seed`; `writeResults[k]` is what the
      `k`-th write returns. Each round refills the buffer and writes all of
      it; a negative result sets `quit`, which ends the loop. The loop also
      stops when `writeResults` runs out.

      `stream` is every word handed to `write`, in order, and `rounds` the
      number of writes issued: the writes ask for the generator's first
      `rounds` MiB of output, each one the next 1 MiB of the same stream. */
  method Run(seed: bv64, writeResults: seq<int>) returns (stream: seq<bv64>, rounds: nat, quit: bool)
    ensures rounds <= |writeResults|
    ensures |stream| == rounds * BUFFERSIZE
    ensures |stream| * WORD_BYTES == rounds * 1048576
    ensures stream == Outputs(Step96, Output96, Seeded96(seed), |stream|)
    ensures quit <==> 0 < rounds && writeResults[rounds - 1] < 0
    ensures forall k :: 0 <= k < rounds - 1 ==> writeResults[k] >= 0
    ensures !quit ==> rounds == |writeResults|
  {
    BufferBytes();
    var rnd := new XorShift96(seed);
    var buffer := new bv64[BUFFERSIZE];
    ghost var start := rnd.State();

    stream, rounds, quit := [], 0, false;
    while !quit && rounds < |writeResults|
      invariant rounds <= |writeResults|
      invariant |stream| == rounds * BUFFERSIZE
      invariant rnd.State() == Iterate(Step96, start, |stream|)
      invariant stream == Outputs(Step96, Output96, start, |stream|)
      invariant quit ==> 0 < rounds
      invariant forall k :: 0 <= k < rounds ==> (writeResults[k] < 0 <==> quit && k == rounds - 1)
      decreases |writeResults| - rounds
    {
      stream := Round96(rnd, buffer, start, stream);
      if writeResults[rounds] < 0 {
        quit := true;
      }
      rounds := rounds + 1;
    }
  }

  /** Two XORShift96 generators built with the same seed and called in turn
      return the same words, and those are the seed's stream. */
  method SameSeed96(seed: bv64, n: nat) returns (first: seq<bv64>, second: seq<bv64>)
    ensures first == second
    ensures first == Outputs(Step96, Output96, Seeded96(seed), n)
  {
    var a := new XorShift96(seed);
    var b := new XorShift96(seed);
    first, second := [], [];
    for i := 0 to n
      invariant a.State() == b.State() == Iterate(Step96, Seeded96(seed), i)
      invariant first == second == Outputs(Step96, Output96, Seeded96(seed), i)
    {
      var u := a.Next();
      var v := b.Next();
      first, second := first + [u], second + [v];
    }
  }

  /** Two XORShift64 generators built with the same seed and called in turn
      return the same words, and those are the seed's stream. */
  method SameSeed64(seed: bv64, n: nat) returns (first: seq<bv64>, second: seq<bv64>)
    ensures first == second
    ensures first == Outputs(Step64, Output64, seed, n)
  {
    var a := new XorShift64(seed);
    var b := new XorShift64(seed);
    first, second := [], [];
    for i := 0 to n
      invariant a.x == b.x == Iterate(Step64, seed, i)
      invariant first == second == Outputs(Step64, Output64, seed, i)
    {
      var u := a.Next();
      var v := b.Next();
      first, second := first + [u], second + [v];
    }
  }
}
