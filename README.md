# randomstream in Dafny

randomstream writes an endless stream of pseudo-random 64-bit words to
standard output. It has two xorshift generators and a main loop:

- XORShift96 keeps three words of state. It is the one the program uses.
- XORShift64 keeps one word of state. The program can be switched to it by
  editing one line.
- The main loop seeds the generator from the clock. Each round it fills a
  1 MiB buffer, word by word, and hands the buffer to `write`. It stops when
  a write fails.

This model has three modules.

- `Streams` (streams.dfy) describes, once, the stream of words any stepping
  generator produces: `Iterate` is the state after `n` calls and `Outputs`
  the first `n` words returned. It also proves how streams split and join.
- `Generators` (generators.dfy) holds the two generators as classes. Their
  fields are the C++ members, and `Next` is the call operator, updating the
  fields in place. Each `Next` is proved against a pure step function and a
  pure output function. About those functions the module proves:
  - every xor-shift statement, and so every step, is a bijection, with an
    explicit inverse;
  - the multiply of XORShift64 is a bijection as well;
  - a seeded XORShift96 never reaches the all-zero state;
  - XORShift64 seeded with 0 stays at 0, and with any other seed never
    reaches 0;
  - different seeds never lead to the same state.
- `RandomStream` (randomstream.dfy) has the buffer size and the fill loop
  over an `array`. The main loop is a method, and the results of the
  successive writes are its input. It proves:
  - after a fill, the buffer holds the generator's next words in order;
  - after `rounds` writes, the words handed to `write` are exactly the
    generator's first `rounds * BUFFERSIZE` words;
  - the loop ends exactly at the first failed write.

Words are `bv64`, so shifts drop the bits pushed out and the XORShift64
multiply wraps modulo 2^64, as `uint64_t` arithmetic does.

In XORShift96 the new `z` is `t ^ x ^ y` taken after `x` and `y` have moved,
that is `t ^ y_old ^ z_old`, where `t` is `x` after its three xor-shifts
(randomstream.cpp:46-49).

## Model

| member | source | states |
|---|---|---|
| RandomStream.BufferBytes | randomstream.cpp:24 | the buffer is 131072 words of 8 bytes, i.e. exactly 1048576 bytes (1 MiB) |
| Generators.XorShl16RoundTrip | randomstream.cpp:42 | `x ^= x << 16` is undone by `UndoXorShl16` and undoes it: the statement is a bijection on 64-bit words |
| Generators.XorShr5RoundTrip | randomstream.cpp:43 | `x ^= x >> 5` is a bijection, with inverse `UndoXorShr5` |
| Generators.XorShl1RoundTrip | randomstream.cpp:44 | `x ^= x << 1` is a bijection, with inverse `UndoXorShl1` |
| Generators.XorShr12RoundTrip | randomstream.cpp:67 | `x ^= x >> 12` is a bijection, with inverse `UndoXorShr12` |
| Generators.XorShl25RoundTrip | randomstream.cpp:68 | `x ^= x << 25` is a bijection, with inverse `UndoXorShl25` |
| Generators.XorShr27RoundTrip | randomstream.cpp:69 | `x ^= x >> 27` is a bijection, with inverse `UndoXorShr27` |
| Generators.Scramble96RoundTrip | randomstream.cpp:42-44 | the three xor-shifts XORShift96 applies to `x` are together a bijection, with inverse `Unscramble96` |
| Generators.Step96RoundTrip | randomstream.cpp:38-52 | one XORShift96 call is a bijection on states: `Unstep96` recovers the old state from the new one, and every state has a predecessor |
| Generators.Step96Zero | randomstream.cpp:38-52 | a state steps to the all-zero state if and only if it is the all-zero state |
| Generators.NeverAllZero96 | randomstream.cpp:29-52 | a generator built by the constructor never reaches the all-zero state, after any number of calls |
| Generators.SeedsStayApart96 | randomstream.cpp:34-52 | two XORShift96 built with different seeds are in different states after the same number of calls |
| Generators.FirstWordsDiffer96 | randomstream.cpp:34-51 | two XORShift96 built with different seeds return different first words |
| Generators.XorShift96.constructor | randomstream.cpp:29-36 | the new generator's state is `(seed, 362436069, 521288629)` |
| Generators.XorShift96.Default | randomstream.cpp:34-36 | without a seed the state is `(123456789, 362436069, 521288629)` |
| Generators.XorShift96.Next | randomstream.cpp:38-52 | the fields move to `Step96` of the old state: `x` and `y` take the old `y` and `z`, and `z` the scrambled old `x` xored with both. The word returned is the new `z` |
| Generators.Step64RoundTrip | randomstream.cpp:65-70 | one XORShift64 state update is a bijection on 64-bit words, with inverse `Unstep64` |
| Generators.Output64RoundTrip | randomstream.cpp:71 | the multiply by 2685821657736338717 modulo 2^64 is undone by multiplying by 0x59071d96d81ecd35, and conversely |
| Generators.ZeroSeed64 | randomstream.cpp:61-72 | XORShift64 seeded with 0 stays in state 0 and returns 0 on every call |
| Generators.NonZeroSeed64 | randomstream.cpp:61-72 | XORShift64 seeded with anything but 0 never reaches state 0 and never returns 0 |
| Generators.SeedsStayApart64 | randomstream.cpp:61-70 | two XORShift64 built with different seeds are in different states after the same number of calls |
| Generators.SeedsGiveDifferentWords64 | randomstream.cpp:61-72 | two XORShift64 built with different seeds return different words on every call |
| Generators.XorShift64.constructor | randomstream.cpp:61-63 | the state word is the seed |
| Generators.XorShift64.Default | randomstream.cpp:61-63 | without a seed the state word is 123456789 |
| Generators.XorShift64.Next | randomstream.cpp:65-72 | `x` moves to `Step64` of the old `x`, and the word returned is the new `x` times the multiplier modulo 2^64; the stored state is not multiplied |
| Streams.OutputsAt | randomstream.cpp:95-98 | word `i` of a generator's output is read off its state after `i + 1` calls |
| Streams.OutputsEach | randomstream.cpp:95-98 | all words at once: every word `i` of the first `n` is the word of call `i + 1` |
| Streams.IterateAdd | randomstream.cpp:92-98 | `m` calls followed by `n` more are `m + n` calls |
| Streams.OutputsSplit | randomstream.cpp:92-98 | the first `m + n` words are the first `m` words, then the `n` words produced from the state reached after `m` calls |
| RandomStream.Fill96 | randomstream.cpp:95-98 | the fill loop overwrites the whole buffer with the generator's next `buffer.Length` words, in order, and advances the generator by exactly that many calls |
| RandomStream.Fill64 | randomstream.cpp:88-98 | the same fill loop with XORShift64, the generator that the commented-out line selects |
| RandomStream.Round96 | randomstream.cpp:93-104 | one round keeps the words written so far a prefix of the generator's stream, BUFFERSIZE words longer, with the generator level with them; the words appended are exactly the buffer's new contents |
| RandomStream.Run | randomstream.cpp:85-105 | for the given seed and write results, these all hold when the loop stops: every word handed to `write` is the seeded XORShift96 stream in order, `rounds` buffers of BUFFERSIZE words (`rounds` MiB); `quit` is set exactly when the last write returned a negative value; every earlier write succeeded; and without `quit`, every given write was issued |
| RandomStream.SameSeed96 | randomstream.cpp:26-52 | two XORShift96 built with the same seed and called in turn return identical words, namely the seed's stream |
| RandomStream.SameSeed64 | randomstream.cpp:55-72 | two XORShift64 built with the same seed and called in turn return identical words, namely the seed's stream |

## Left out

- The usage check at randomstream.cpp:77-81 is left out. It prints a message and exits with status 1 when any argument is given. This is I/O only.
- The bytes of `write` are not modelled. The model keeps only the words handed to it and the value it returns. Like the program, it treats a short write (a non-negative result below the size asked for) as success.
- Byte order is not modelled: how the words appear as bytes on standard output depends on the machine.
- `perror("<stdout>")` is left out. It is output only.
- `time(NULL)` is not modelled. The seed it supplies is the `seed` parameter of `Run`.
- Run: the program loops until a write fails. The model's loop also stops when the given sequence of write results runs out, because a method's input is finite. Every round that does run matches the program.
- Run: the program's generator can be swapped to XORShift64 by editing the source (randomstream.cpp:88). `Run` uses XORShift96, as the program is written. The XORShift64 fill is `Fill64`.
- The buffer's contents before the first fill are not modelled. The model allocates a fresh array. Every slot is overwritten before it is written out, so this does not matter.
- Streams.Outputs: its own contract gives only the length. What each word is comes from `Streams.OutputsAt` and `Streams.OutputsEach`.
