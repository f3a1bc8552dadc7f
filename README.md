# JSnowFlake identifier generator, in Dafny

This project models `JSnowFlake`, a Snowflake-style generator of 64-bit
identifiers. A generator owns a 10-bit machine id and a rolling 22-bit
sequence counter. Each `nextId` call increments the counter, masks it to 22
bits and packs three fields into a Java `long`, from the high bits down:

- the seconds elapsed since `START_STMP` (2018-01-01 at UTC+8), 32 bits;
- the sequence, 22 bits;
- the machine id, 10 bits.

The generator has no last-timestamp field, does not reset the sequence each
second, and does not wait for the clock. Uniqueness rests on the sequence
rolling through 2^22 values, and on machine ids being disjoint across
generators.

Layout of the project:

- `bits.dfy`, module `Bits`, holds Java's integer semantics on mathematical
  integers:
  - `Long` and `Int` are the ranges of Java's `long` and `int`;
  - `WrapLong` and `WrapInt` do Java's two's-complement truncation;
  - `And`, `Or` and `Xor` compute Java's `&`, `|` and `^` bit by bit;
  - `ShiftLeftLong` and `ShiftRight` compute `<<` and `>>`.

  Its lemmas prove that masking with `2^k - 1` is the Euclidean remainder
  modulo `2^k`, for negative numbers too. They also prove that `|` of
  disjoint bit fields is `+`.
- `snowflake.dfy`, module `SnowFlake`, holds the constants and the class
  `JSnowFlake`.
  - The class's methods perform the Java expressions literally.
  - They are specified by arithmetic functions:
    - `NextSequence` is the successor modulo 2^22;
    - `ComposeId` is the field layout;
    - `MachineOf`, `SequenceOf` and `TimestampOf` are the field decoders.
  - Lemmas prove each Java expression equal to its specification.
  - Ghost fields record the generator's seed and the clock readings of its
    calls, so that `Issued()` is the list of identifiers returned so far.
    `SequenceAfter` and `IdsFor` give that history as functions.

Many Snowflake generators are stricter than this one:
- they keep a last timestamp;
- they reject or tolerate clock regression;
- they reset the sequence at each new time unit;
- they busy-wait when the sequence overflows within one unit.

Those mechanisms are what make a generator's identifiers never decrease and
keep a burst longer than the sequence range unique. This source has none of
them; its class comment at line 15 chooses the rolling sequence deliberately.
The model follows the source:
- `WrapInSameSecondDecreases` shows that whenever the sequence wraps within
  one second, the next identifier is smaller. `SameSecondIdsCanDecrease` is
  one such run.
- `SameSecondRepeatsAfterWindow` shows that two calls exactly 2^22 calls
  apart in the same second (modulo 2^32 seconds) return the same
  identifier.

The repository's test `testRepetitionLess`
(src/test/java/com/jarxi/util/JSnowFlakeTest.java:21-30) asserts that
`MAX_SEQUENCE + 1000` successive identifiers of one default-constructed
generator are pairwise distinct. The model shows that this depends on
timing:
- `RepeatsNeedWindowAndSameSecond` shows that two calls can only repeat an
  identifier when they are a multiple of 2^22 calls apart and read the same
  second modulo 2^32.
- `SameSecondRepeatsAfterWindow` shows that such a pair does repeat.

The test's run has fewer than 2 * 2^22 calls. So it passes exactly when, for
each of the first 999 calls, the call 2^22 later reads a different second
modulo 2^32. That holds, for instance, when 2^22 calls take longer than a
second.

## Model

| member | source | states |
|---|---|---|
| `SnowFlake.MaximaAreLowMasks` | src/main/java/com/jarxi/util/JSnowFlake.java:37-38 | `-1L ^ (-1L << MACHINE_BIT)` is 1023 and `-1L ^ (-1L << SEQUENCE_BIT)` is 2^22 - 1, the masks of the fields' low bits |
| `SnowFlake.LayoutConstants` | src/main/java/com/jarxi/util/JSnowFlake.java:31-44 | the maxima are 2^10 - 1 and 2^22 - 1; the sequence shift is 10 bits and the timestamp shift is 32 bits |
| `Bits.LowMaskFromShift` | src/main/java/com/jarxi/util/JSnowFlake.java:37-38 | for every width k below 64, `-1 ^ (-1 << k)` on a `long` equals 2^k - 1 |
| `Bits.AndLowMask` | src/main/java/com/jarxi/util/JSnowFlake.java:70 | `x & (2^k - 1)` is `x` modulo 2^k (Euclidean), for every integer `x`, negative ones included |
| `Bits.OrDisjoint` | src/main/java/com/jarxi/util/JSnowFlake.java:72-74 | when `a` has no bits below position k and `0 <= b < 2^k`, `a \| b == a + b` |
| `Bits.WrapLong` | src/main/java/com/jarxi/util/JSnowFlake.java:69 | truncation to a `long` is congruent to its argument modulo 2^64 and leaves values already in range unchanged |
| `SnowFlake.IncrementAndMask` | src/main/java/com/jarxi/util/JSnowFlake.java:69-70 | `sequence++; sequence &= MAX_SEQUENCE` yields `(sequence + 1) mod 2^22`, which lies in `[0, MAX_SEQUENCE]`; this includes the case where `++` wraps past `Long.MAX_VALUE` |
| `SnowFlake.ShiftOrComposes` | src/main/java/com/jarxi/util/JSnowFlake.java:72-74 | for a masked sequence and a valid machine id, the shift-and-or expression is the field layout: the offset's low 32 bits times 2^32, plus the sequence times 2^10, plus the machine id; the result is a `long` |
| `SnowFlake.DecodersAreJavaMasks` | src/main/java/com/jarxi/util/JSnowFlake.java:37-44 | the decoders are `id & MAX_MACHINE_NUM`, `(id >> SEQUENCE_LEFT) & MAX_SEQUENCE` and `id >> TIMESTMP_LEFT` |
| `SnowFlake.DecodeComposeId` | src/main/java/com/jarxi/util/JSnowFlake.java:72-74 | decoding an identifier returns its machine id, its sequence and its offset truncated to 32 signed bits; for an offset in `[0, 2^31)` the timestamp field is the offset itself and the identifier is non-negative |
| `SnowFlake.LaterSecondLargerId` | src/main/java/com/jarxi/util/JSnowFlake.java:72-74 | for offsets in `[0, 2^31)`, an identifier from a later second is larger than one from an earlier second, whatever the other fields hold |
| `SnowFlake.DistinctSecondsDistinctIds` | src/main/java/com/jarxi/util/JSnowFlake.java:14 | identifiers from different seconds within a span of 2^32 seconds (about 136 years) differ |
| `SnowFlake.IdsNegativeFromOffset2To31` | src/main/java/com/jarxi/util/JSnowFlake.java:72 | for offsets in [2^31, 2^32) (2086 to 2154), every identifier is a negative `long`, so signed order follows time only for the first 2^31 seconds |
| `SnowFlake.DistinctMachinesDistinctIds` | src/main/java/com/jarxi/util/JSnowFlake.java:72-74 | identifiers with different valid machine ids differ, whatever their clocks and sequences |
| `SnowFlake.CreateMachineIdentifier` | src/main/java/com/jarxi/util/JSnowFlake.java:109-111 | `machinePiece & (int)MAX_MACHINE_NUM` is the piece modulo 1024, always a valid machine id, and equal to the piece when the piece is already valid |
| `SnowFlake.JSnowFlake.Init` | src/main/java/com/jarxi/util/JSnowFlake.java:53-58 | the field assignments after the check: it accepts only a valid machine id, stores it and the seed, and leaves a generator with an empty history whose invariant holds |
| `SnowFlake.JSnowFlake.New` | src/main/java/com/jarxi/util/JSnowFlake.java:53-58 | construction succeeds exactly when `0 <= machineId <= 1023` and otherwise fails with `IllegalArgumentException`; on success the object holds that machine id and the seed as `sequence` |
| `SnowFlake.JSnowFlake.NewDefault` | src/main/java/com/jarxi/util/JSnowFlake.java:49-51 | the no-argument constructor always succeeds, with the masked machine piece as machine id |
| `SnowFlake.JSnowFlake.NextId` | src/main/java/com/jarxi/util/JSnowFlake.java:65-75 | `sequence` becomes its old value plus one, modulo 2^22, and lies in `[0, MAX_SEQUENCE]`; the machine id is unchanged; the returned identifier is the field layout of the clock offset, the new sequence and the machine id, and decodes back to them; it is appended to the identifiers issued so far |
| `SnowFlake.IdsForAppend` | src/main/java/com/jarxi/util/JSnowFlake.java:65-75 | one more `nextId` call appends exactly one identifier to the history |
| `SnowFlake.SequenceAfterCalls` | src/main/java/com/jarxi/util/JSnowFlake.java:69-70 | after k >= 1 calls, `sequence` is the seed plus k, modulo 2^22, whatever the clock did; it is never reset per second |
| `SnowFlake.WindowIdsDistinct` | src/main/java/com/jarxi/util/JSnowFlake.java:15 | two calls of one generator fewer than 2^22 calls apart return different identifiers, even when the clock goes backwards; so any 2^22 successive identifiers are pairwise distinct |
| `SnowFlake.SameSecondRepeatsAfterWindow` | src/main/java/com/jarxi/util/JSnowFlake.java:69-74 | two calls exactly 2^22 calls apart whose readings agree modulo 2^32 seconds return the same identifier, so the window of uniqueness is exact |
| `SnowFlake.WrapInSameSecondDecreases` | src/main/java/com/jarxi/util/JSnowFlake.java:69-74 | for every valid machine id, seed and run of clock readings: if the sequence wraps from `MAX_SEQUENCE` to 0 between two successive calls that read the same second, the second call returns a smaller identifier |
| `SnowFlake.SameSecondIdsCanDecrease` | src/main/java/com/jarxi/util/JSnowFlake.java:69-74 | one instance of the wrap: machine 0, seed `MAX_SEQUENCE - 1`, two calls at `START_STMP`; the second identifier is smaller than the first |
| `SnowFlake.RepeatsNeedWindowAndSameSecond` | src/test/java/com/jarxi/util/JSnowFlakeTest.java:21-30 | two calls of one generator return the same identifier only when they are a multiple of 2^22 calls apart and read the same second (modulo 2^32 seconds); with `SameSecondRepeatsAfterWindow`, the test's burst of `MAX_SEQUENCE + 1000` calls is repetition-free exactly when calls 2^22 apart read different seconds modulo 2^32 |
| `SnowFlake.DistinctMachinesDisjointIds` | src/test/java/com/jarxi/util/JSnowFlakeTest.java:32-62 | generators with different valid machine ids issue disjoint sets of identifiers, whatever their seeds and clock readings |

## Left out

- The clock, `getNewstmp` (`System.currentTimeMillis() / 1000`), is not modelled; `NextId` takes the reading as its parameter `currStmp`.
- The `SecureRandom` seed of `sequence` is not modelled; the constructors take it as the parameter `seed`, which may be any `long`.
- The enumeration of network interfaces in `createMachineIdentifier` is not modelled. This covers the MAC reads, the `String.hashCode` of the interfaces' descriptions and the `SecureRandom` fallback, which are all host I/O or library calls. `CreateMachineIdentifier` and `NewDefault` take the resulting `int` as `machinePiece` and model only the final mask.
- `synchronized` on `nextId` and all multi-threaded use are left out. The model treats the calls as a sequence, which is what the lock provides.
- `useTimeTest`, `baseTest` and `main` are left out: they only benchmark and print.
- Java's throw is modelled as the `Failure` case of a `Result` returned by `New`, because Dafny constructors cannot fail. The field assignments after the check are the constructor `Init`.
- Decoding an identifier into its fields is not in the source. `MachineOf`, `SequenceOf` and `TimestampOf` are the decoders against which the round-trip lemmas are stated.
