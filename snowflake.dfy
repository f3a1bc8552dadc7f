/** The `JSnowFlake` identifier generator.

    An identifier is a Java `long` holding, from the high bits to the low
    ones, a 32-bit timestamp (whole seconds since `START_STMP`), a 22-bit
    rolling sequence number and a 10-bit machine id.  The generator keeps its
    machine id and the sequence in fields; each `nextId` call increments the
    sequence, masks it to 22 bits and composes the three fields.  The clock
    reading, the random seed of the sequence and the hash of the host's
    network interfaces are parameters here.

    The class's methods perform the Java expressions (`And`, `Or`,
    `ShiftLeftLong` of module `Bits`); they are specified by the arithmetic
    functions below (`NextSequence`, `ComposeId`, the field decoders), and
    lemmas prove each Java expression equal to its specification. */
module SnowFlake {
  import opened Bits

  /** 2018-01-01 00:00:00 at UTC+8, in seconds since the Unix epoch. */
  const START_STMP: Long := 1514736000

  const SEQUENCE_BIT: nat := 22
  const MACHINE_BIT: nat := 10

  const MAX_MACHINE_NUM: int := 0x3FF
  const MAX_SEQUENCE: int := 0x3F_FFFF

  const SEQUENCE_LEFT: nat := MACHINE_BIT
  const TIMESTMP_LEFT: nat := SEQUENCE_BIT + MACHINE_BIT

  /** The two maxima are derived in Java as `-1L ^ (-1L << MACHINE_BIT)` and
      `-1L ^ (-1L << SEQUENCE_BIT)`: the masks of the fields' low bits. */
  lemma MaximaAreLowMasks()
    ensures MAX_MACHINE_NUM == Xor(-1, ShiftLeftLong(-1, MACHINE_BIT))
    ensures MAX_SEQUENCE == Xor(-1, ShiftLeftLong(-1, SEQUENCE_BIT))
  {
    LowMaskFromShift(MACHINE_BIT);
    LowMaskFromShift(SEQUENCE_BIT);
    PowValues();
  }

  /** The powers of two of the layout. */
  lemma LayoutConstants()
    ensures MAX_MACHINE_NUM == Pow2(MACHINE_BIT) - 1
    ensures MAX_SEQUENCE == Pow2(SEQUENCE_BIT) - 1
    ensures Pow2(SEQUENCE_LEFT) == 0x400 && Pow2(TIMESTMP_LEFT) == 0x1_0000_0000
  {
    PowValues();
  }

  // ---------------------------------------------------------------------
  // The specification: the fields of an identifier, arithmetically.
  // ---------------------------------------------------------------------

  /** The machine ids the constructor accepts: it rejects exactly those
      with `machineId > MAX_MACHINE_NUM || machineId < 0`. */
  predicate ValidMachineId(machineId: int)
  {
    0 <= machineId <= MAX_MACHINE_NUM
  }

  /** The successor of a sequence value modulo 2^22. */
  function NextSequence(sequence: Long): Long
  {
    (sequence as int + 1) % (MAX_SEQUENCE + 1)
  }

  /** `currStmp - START_STMP`, computed in `long` arithmetic. */
  function Offset(currStmp: Long): Long
  {
    WrapLong(currStmp - START_STMP)
  }

  /** The identifier made of the clock reading, a sequence value and a
      machine id: the offset's low 32 bits (as a signed `int`) fill the high
      half, the sequence the next 22 bits, the machine id the low 10 bits. */
  function ComposeId(currStmp: Long, sequence: int, machineId: int): int
  {
    WrapInt(Offset(currStmp)) as int * 0x1_0000_0000 + sequence * (MAX_MACHINE_NUM + 1) + machineId
  }

  /** The machine field of an identifier. */
  function MachineOf(id: int): int
  {
    id % (MAX_MACHINE_NUM + 1)
  }

  /** The sequence field of an identifier. */
  function SequenceOf(id: int): int
  {
    (id / (MAX_MACHINE_NUM + 1)) % (MAX_SEQUENCE + 1)
  }

  /** The timestamp field of an identifier (signed, as Java's `>>` reads it). */
  function TimestampOf(id: int): int
  {
    id / 0x1_0000_0000
  }

  // ---------------------------------------------------------------------
  // The Java expressions and their specifications.
  // ---------------------------------------------------------------------

  /** `nextId`'s return expression,
      `(currStmp - START_STMP) << TIMESTMP_LEFT | sequence << SEQUENCE_LEFT | machineId`. */
  function ShiftOr(currStmp: Long, sequence: Long, machineId: Long): int
  {
    Or(Or(ShiftLeftLong(Offset(currStmp), TIMESTMP_LEFT), ShiftLeftLong(sequence, SEQUENCE_LEFT)), machineId)
  }

  /** `sequence++; sequence &= MAX_SEQUENCE;` computes the successor modulo
      2^22, also when `++` wraps past `Long.MAX_VALUE`. */
  lemma IncrementAndMask(sequence: Long)
    ensures And(WrapLong(sequence as int + 1), MAX_SEQUENCE) == NextSequence(sequence)
    ensures 0 <= NextSequence(sequence) <= MAX_SEQUENCE
  {
    LayoutConstants();
    AndLowMask(WrapLong(sequence as int + 1), SEQUENCE_BIT);
    ModCongruent(WrapLong(sequence as int + 1), sequence as int + 1, 0x40_0000, 0x400_0000_0000);
  }

  /** Shifting the offset left by 32 bits keeps its low 32 bits, read as a
      signed `int`, in the high half of the `long`. */
  lemma ShiftedOffset(offset: int)
    ensures WrapLong(offset * 0x1_0000_0000) == WrapInt(offset) * 0x1_0000_0000
  {
    var w: int := WrapInt(offset);
    var c := (offset - w) / 0x1_0000_0000;
    ModUnique(offset - w, 0x1_0000_0000, c, 0);
    ModUnique(offset * 0x1_0000_0000 - LONG_MIN, 0x1_0000_0000_0000_0000, c, w * 0x1_0000_0000 - LONG_MIN);
  }

  /** For a masked sequence and a valid machine id the two `|`s of
      `nextId` add disjoint bit fields, so the Java expression is the
      identifier `ComposeId` describes, and it is a `long`. */
  lemma ShiftOrComposes(currStmp: Long, sequence: Long, machineId: Long)
    requires 0 <= sequence <= MAX_SEQUENCE
    requires ValidMachineId(machineId)
    ensures ShiftOr(currStmp, sequence, machineId) == ComposeId(currStmp, sequence, machineId)
    ensures LONG_MIN <= ComposeId(currStmp, sequence, machineId) <= LONG_MAX
  {
    LayoutConstants();
    var offset: int := Offset(currStmp);
    var high := ShiftLeftLong(offset, TIMESTMP_LEFT);
    var middle := ShiftLeftLong(sequence, SEQUENCE_LEFT);
    assert middle == sequence * 0x400;
    ShiftedOffset(offset);
    var h: int := WrapInt(offset);
    assert high == h * 0x1_0000_0000;
    // the shifted offset has no bits below position 32, the shifted
    // sequence none below position 10
    ModUnique(high, 0x1_0000_0000, h, 0);
    OrDisjoint(high, middle, TIMESTMP_LEFT);
    ModUnique(high + middle, 0x400, h * 0x40_0000 + sequence, 0);
    OrDisjoint(high + middle, machineId, SEQUENCE_LEFT);
  }

  /** The decoders are the masks and shifts Java would use to take an
      identifier apart: `id & MAX_MACHINE_NUM`,
      `(id >> SEQUENCE_LEFT) & MAX_SEQUENCE` and `id >> TIMESTMP_LEFT`. */
  lemma DecodersAreJavaMasks(id: int)
    ensures MachineOf(id) == And(id, MAX_MACHINE_NUM)
    ensures SequenceOf(id) == And(ShiftRight(id, SEQUENCE_LEFT), MAX_SEQUENCE)
    ensures TimestampOf(id) == ShiftRight(id, TIMESTMP_LEFT)
  {
    LayoutConstants();
    AndLowMask(id, MACHINE_BIT);
    AndLowMask(ShiftRight(id, SEQUENCE_LEFT), SEQUENCE_BIT);
  }

  // ---------------------------------------------------------------------
  // Properties of the layout.
  // ---------------------------------------------------------------------

  /** Decoding an identifier gives back its three fields: the machine id,
      the sequence, and the offset truncated to the 32 bits of its field.
      For an offset in [0, 2^31) the identifier is non-negative and the
      timestamp field is the offset itself. */
  lemma DecodeComposeId(currStmp: Long, sequence: int, machineId: int)
    requires 0 <= sequence <= MAX_SEQUENCE
    requires ValidMachineId(machineId)
    ensures MachineOf(ComposeId(currStmp, sequence, machineId)) == machineId
    ensures SequenceOf(ComposeId(currStmp, sequence, machineId)) == sequence
    ensures TimestampOf(ComposeId(currStmp, sequence, machineId)) == WrapInt(Offset(currStmp))
    ensures 0 <= Offset(currStmp) < 0x8000_0000 ==>
              TimestampOf(ComposeId(currStmp, sequence, machineId)) == Offset(currStmp)
              && 0 <= ComposeId(currStmp, sequence, machineId)
  {
    var id := ComposeId(currStmp, sequence, machineId);
    var h: int := WrapInt(Offset(currStmp));
    ModUnique(id, 0x400, h * 0x40_0000 + sequence, machineId);
    ModUnique(id / 0x400, 0x40_0000, h, sequence);
    ModUnique(id, 0x1_0000_0000, h, sequence * 0x400 + machineId);
  }

  /** With offsets in [0, 2^31), an identifier made in a later second is
      larger than one made in an earlier second, whatever the sequence and
      machine fields hold. */
  lemma LaterSecondLargerId(t1: Long, s1: int, m1: int, t2: Long, s2: int, m2: int)
    requires 0 <= Offset(t1) < Offset(t2) < 0x8000_0000
    requires 0 <= s1 <= MAX_SEQUENCE && 0 <= s2 <= MAX_SEQUENCE
    requires ValidMachineId(m1) && ValidMachineId(m2)
    ensures ComposeId(t1, s1, m1) < ComposeId(t2, s2, m2)
  {
    assert WrapInt(Offset(t1)) == Offset(t1) && WrapInt(Offset(t2)) == Offset(t2);
  }

  /** The 32-bit timestamp field tells 2^32 seconds (about 136 years)
      apart: identifiers made in different seconds of that span differ,
      whatever their sequence and machine fields. */
  lemma DistinctSecondsDistinctIds(t1: Long, s1: int, m1: int, t2: Long, s2: int, m2: int)
    requires 0 <= Offset(t1) < Offset(t2) < 0x1_0000_0000
    requires 0 <= s1 <= MAX_SEQUENCE && 0 <= s2 <= MAX_SEQUENCE
    requires ValidMachineId(m1) && ValidMachineId(m2)
    ensures ComposeId(t1, s1, m1) != ComposeId(t2, s2, m2)
  {
    DecodeComposeId(t1, s1, m1);
    DecodeComposeId(t2, s2, m2);
    ModShiftDistinct(Offset(t1), Offset(t2) - Offset(t1), 0x1_0000_0000);
    ModCongruent(Offset(t1), WrapInt(Offset(t1)), 0x1_0000_0000, 1);
    ModCongruent(Offset(t2), WrapInt(Offset(t2)), 0x1_0000_0000, 1);
  }

  /** For offsets in [2^31, 2^32) (the years 2086 to 2154) the timestamp
      field reaches the sign bit of the `long`, and every identifier is
      negative: read as Java's signed `long`s, identifiers keep the order
      of their seconds only for the first 2^31 seconds. */
  lemma IdsNegativeFromOffset2To31(currStmp: Long, sequence: int, machineId: int)
    requires 0x8000_0000 <= Offset(currStmp) < 0x1_0000_0000
    requires 0 <= sequence <= MAX_SEQUENCE
    requires ValidMachineId(machineId)
    ensures ComposeId(currStmp, sequence, machineId) < 0
  {
    ModUnique(Offset(currStmp) - INT_MIN, 0x1_0000_0000, 1, Offset(currStmp) - 0x1_0000_0000 - INT_MIN);
  }

  /** Generators with different machine ids never produce the same
      identifier, whatever their clocks and sequences. */
  lemma DistinctMachinesDistinctIds(t1: Long, s1: int, m1: int, t2: Long, s2: int, m2: int)
    requires 0 <= s1 <= MAX_SEQUENCE && 0 <= s2 <= MAX_SEQUENCE
    requires ValidMachineId(m1) && ValidMachineId(m2)
    requires m1 != m2
    ensures ComposeId(t1, s1, m1) != ComposeId(t2, s2, m2)
  {
    DecodeComposeId(t1, s1, m1);
    DecodeComposeId(t2, s2, m2);
  }

  // ---------------------------------------------------------------------
  // The generator object.
  // ---------------------------------------------------------------------

  datatype Error = IllegalArgumentException(message: string)

  datatype Result<T> = Success(value: T) | Failure(error: Error)

  const MACHINE_ID_MESSAGE: string := "machineId can't be greater than MAX_MACHINE_NUM or less than 0"

  /** The last step of `createMachineIdentifier`,
      `machinePiece & (int)MAX_MACHINE_NUM`: keeps the low ten bits of the
      piece, so the result is always a valid machine id, and a piece that is
      one already is kept as it is.  The piece (a hash of the network
      interfaces, or a random `int`) is a parameter. */
  function CreateMachineIdentifier(machinePiece: Int): (r: Int)
    ensures ValidMachineId(r)
    ensures r == machinePiece % (MAX_MACHINE_NUM + 1)
    ensures ValidMachineId(machinePiece) ==> r == machinePiece
  {
    LayoutConstants();
    AndLowMask(machinePiece, MACHINE_BIT);
    And(machinePiece, WrapInt(MAX_MACHINE_NUM))
  }

  class JSnowFlake {
    var machineId: Long
    var sequence: Long

    // The history of the object: the value `sequence` started from and the
    // clock readings of the `nextId` calls made so far.
    ghost var seed: Long
    ghost var stamps: seq<Long>

    /** The machine id passed the constructor's check, and `sequence` is
        where the calls so far have moved it from the seed. */
    ghost predicate Valid()
      reads this
    {
      ValidMachineId(machineId) && sequence == SequenceAfter(seed, |stamps|)
    }

    /** The identifiers returned so far, in call order. */
    ghost function Issued(): seq<int>
      reads this
    {
      IdsFor(machineId, seed, stamps)
    }

    /** The field assignments of the constructor; `seed` is the random
        `long` the `sequence` field starts from. */
    constructor Init(machineId: Long, seed: Long)
      requires ValidMachineId(machineId)
      ensures Valid() && Issued() == []
      ensures this.machineId == machineId && sequence == seed
      ensures this.seed == seed && stamps == []
    {
      this.machineId := machineId;
      sequence := seed;
      this.seed := seed;
      stamps := [];
    }

    /** `new JSnowFlake(machineId)`: throws `IllegalArgumentException`
        exactly when the machine id lies outside [0, 1023]. */
    static method New(machineId: Long, seed: Long) returns (r: Result<JSnowFlake>)
      ensures r.Success? <==> 0 <= machineId <= 1023
      ensures r.Success? ==> fresh(r.value) && r.value.Valid()
                             && r.value.machineId == machineId && r.value.sequence == seed
                             && r.value.seed == seed && r.value.Issued() == []
      ensures r.Failure? ==> r.error == IllegalArgumentException(MACHINE_ID_MESSAGE)
    {
      if machineId > MAX_MACHINE_NUM || machineId < 0 {
        return Failure(IllegalArgumentException(MACHINE_ID_MESSAGE));
      }
      var g := new JSnowFlake.Init(machineId, seed);
      return Success(g);
    }

    /** `new JSnowFlake()`: the machine id comes from
        `createMachineIdentifier()`, whose mask keeps it in range, so this
        constructor never throws. */
    static method NewDefault(machinePiece: Int, seed: Long) returns (g: JSnowFlake)
      ensures fresh(g) && g.Valid()
      ensures g.machineId == machinePiece % (MAX_MACHINE_NUM + 1) && g.sequence == seed
      ensures g.seed == seed && g.Issued() == []
    {
      var machineId: Int := CreateMachineIdentifier(machinePiece);
      var r := New(machineId, seed);
      g := r.value;
    }

    /** `nextId()` with the clock reading `currStmp` (seconds since the Unix
        epoch): advances the sequence modulo 2^22 and returns the identifier
        of the clock reading, the new sequence and the unchanged machine id,
        appending it to the identifiers issued so far. */
    method NextId(currStmp: Long) returns (id: Long)
      requires Valid()
      modifies this
      ensures Valid() && machineId == old(machineId) && seed == old(seed)
      ensures sequence == NextSequence(old(sequence))
      ensures 0 <= sequence <= MAX_SEQUENCE
      ensures id == ComposeId(currStmp, sequence, machineId)
      ensures MachineOf(id) == machineId && SequenceOf(id) == sequence
      ensures TimestampOf(id) == WrapInt(Offset(currStmp))
      ensures stamps == old(stamps) + [currStmp]
      ensures Issued() == old(Issued()) + [id]
    {
      IncrementAndMask(sequence);
      sequence := WrapLong(sequence as int + 1);
      sequence := And(sequence, MAX_SEQUENCE);
      ShiftOrComposes(currStmp, sequence, machineId);
      DecodeComposeId(currStmp, sequence, machineId);
      id := ShiftOr(currStmp, sequence, machineId);
      IdsForAppend(machineId, seed, stamps, currStmp);
      stamps := stamps + [currStmp];
    }
  }

  // ---------------------------------------------------------------------
  // Successive calls.  `NextId` sets `sequence` to `NextSequence` of its
  // old value and returns `ComposeId` of the clock reading, the new
  // sequence and the unchanged machine id; the functions below compose
  // those postconditions over a run of calls on one generator.
  // ---------------------------------------------------------------------

  /** The value of `sequence` after `k` calls of `nextId` on a generator
      whose sequence started at `seed`. */
  function SequenceAfter(seed: Long, k: nat): Long
  {
    if k == 0 then seed else NextSequence(SequenceAfter(seed, k - 1))
  }

  /** The identifiers that successive `nextId` calls return on a generator
      with machine id `machineId` whose sequence started at `seed`, the
      clock reading `stamps[i]` at the i-th call. */
  function IdsFor(machineId: Long, seed: Long, stamps: seq<Long>): (ids: seq<int>)
    ensures |ids| == |stamps|
  {
    seq(|stamps|, i requires 0 <= i < |stamps| => ComposeId(stamps[i], SequenceAfter(seed, i + 1), machineId))
  }

  /** One more call appends one identifier. */
  lemma IdsForAppend(machineId: Long, seed: Long, stamps: seq<Long>, currStmp: Long)
    ensures IdsFor(machineId, seed, stamps + [currStmp])
            == IdsFor(machineId, seed, stamps) + [ComposeId(currStmp, SequenceAfter(seed, |stamps| + 1), machineId)]
  {
    var stamps' := stamps + [currStmp];
    assert forall i :: 0 <= i < |stamps| ==> stamps'[i] == stamps[i];
  }

  /** The sequence never resets: after `k` calls it is the seed plus `k`,
      modulo 2^22, whatever the clock did in between. */
  lemma {:induction false} SequenceAfterCalls(seed: Long, k: nat)
    requires k >= 1
    ensures SequenceAfter(seed, k) == (seed as int + k) % 0x40_0000
  {
    if k > 1 {
      SequenceAfterCalls(seed, k - 1);
      var a := seed as int + (k - 1);
      ModUnique(a % 0x40_0000 - a, 0x40_0000, -(a / 0x40_0000), 0);
      ModCongruent(a % 0x40_0000 + 1, a + 1, 0x40_0000, 1);
    }
  }

  /** Calls of one generator fewer than 2^22 calls apart return distinct
      identifiers, whatever the clock reads, also when it goes backwards:
      their sequence fields differ.  So any 2^22 successive calls return
      pairwise distinct identifiers. */
  lemma WindowIdsDistinct(machineId: Long, seed: Long, stamps: seq<Long>)
    requires ValidMachineId(machineId)
    ensures forall i, j :: 0 <= i < j < |stamps| && j - i < 0x40_0000 ==>
              IdsFor(machineId, seed, stamps)[i] != IdsFor(machineId, seed, stamps)[j]
  {
    var ids := IdsFor(machineId, seed, stamps);
    forall i, j | 0 <= i < j < |stamps| && j - i < 0x40_0000
      ensures ids[i] != ids[j]
    {
      SequenceAfterCalls(seed, i + 1);
      SequenceAfterCalls(seed, j + 1);
      ModShiftDistinct(seed as int + i + 1, j - i, 0x40_0000);
      DecodeComposeId(stamps[i], SequenceAfter(seed, i + 1), machineId);
      DecodeComposeId(stamps[j], SequenceAfter(seed, j + 1), machineId);
    }
  }

  /** The window is exact: two calls 2^22 apart that read the same second,
      modulo 2^32 seconds, return the same identifier, since the sequence
      is not reset per second and nothing waits for the clock to advance. */
  lemma SameSecondRepeatsAfterWindow(machineId: Long, seed: Long, stamps: seq<Long>, i: nat)
    requires i + 0x40_0000 < |stamps|
    requires WrapInt(Offset(stamps[i])) == WrapInt(Offset(stamps[i + 0x40_0000]))
    ensures IdsFor(machineId, seed, stamps)[i] == IdsFor(machineId, seed, stamps)[i + 0x40_0000]
  {
    SequenceAfterCalls(seed, i + 1);
    SequenceAfterCalls(seed, i + 1 + 0x40_0000);
    var a := seed as int + i + 1;
    ModUnique(a + 0x40_0000, 0x40_0000, a / 0x40_0000 + 1, a % 0x40_0000);
  }

  /** Identifiers of one generator are not increasing within a second:
      when the rolling sequence wraps from MAX_SEQUENCE to 0 the next
      identifier is smaller. */
  lemma SameSecondIdsCanDecrease()
    ensures IdsFor(0, MAX_SEQUENCE - 1, [START_STMP, START_STMP])[1]
            < IdsFor(0, MAX_SEQUENCE - 1, [START_STMP, START_STMP])[0]
  {
    var ids := IdsFor(0, MAX_SEQUENCE - 1, [START_STMP, START_STMP]);
    assert SequenceAfter(MAX_SEQUENCE - 1, 1) == MAX_SEQUENCE;
    assert SequenceAfter(MAX_SEQUENCE - 1, 2) == 0;
  }

  /** Every wrap of the sequence within one second makes the identifier
      drop: when call `i` leaves the sequence at MAX_SEQUENCE and call
      `i + 1` reads the same second, call `i + 1` returns a smaller
      identifier. */
  lemma WrapInSameSecondDecreases(machineId: Long, seed: Long, stamps: seq<Long>, i: nat)
    requires ValidMachineId(machineId)
    requires i + 1 < |stamps| && stamps[i] == stamps[i + 1]
    requires SequenceAfter(seed, i + 1) == MAX_SEQUENCE
    ensures IdsFor(machineId, seed, stamps)[i + 1] < IdsFor(machineId, seed, stamps)[i]
  {
    assert SequenceAfter(seed, i + 2) == 0;
  }

  /** Two calls of one generator return the same identifier only when they
      are a multiple of 2^22 calls apart and read the same second, modulo
      2^32 seconds.  So a run of more than 2^22 successive identifiers is
      repetition-free exactly when no two calls 2^22 apart (or a multiple of
      it) fall in the same second: a matter of timing, not of the
      generator. */
  lemma RepeatsNeedWindowAndSameSecond(machineId: Long, seed: Long, stamps: seq<Long>, i: nat, j: nat)
    requires ValidMachineId(machineId)
    requires i < j < |stamps|
    requires IdsFor(machineId, seed, stamps)[i] == IdsFor(machineId, seed, stamps)[j]
    ensures (j - i) % 0x40_0000 == 0
    ensures WrapInt(Offset(stamps[i])) == WrapInt(Offset(stamps[j]))
  {
    SequenceAfterCalls(seed, i + 1);
    SequenceAfterCalls(seed, j + 1);
    DecodeComposeId(stamps[i], SequenceAfter(seed, i + 1), machineId);
    DecodeComposeId(stamps[j], SequenceAfter(seed, j + 1), machineId);
    var a, d, k := seed as int + i + 1, (j - i) % 0x40_0000, (j - i) / 0x40_0000;
    assert seed as int + j + 1 == 0x40_0000 * ((a + d) / 0x40_0000 + k) + (a + d) % 0x40_0000;
    ModUnique(seed as int + j + 1, 0x40_0000, (a + d) / 0x40_0000 + k, (a + d) % 0x40_0000);
    if d != 0 {
      ModShiftDistinct(a, d, 0x40_0000);
      assert false;
    }
  }

  /** Generators with different machine ids return disjoint sets of
      identifiers, whatever their seeds and clock readings. */
  lemma DistinctMachinesDisjointIds(m1: Long, seed1: Long, stamps1: seq<Long>,
                                    m2: Long, seed2: Long, stamps2: seq<Long>)
    requires ValidMachineId(m1) && ValidMachineId(m2) && m1 != m2
    ensures forall i, j :: 0 <= i < |stamps1| && 0 <= j < |stamps2| ==>
              IdsFor(m1, seed1, stamps1)[i] != IdsFor(m2, seed2, stamps2)[j]
  {
    var ids1, ids2 := IdsFor(m1, seed1, stamps1), IdsFor(m2, seed2, stamps2);
    forall i, j | 0 <= i < |stamps1| && 0 <= j < |stamps2|
      ensures ids1[i] != ids2[j]
    {
      SequenceAfterCalls(seed1, i + 1);
      SequenceAfterCalls(seed2, j + 1);
      DistinctMachinesDistinctIds(stamps1[i], SequenceAfter(seed1, i + 1), m1,
                                  stamps2[j], SequenceAfter(seed2, j + 1), m2);
    }
  }
}
