/**
 * The dxyflake generator: a Snowflake-style 64-bit identifier laid out as
 *
 *   | 1 bit unused | 41 bit time | 5 bit machine ID | 5 bit service ID | 12 bit sequence |
 *
 * where time counts 10 ms ticks since a configurable start instant.
 * Go's fixed-width integers are modelled as ranges of `int` (int64, uint16)
 * and the 64 bits of an ID as the unsigned number they spell (Word); `|`
 * and `&` are the bitwise operations of module Bits.
 */
module Dxyflake {
  import opened Bits

  const MinInt64: int := -0x8000_0000_0000_0000
  const MaxInt64: int := 0x7FFF_FFFF_FFFF_FFFF

  type int64 = x: int | MinInt64 <= x <= MaxInt64
  type uint16 = x: int | 0 <= x < 0x1_0000

  /** The 64 bits of an ID, read as an unsigned number. */
  type Word = x: int | 0 <= x < 0x1_0000_0000_0000_0000

  datatype Option<T> = None | Some(value: T)

  datatype Error = OverTimeLimit

  datatype Result<T> = Success(value: T) | Failure(error: Error)

  // ---------------------------------------------------------------------
  // Bit layout

  const BitLenTime: nat := 41
  const BitLenMachineID: nat := 5
  const BitLenServiceID: nat := 5
  const BitLenSequence: nat := 12

  /** 1 << BitLenTime: the first tick count that no longer fits. */
  const TimeLimit: int := 0x200_0000_0000
  /** 1 << BitLenSequence - 1: the largest sequence number, also the sentinel after construction. */
  const MaxSequence: int := 0xFFF
  /** Multipliers of `<< (BitLenMachineID + BitLenServiceID + BitLenSequence)`, `<< (BitLenServiceID + BitLenSequence)`, `<< BitLenSequence`. */
  const TimeUnitOfId: int := 0x40_0000
  const MachineUnitOfId: int := 0x2_0000
  const ServiceUnitOfId: int := 0x1000
  /** The masks of Decompose. */
  const MaskMachineID: int := 0x3E_0000
  const MaskServiceID: int := 0x1_F000
  const MaskSequence: int := 0xFFF

  const TwoTo63: int := 0x8000_0000_0000_0000
  const TwoTo64: int := 0x1_0000_0000_0000_0000

  /** The literal constants above are the ones the bit lengths define. */
  lemma LayoutConstants()
    ensures TimeLimit == Pow2(BitLenTime)
    ensures MaxSequence == Pow2(BitLenSequence) - 1 && MaskSequence == MaxSequence
    ensures TimeUnitOfId == Pow2(BitLenMachineID + BitLenServiceID + BitLenSequence)
    ensures MachineUnitOfId == Pow2(BitLenServiceID + BitLenSequence)
    ensures ServiceUnitOfId == Pow2(BitLenSequence)
    ensures MaskMachineID == (Pow2(BitLenMachineID) - 1) * MachineUnitOfId
    ensures MaskServiceID == (Pow2(BitLenServiceID) - 1) * ServiceUnitOfId
    ensures BitLenTime + BitLenMachineID + BitLenServiceID + BitLenSequence == 63
  {
    Pow2Values();
  }

  /** The two's-complement bits of an int64, read as an unsigned number. */
  function Pattern(x: int64): (w: Word)
    ensures w % TwoTo64 == x % TwoTo64
    ensures x >= 0 ==> w == x
  {
    if x >= 0 then x else x + TwoTo64
  }

  /** The int64 whose two's-complement bits are w (Go's `int64(id)`). */
  function Signed(w: Word): (x: int64)
    ensures Pattern(x) == w
    ensures w < TwoTo63 <==> x >= 0
  {
    if w < TwoTo63 then w else w - TwoTo64
  }

  /** Go's int64 arithmetic wraps around modulo 2^64. */
  function Wrap64(x: int): (r: int64)
    ensures MinInt64 <= x <= MaxInt64 ==> r == x
    ensures (x - r) % TwoTo64 == 0
  {
    (x + TwoTo63) % TwoTo64 - TwoTo63
  }

  /**
   * toID: `elapsedTime<<22 | machineID<<17 | serviceID<<12 | sequence` on
   * int64, refused once the time no longer fits in 41 bits. The machine
   * and service IDs are not masked: values of 32 and above spill into the
   * neighbouring fields.
   */
  function ToID(elapsedTime: int64, machineID: uint16, serviceID: uint16, sequence: uint16): (r: Result<Word>)
    ensures r.Failure? <==> elapsedTime >= TimeLimit
    ensures r.Success? && elapsedTime >= 0 ==> r.value < TwoTo63
  {
    if elapsedTime >= TimeLimit then Failure(OverTimeLimit)
    else
      var t := (Pattern(elapsedTime) * TimeUnitOfId) % TwoTo64;
      PackBound(t, machineID, serviceID, sequence, elapsedTime >= 0);
      Success(Or(Or(Or(t, machineID * MachineUnitOfId), serviceID * ServiceUnitOfId), sequence))
  }

  lemma PackBound(t: nat, m: uint16, s: uint16, q: uint16, small: bool)
    requires t < TwoTo64
    requires small ==> t < TwoTo63
    ensures Or(Or(Or(t, m * MachineUnitOfId), s * ServiceUnitOfId), q) < TwoTo64
    ensures small ==> Or(Or(Or(t, m * MachineUnitOfId), s * ServiceUnitOfId), q) < TwoTo63
  {
    Pow2Values();
    var n := if small then 63 else 64;
    var a := Or(t, m * MachineUnitOfId);
    OrBound(t, m * MachineUnitOfId, n);
    var b := Or(a, s * ServiceUnitOfId);
    OrBound(a, s * ServiceUnitOfId, n);
    OrBound(b, q, n);
  }

  /** Decompose's result, one field per key of the Go map. */
  datatype Parts = Parts(id: int64, msb: int64, time: int64, machineId: int64, serviceId: int64, sequence: int64)

  /**
   * Decompose: `int64(id) >> 63`, `int64(id) >> 22` and the three masked
   * fields. Go's `>>` on int64 is an arithmetic shift, which is floor
   * division by a power of two; Dafny's `/` with a positive divisor floors.
   */
  function Decompose(id: Word): (p: Parts)
    ensures p.id == Signed(id)
    ensures p.msb == if id < TwoTo63 then 0 else -1
    ensures p.time * TimeUnitOfId <= p.id < p.time * TimeUnitOfId + TimeUnitOfId
    ensures p.machineId == (id / MachineUnitOfId) % 32
    ensures p.serviceId == (id / ServiceUnitOfId) % 32
    ensures p.sequence == id % 0x1000
  {
    var v := Signed(id);
    FieldMasks(id);
    Parts(v, v / TwoTo63, v / TimeUnitOfId,
      And(id, MaskMachineID) / MachineUnitOfId,
      And(id, MaskServiceID) / ServiceUnitOfId,
      And(id, MaskSequence))
  }

  lemma FieldMasks(id: Word)
    ensures And(id, MaskMachineID) / MachineUnitOfId == (id / MachineUnitOfId) % 32
    ensures And(id, MaskServiceID) / ServiceUnitOfId == (id / ServiceUnitOfId) % 32
    ensures And(id, MaskSequence) == id % 0x1000
  {
    Pow2Values();
    FieldMask(id, 5, 17, 32, MachineUnitOfId, MaskMachineID);
    FieldMask(id, 5, 12, 32, ServiceUnitOfId, MaskServiceID);
    AndLowMask(id, 12, 0x1000);
  }

  // ---------------------------------------------------------------------
  // Ticks

  /** dxyflakeTimeUnit: nanoseconds per tick (10 ms). */
  const TimeUnit: int := 10_000_000

  /** 2021-10-01 00:00:00 UTC in nanoseconds since the Unix epoch: the default start time. */
  const DefaultStartTime: int := 1_633_046_400_000_000_000

  /** toDxyflakeTime: nanoseconds to ticks, Go's int64 division truncating toward zero. */
  function ToDxyflakeTime(unixNano: int64): (r: int64)
    ensures unixNano >= 0 ==> r >= 0 && r * TimeUnit <= unixNano < r * TimeUnit + TimeUnit
    ensures unixNano < 0 ==> r <= 0 && r * TimeUnit - TimeUnit < unixNano <= r * TimeUnit
  {
    var n: int := unixNano;
    if n >= 0 then n / TimeUnit else -((-n) / TimeUnit)
  }

  /** currentElapsedTime: ticks from the start time to the instant `nowNano` (int64 subtraction). */
  function CurrentElapsedTime(startTime: int64, nowNano: int64): (r: int64)
    ensures MinInt64 <= ToDxyflakeTime(nowNano) - startTime <= MaxInt64 ==>
              r == ToDxyflakeTime(nowNano) - startTime
  {
    Wrap64(ToDxyflakeTime(nowNano) - startTime)
  }

  // ---------------------------------------------------------------------
  // The generator's step

  /** The generator's mutable state: last tick used and the sequence number within it. */
  datatype Stamp = Stamp(elapsedTime: int64, sequence: uint16)

  /** Lexicographic order on stamps: the order in which NextID issues them. */
  predicate Precedes(a: Stamp, b: Stamp) {
    a.elapsedTime < b.elapsedTime || (a.elapsedTime == b.elapsedTime && a.sequence < b.sequence)
  }

  /**
   * NextID's update of the state for the tick `current`: a later tick
   * restarts the sequence at 0; otherwise the uint16 sequence is incremented
   * and masked to 12 bits, and on wrap-around the elapsed time moves one
   * tick ahead of the clock.
   */
  function Advance(s: Stamp, current: int64): (r: Stamp)
    ensures r.sequence <= MaxSequence
  {
    if s.elapsedTime < current then Stamp(current, 0)
    else
      var q := And((s.sequence + 1) % 0x1_0000, MaskSequence);
      AndUpper((s.sequence + 1) % 0x1_0000, MaskSequence);
      if q == 0 then Stamp(Wrap64(s.elapsedTime + 1), q) else Stamp(s.elapsedTime, q)
  }

  // ---------------------------------------------------------------------
  // Construction

  /**
   * An ID provider (Settings.MachineID, Settings.ServiceID): nil, or a
   * function called once that returns an ID and possibly an error.
   */
  datatype Provider = Absent | Yields(id: uint16, failed: bool)

  /** Settings; a start time of None is Go's zero time.Time, other instants are nanoseconds since the Unix epoch. */
  datatype Settings = Settings(
    startTime: Option<int64>,
    machineID: Provider,
    serviceID: Provider,
    checkMachineID: Option<uint16 -> bool>,
    checkServiceID: Option<uint16 -> bool>)

  /** What survives construction: the start tick and the two IDs. */
  datatype Config = Config(startTime: int64, machineID: uint16, serviceID: uint16)

  /** Settings.Init: both providers return the given IDs without error. */
  function Init(st: Settings, mID: uint16, sID: uint16): (r: Settings)
    ensures r.startTime == st.startTime
    ensures r.checkMachineID == st.checkMachineID && r.checkServiceID == st.checkServiceID
    ensures r.machineID == Yields(mID, false) && r.serviceID == Yields(sID, false)
  {
    st.(machineID := Yields(mID, false), serviceID := Yields(sID, false))
  }

  /**
   * The error NewDxyflake tests after both provider calls: each call that
   * happens assigns `err`, so the service provider's result overwrites the
   * machine provider's.
   */
  function ProviderError(st: Settings): (r: bool)
    ensures st.serviceID.Yields? ==> (r <==> st.serviceID.failed)
    ensures st.serviceID.Absent? ==> (r <==> st.machineID.Yields? && st.machineID.failed)
    ensures r ==> (st.machineID.Yields? && st.machineID.failed) || (st.serviceID.Yields? && st.serviceID.failed)
  {
    var afterMachine := if st.machineID.Yields? then st.machineID.failed else false;
    if st.serviceID.Yields? then st.serviceID.failed else afterMachine
  }

  /** The machine ID NewDxyflake records. */
  function MachineIdOf(st: Settings): (r: uint16)
    ensures st.machineID.Absent? ==> r == 0
    ensures st.machineID.Yields? ==> r == st.machineID.id
  {
    if st.machineID.Yields? then st.machineID.id else 0
  }

  /** The service ID NewDxyflake records. */
  function ServiceIdOf(st: Settings): (r: uint16)
    ensures st.serviceID.Absent? ==> r == 0
    ensures st.serviceID.Yields? ==> r == st.serviceID.id
  {
    if st.serviceID.Yields? then st.serviceID.id else 0
  }

  /**
   * The outcome of NewDxyflake(st) at wall-clock instant `now`: None where
   * Go returns nil. A configuration it accepts starts no later than now,
   * saw no provider error, and passed both checks.
   */
  function Configure(st: Settings, now: int64): (r: Option<Config>)
    ensures st.startTime.Some? && st.startTime.value > now ==> r.None?
    ensures r.Some? ==> !ProviderError(st)
    ensures r.Some? ==> r.value.machineID == MachineIdOf(st) && r.value.serviceID == ServiceIdOf(st)
    ensures r.Some? && st.checkMachineID.Some? ==> st.checkMachineID.value(r.value.machineID)
    ensures r.Some? && st.checkServiceID.Some? ==> st.checkServiceID.value(r.value.serviceID)
  {
    if st.startTime.Some? && st.startTime.value > now then None
    else
      var start := if st.startTime.None? then ToDxyflakeTime(DefaultStartTime) else ToDxyflakeTime(st.startTime.value);
      var m, s := MachineIdOf(st), ServiceIdOf(st);
      if ProviderError(st)
         || (st.checkMachineID.Some? && !st.checkMachineID.value(m))
         || (st.checkServiceID.Some? && !st.checkServiceID.value(s))
      then None
      else Some(Config(start, m, s))
  }

  // ---------------------------------------------------------------------
  // The generator object

  class Generator {
    var startTime: int64
    var elapsedTime: int64
    var machineID: uint16
    var serviceID: uint16
    var sequence: uint16

    /** The sequence number always fits in its 12 bits. */
    ghost predicate Valid()
      reads this
    {
      sequence <= MaxSequence
    }

    /** The last stamp issued. */
    function Last(): (r: Stamp)
      reads this
    {
      Stamp(elapsedTime, sequence)
    }

    /** `new(dxyflake)` followed by the sentinel sequence of NewDxyflake. */
    constructor ()
      ensures Valid()
      ensures startTime == 0 && machineID == 0 && serviceID == 0
      ensures Last() == Stamp(0, MaxSequence)
    {
      startTime := 0;
      elapsedTime := 0;
      machineID := 0;
      serviceID := 0;
      sequence := MaxSequence;
    }

    /**
     * NextID with the wall clock read as `nowNano`. The state advances even
     * when the ID cannot be formed. The catch-up sleep after a wrap-around
     * does not change the state and is not modelled.
     */
    method NextID(nowNano: int64) returns (id: Result<Word>)
      requires Valid()
      modifies this`elapsedTime, this`sequence
      ensures Valid()
      ensures Last() == Advance(old(Last()), CurrentElapsedTime(startTime, nowNano))
      ensures id == ToID(elapsedTime, machineID, serviceID, sequence)
    {
      var current := CurrentElapsedTime(startTime, nowNano);
      if elapsedTime < current {
        elapsedTime := current;
        sequence := 0;
      } else {
        MaskedIncrement(sequence);
        sequence := And((sequence + 1) % 0x1_0000, MaskSequence);
        if sequence == 0 {
          elapsedTime := Wrap64(elapsedTime + 1);
        }
      }
      id := ToID(elapsedTime, machineID, serviceID, sequence);
    }
  }

  lemma MaskedIncrement(q: uint16)
    ensures And((q + 1) % 0x1_0000, MaskSequence) <= MaxSequence
  {
    AndUpper((q + 1) % 0x1_0000, MaskSequence);
  }

  /** NewDxyflake: nil exactly when Configure refuses; otherwise a fresh generator at the sentinel state. */
  method NewDxyflake(st: Settings, nowNano: int64) returns (df: Generator?)
    ensures df == null <==> Configure(st, nowNano).None?
    ensures df != null ==> fresh(df) && df.Valid() && df.Last() == Stamp(0, MaxSequence)
    ensures df != null ==> Configure(st, nowNano) == Some(Config(df.startTime, df.machineID, df.serviceID))
  {
    df := new Generator();

    if st.startTime.Some? && st.startTime.value > nowNano {
      return null;
    }
    if st.startTime.None? {
      df.startTime := ToDxyflakeTime(DefaultStartTime);
    } else {
      df.startTime := ToDxyflakeTime(st.startTime.value);
    }

    var err := false;
    match st.machineID {
      case Absent => df.machineID := 0;
      case Yields(id, failed) => df.machineID := id; err := failed;
    }
    match st.serviceID {
      case Absent => df.serviceID := 0;
      case Yields(id, failed) => df.serviceID := id; err := failed;
    }
    if err
       || (st.checkMachineID.Some? && !st.checkMachineID.value(df.machineID))
       || (st.checkServiceID.Some? && !st.checkServiceID.value(df.serviceID))
    {
      return null;
    }
  }
}
