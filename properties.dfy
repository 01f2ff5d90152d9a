/**
 * What the dxyflake layout and generator promise: the encoding is lossless
 * in both directions, each NextID step moves the stamp strictly forward,
 * the IDs of a run of calls strictly increase, and construction refuses
 * exactly the documented configurations.
 */
module DxyflakeProperties {
  import opened Bits
  import opened Dxyflake

  // ---------------------------------------------------------------------
  // Encoding and decoding

  /** The value of an ID whose fields fit: the plain positional sum. */
  function Packed(t: int, m: int, s: int, q: int): (r: int) {
    t * TimeUnitOfId + m * MachineUnitOfId + s * ServiceUnitOfId + q
  }

  /** With fields inside their widths, toID's OR of shifted fields is their positional sum. */
  lemma ToIDPacks(t: int64, m: uint16, s: uint16, q: uint16)
    requires 0 <= t < TimeLimit && m < 32 && s < 32 && q <= MaxSequence
    ensures ToID(t, m, s, q) == Success(Packed(t, m, s, q))
    ensures Packed(t, m, s, q) < TwoTo63
  {
    LayoutConstants();
    var ms: nat := m * MachineUnitOfId;
    var ss: nat := s * ServiceUnitOfId;
    var ts: nat := t * TimeUnitOfId;
    ToIDUnfold(t, m, s, q, ts);
    var hi1: nat := t * 32 + m;
    var hi2: nat := hi1 * 32 + s;
    Regroup(t, m, s, q, hi1, hi2);
    DisjointField(t, ms, 22, TimeUnitOfId);
    var o1 := Or(ts, ms);
    assert o1 == hi1 * MachineUnitOfId;
    DisjointField(hi1, ss, 17, MachineUnitOfId);
    var o2 := Or(o1, ss);
    assert o2 == hi2 * ServiceUnitOfId;
    DisjointField(hi2, q, 12, ServiceUnitOfId);
    assert Or(o2, q) == Packed(t, m, s, q);
  }

  /** The positional sum, regrouped one field at a time. */
  lemma Regroup(t: nat, m: nat, s: nat, q: nat, hi1: nat, hi2: nat)
    requires t < TimeLimit && m < 32 && s < 32 && q <= MaxSequence
    requires hi1 == t * 32 + m && hi2 == hi1 * 32 + s
    ensures t * TimeUnitOfId + m * MachineUnitOfId == hi1 * MachineUnitOfId
    ensures hi1 * MachineUnitOfId + s * ServiceUnitOfId == hi2 * ServiceUnitOfId
    ensures hi2 * ServiceUnitOfId + q == Packed(t, m, s, q) < TwoTo63
    ensures m * MachineUnitOfId < TimeUnitOfId && s * ServiceUnitOfId < MachineUnitOfId
  {
  }

  /** toID of a non-negative time: the shift by 22 does not wrap. */
  lemma ToIDUnfold(t: int64, m: uint16, s: uint16, q: uint16, ts: nat)
    requires 0 <= t < TimeLimit && ts == t * TimeUnitOfId
    ensures ToID(t, m, s, q) == Success(Or(Or(Or(ts, m * MachineUnitOfId), s * ServiceUnitOfId), q))
  {
    assert (Pattern(t) * TimeUnitOfId) % TwoTo64 == ts;
  }

  /** OrDisjoint with the power of two passed in, so that no literal is unfolded. */
  lemma DisjointField(hi: nat, lo: nat, k: nat, p: nat)
    requires p == Pow2(k) && lo < p
    ensures Or(hi * p, lo) == hi * p + lo
  {
    OrDisjoint(hi, lo, k);
  }

  /** Round trip: decomposing an encoded ID gives back every field, with msb 0. */
  lemma RoundTrip(t: int64, m: uint16, s: uint16, q: uint16)
    requires 0 <= t < TimeLimit && m < 32 && s < 32 && q <= MaxSequence
    ensures ToID(t, m, s, q).Success?
    ensures Decompose(ToID(t, m, s, q).value) == Parts(Packed(t, m, s, q), 0, t, m, s, q)
  {
    ToIDPacks(t, m, s, q);
    var v := Packed(t, m, s, q);
    var p := Decompose(v);
    DivModUnique(v, MachineUnitOfId, t * 32 + m, s * ServiceUnitOfId + q);
    DivModUnique(t * 32 + m, 32, t, m);
    DivModUnique(v, ServiceUnitOfId, (t * 32 + m) * 32 + s, q);
    DivModUnique((t * 32 + m) * 32 + s, 32, t * 32 + m, s);
    DivModUnique(v, 0x1000, (t * 32 + m) * 32 + s, q);
  }

  /** The other direction: every non-negative ID is the encoding of its own parts. */
  lemma DecomposeRecomposes(id: Word)
    requires id < TwoTo63
    ensures var p := Decompose(id);
      0 <= p.time < TimeLimit && 0 <= p.machineId < 32 && 0 <= p.serviceId < 32 && 0 <= p.sequence <= MaxSequence &&
      ToID(p.time, p.machineId, p.serviceId, p.sequence) == Success(id)
  {
    var p := Decompose(id);
    var a := id / 0x1000;
    var c := id / MachineUnitOfId;
    DivDiv(id, 0x1000, 32);
    DivDiv(id, MachineUnitOfId, 32);
    assert p.time == id / TimeUnitOfId by {
      DivModUnique(id, TimeUnitOfId, p.time, id - p.time * TimeUnitOfId);
    }
    assert id == a * 0x1000 + p.sequence;
    assert a == (a / 32) * 32 + p.serviceId;
    assert a / 32 == c;
    assert c == (c / 32) * 32 + p.machineId;
    assert c / 32 == p.time;
    assert id == Packed(p.time, p.machineId, p.serviceId, p.sequence);
    assert p.time < TimeLimit;
    ToIDPacks(p.time, p.machineId, p.serviceId, p.sequence);
  }

  /** Distinct in-range field tuples give distinct IDs. */
  lemma ToIDInjective(t1: int64, q1: uint16, t2: int64, q2: uint16, m: uint16, s: uint16)
    requires 0 <= t1 < TimeLimit && 0 <= t2 < TimeLimit && q1 <= MaxSequence && q2 <= MaxSequence
    requires m < 32 && s < 32
    requires ToID(t1, m, s, q1) == ToID(t2, m, s, q2)
    ensures t1 == t2 && q1 == q2
  {
    RoundTrip(t1, m, s, q1);
    RoundTrip(t2, m, s, q2);
  }

  /** Decompose(2^63 - 1): the largest ID has every field at its maximum and msb 0. */
  lemma DecomposeLargest()
    ensures Decompose(0x7FFF_FFFF_FFFF_FFFF) ==
      Parts(0x7FFF_FFFF_FFFF_FFFF, 0, 0x1FF_FFFF_FFFF, 31, 31, 4095)
  {
    RoundTrip(0x1FF_FFFF_FFFF, 31, 31, 4095);
  }

  /** The all-zero fields encode to 0, and 0 decomposes to all zeros. */
  lemma ZeroId()
    ensures ToID(0, 0, 0, 0) == Success(0)
    ensures Decompose(0) == Parts(0, 0, 0, 0, 0, 0)
  {
    RoundTrip(0, 0, 0, 0);
  }

  /** Decompose(475370495148032), an ID issued 113337158 ticks after the start. */
  lemma DecomposeSample()
    ensures Decompose(475370495148032) == Parts(475370495148032, 0, 113337158, 0, 0, 0)
  {
    RoundTrip(113337158, 0, 0, 0);
    assert Packed(113337158, 0, 0, 0) == 475370495148032;
  }

  /** Negative int64 IDs (bit 63 set) decompose with msb -1 and a negative time. */
  lemma DecomposeNegative(id: Word)
    requires id >= TwoTo63
    ensures Decompose(id).msb == -1 && Decompose(id).time < 0 && Decompose(id).id < 0
  {
  }

  // ---------------------------------------------------------------------
  // One NextID step

  /** `(sequence + 1) & maskSequence` on uint16 is the increment modulo 4096. */
  lemma MaskedSuccessor(q: uint16)
    ensures And((q + 1) % 0x1_0000, MaskSequence) == (q + 1) % 4096
  {
    var x: nat := (q + 1) % 0x1_0000;
    MaskLow12(x);
    if q + 1 < 0x1_0000 {
      assert x == q + 1;
    } else {
      assert x == 0 && q + 1 == 16 * 4096;
    }
  }

  /** AND with maskSequence keeps the low 12 bits. */
  lemma MaskLow12(x: nat)
    ensures And(x, MaskSequence) == x % 4096
  {
    LayoutConstants();
    AndLowMask(x, BitLenSequence, ServiceUnitOfId);
  }

  /** The two branches of NextID, with the masked uint16 increment read as an increment modulo 4096. */
  lemma AdvanceBranches(s: Stamp, current: int64)
    ensures s.elapsedTime < current ==> Advance(s, current) == Stamp(current, 0)
    ensures s.elapsedTime >= current ==>
      Advance(s, current).sequence == (s.sequence + 1) % 4096 &&
      Advance(s, current).elapsedTime ==
        if (s.sequence + 1) % 4096 == 0 then Wrap64(s.elapsedTime + 1) else s.elapsedTime
  {
    MaskedSuccessor(s.sequence);
  }

  /** Each step moves the stamp strictly forward and never moves time back (before int64 overflow). */
  lemma AdvanceIncreases(s: Stamp, current: int64)
    requires s.sequence <= MaxSequence && s.elapsedTime < MaxInt64
    ensures Precedes(s, Advance(s, current))
    ensures Advance(s, current).elapsedTime >= s.elapsedTime
    ensures Advance(s, current).elapsedTime <= if s.elapsedTime < current then current else s.elapsedTime + 1
  {
    AdvanceBranches(s, current);
  }

  /** After construction (time 0, sentinel 4095) the first call starts a fresh tick, at tick 1 if the clock reads 0 or less. */
  lemma FirstCallAfterConstruction(s: Stamp, current: int64)
    requires s.elapsedTime == 0 && s.sequence == MaxSequence
    ensures Advance(s, current) == if current >= 1 then Stamp(current, 0) else Stamp(1, 0)
  {
    AdvanceBranches(s, current);
    assert (s.sequence + 1) % 4096 == 0;
    assert Wrap64(s.elapsedTime + 1) == 1;
  }

  /** Once the time no longer fits, the next call fails too, while the time is below the int64 maximum. */
  lemma ExhaustionPersists(s: Stamp, current: int64, m: uint16, sid: uint16)
    requires s.sequence <= MaxSequence && TimeLimit <= s.elapsedTime < MaxInt64
    ensures Advance(s, current).elapsedTime >= TimeLimit
    ensures ToID(Advance(s, current).elapsedTime, m, sid, Advance(s, current).sequence) == Failure(OverTimeLimit)
  {
    AdvanceIncreases(s, current);
  }

  /**
   * At the int64 maximum a wrapped sequence makes Go's `elapsedTime++` wrap
   * to the int64 minimum, a negative time that passes toID's check.
   */
  lemma ExhaustionEndsAtWrap(s: Stamp, current: int64, m: uint16, sid: uint16)
    requires s.elapsedTime == MaxInt64 && s.sequence == MaxSequence
    ensures Advance(s, current) == Stamp(MinInt64, 0)
    ensures ToID(MinInt64, m, sid, 0).Success?
  {
    AdvanceBranches(s, current);
    assert (s.sequence + 1) % 4096 == 0;
    assert Wrap64(s.elapsedTime + 1) == MinInt64 by {
      assert (MaxInt64 + 1 + TwoTo63) % TwoTo64 == 0;
    }
    var r := ToID(MinInt64, m, sid, 0);
    assert r.Failure? <==> MinInt64 >= TimeLimit;
  }

  /** Ticks in 365 days. */
  const YearTicks: int := 365 * 24 * 3600 * 100

  /**
   * The 41-bit epoch lasts between 697 and 698 years: a call that moves to a
   * later tick issues an ID exactly when that tick is below 2^41.
   */
  lemma EpochLimit(s: Stamp, current: int64, m: uint16, sid: uint16)
    requires s.elapsedTime < current
    ensures 697 * YearTicks < TimeLimit <= 698 * YearTicks
    ensures ToID(Advance(s, current).elapsedTime, m, sid, Advance(s, current).sequence).Success? <==> current < TimeLimit
  {
  }

  // ---------------------------------------------------------------------
  // A run of NextID calls

  /** The stamps after successive NextID calls that see the ticks in `currents`. */
  function Run(s: Stamp, currents: seq<int64>): (r: seq<Stamp>)
    ensures |r| == |currents|
    ensures forall k :: 0 <= k < |r| ==> r[k].sequence <= MaxSequence
    decreases |currents|
  {
    if currents == [] then [] else
      var next := Advance(s, currents[0]);
      [next] + Run(next, currents[1..])
  }

  /** No stamp of the run can reach the int64 limit, where elapsedTime++ would wrap. */
  predicate NoWrap(s: Stamp, currents: seq<int64>) {
    s.elapsedTime + |currents| < MaxInt64 &&
    forall k :: 0 <= k < |currents| ==> currents[k] + |currents| < MaxInt64
  }

  lemma {:induction false} RunFollows(s: Stamp, currents: seq<int64>, j: nat)
    requires s.sequence <= MaxSequence && NoWrap(s, currents) && j < |currents|
    ensures Precedes(s, Run(s, currents)[j])
    ensures Run(s, currents)[j].elapsedTime >= s.elapsedTime
    decreases |currents|
  {
    var next := Advance(s, currents[0]);
    AdvanceIncreases(s, currents[0]);
    if j > 0 {
      assert NoWrap(next, currents[1..]) by {
        forall k | 0 <= k < |currents[1..]|
          ensures currents[1..][k] + |currents[1..]| < MaxInt64
        {
          assert currents[1..][k] == currents[k + 1];
        }
      }
      RunFollows(next, currents[1..], j - 1);
      assert Run(s, currents)[j] == Run(next, currents[1..])[j - 1];
    }
  }

  /** Later calls of a run issue strictly later stamps. */
  lemma {:induction false} RunIncreasing(s: Stamp, currents: seq<int64>, i: nat, j: nat)
    requires s.sequence <= MaxSequence && NoWrap(s, currents) && i < j < |currents|
    ensures Precedes(Run(s, currents)[i], Run(s, currents)[j])
    ensures Run(s, currents)[i].elapsedTime >= s.elapsedTime
    decreases |currents|
  {
    var next := Advance(s, currents[0]);
    AdvanceIncreases(s, currents[0]);
    assert NoWrap(next, currents[1..]) by {
      forall k | 0 <= k < |currents[1..]|
        ensures currents[1..][k] + |currents[1..]| < MaxInt64
      {
        assert currents[1..][k] == currents[k + 1];
      }
    }
    assert Run(s, currents)[j] == Run(next, currents[1..])[j - 1];
    if i == 0 {
      RunFollows(next, currents[1..], j - 1);
    } else {
      RunIncreasing(next, currents[1..], i - 1, j - 1);
      assert Run(s, currents)[i] == Run(next, currents[1..])[i - 1];
    }
  }

  /**
   * Uniqueness and monotonicity: the IDs that a run of calls issues
   * successfully strictly increase, provided the machine and service IDs fit
   * their 5 bits.
   */
  lemma RunIdsIncrease(s: Stamp, currents: seq<int64>, m: uint16, sid: uint16, i: nat, j: nat)
    requires s.sequence <= MaxSequence && s.elapsedTime >= 0 && NoWrap(s, currents)
    requires m < 32 && sid < 32 && i < j < |currents|
    requires ToID(Run(s, currents)[i].elapsedTime, m, sid, Run(s, currents)[i].sequence).Success?
    requires ToID(Run(s, currents)[j].elapsedTime, m, sid, Run(s, currents)[j].sequence).Success?
    ensures ToID(Run(s, currents)[i].elapsedTime, m, sid, Run(s, currents)[i].sequence).value
          < ToID(Run(s, currents)[j].elapsedTime, m, sid, Run(s, currents)[j].sequence).value
  {
    var a, b := Run(s, currents)[i], Run(s, currents)[j];
    RunIncreasing(s, currents, i, j);
    ToIDPacks(a.elapsedTime, m, sid, a.sequence);
    ToIDPacks(b.elapsedTime, m, sid, b.sequence);
  }

  /** Once the time no longer fits, every call of a run fails with the over-the-time-limit error. */
  lemma RunExhausted(s: Stamp, currents: seq<int64>, m: uint16, sid: uint16, k: nat)
    requires s.sequence <= MaxSequence && s.elapsedTime >= TimeLimit && NoWrap(s, currents) && k < |currents|
    ensures ToID(Run(s, currents)[k].elapsedTime, m, sid, Run(s, currents)[k].sequence) == Failure(OverTimeLimit)
  {
    RunFollows(s, currents, k);
  }

  // ---------------------------------------------------------------------
  // Construction

  /**
   * When NewDxyflake returns nil: a start time after now, a provider error
   * as NewDxyflake sees it (the service provider's result overwrites the
   * machine provider's), or a check that rejects an ID.
   */
  lemma ConfigureRefuses(st: Settings, now: int64)
    ensures Configure(st, now).None? <==>
      (st.startTime.Some? && st.startTime.value > now) ||
      (st.serviceID.Yields? && st.serviceID.failed) ||
      (st.serviceID.Absent? && st.machineID.Yields? && st.machineID.failed) ||
      (st.checkMachineID.Some? && !st.checkMachineID.value(MachineIdOf(st))) ||
      (st.checkServiceID.Some? && !st.checkServiceID.value(ServiceIdOf(st)))
  {
  }

  /** On success the start is the given instant (or 2021-10-01 UTC) in ticks, and a nil provider gives ID 0. */
  lemma ConfigureAccepts(st: Settings, now: int64)
    requires Configure(st, now).Some?
    ensures Configure(st, now).value.startTime ==
      ToDxyflakeTime(if st.startTime.Some? then st.startTime.value else DefaultStartTime)
    ensures Configure(st, now).value.machineID == if st.machineID.Absent? then 0 else st.machineID.id
    ensures Configure(st, now).value.serviceID == if st.serviceID.Absent? then 0 else st.serviceID.id
    ensures st.startTime.None? ==> Configure(st, now).value.startTime == 163_304_640_000
  {
  }

  /** The empty Settings{}: default start time, IDs 0, at any wall-clock instant. */
  const Empty: Settings := Settings(None, Absent, Absent, None, None)

  /** The rejections exercised by the package's tests: a start one minute ahead, failing providers, rejecting checks. */
  lemma NilScenarios(now: int64)
    requires now <= MaxInt64 - 60_000_000_000
    ensures Configure(Empty.(startTime := Some(now + 60_000_000_000)), now) == None
    ensures Configure(Empty.(machineID := Yields(0, true)), now) == None
    ensures Configure(Empty.(checkMachineID := Some((_: uint16) => false)), now) == None
    ensures Configure(Empty.(serviceID := Yields(0, true)), now) == None
    ensures Configure(Empty.(checkServiceID := Some((_: uint16) => false)), now) == None
    ensures Configure(Empty, now) == Some(Config(163_304_640_000, 0, 0))
  {
  }

  /** Settings.Init makes construction succeed with exactly the given IDs unless the start time or a check objects. */
  lemma InitConfigures(st: Settings, mID: uint16, sID: uint16, now: int64)
    requires !(st.startTime.Some? && st.startTime.value > now)
    requires st.checkMachineID.Some? ==> st.checkMachineID.value(mID)
    requires st.checkServiceID.Some? ==> st.checkServiceID.value(sID)
    ensures Configure(Init(st, mID, sID), now).Some?
    ensures Configure(Init(st, mID, sID), now).value.machineID == mID
    ensures Configure(Init(st, mID, sID), now).value.serviceID == sID
  {
  }
}
