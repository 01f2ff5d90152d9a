/**
 * Two places where NewDxyflake does not do what its documentation says:
 * a machine-ID provider error is lost when a service-ID provider is set,
 * and IDs of 32 and above are accepted although the layout gives them only
 * 5 bits. Each is shown on the code as written (module Dxyflake) and then
 * corrected here, with the intended property proved of the correction.
 */
module DxyflakeFindings {
  import opened Dxyflake
  import opened DxyflakeProperties

  /** A machine-ID provider that fails, beside a service-ID provider that succeeds. */
  const MaskedError: Settings := Settings(None, Yields(7, true), Yields(3, false), None, None)

  /** As written: the failing machine-ID provider does not stop construction. */
  lemma MachineErrorOverwritten(now: int64)
    ensures Configure(MaskedError, now) == Some(Config(163_304_640_000, 7, 3))
  {
  }

  /** As written: a machine ID of 32 is accepted, although it does not fit in 5 bits. */
  lemma WideMachineIdAccepted(now: int64)
    ensures Configure(Init(Empty, 32, 0), now) == Some(Config(163_304_640_000, 32, 0))
  {
  }

  /** As written: machine ID 32 overlaps the lowest time bit, so ticks 0 and 1 give one ID. */
  lemma WideMachineIdCollides()
    ensures ToID(0, 32, 0, 0) == ToID(1, 32, 0, 0) == Success(TimeUnitOfId)
  {
    Overlap(32, (Pattern(1) * TimeUnitOfId) % TwoTo64);
  }

  /** A machine field that equals the encoded tick 1 makes ticks 0 and 1 indistinguishable. */
  lemma Overlap(m: uint16, t: nat)
    requires t == (Pattern(1) * TimeUnitOfId) % TwoTo64
    requires m * MachineUnitOfId == t
    ensures ToID(0, m, 0, 0) == ToID(1, m, 0, 0) == Success(t)
  {
    assert ToID(0, m, 0, 0) == Success(Bits.Or(Bits.Or(Bits.Or(0, t), 0), 0));
    assert ToID(1, m, 0, 0) == Success(Bits.Or(Bits.Or(Bits.Or(t, t), 0), 0));
    Bits.OrIdempotent(t);
  }

  /**
   * Construction as documented: nil when the start time is after now, when
   * either provider returns an error, when either ID does not fit its 5 bits,
   * or when a check rejects an ID.
   */
  function ConfigureIntended(st: Settings, now: int64): (r: Option<Config>)
    ensures r.Some? ==> r.value.machineID < 32 && r.value.serviceID < 32
    ensures r.Some? ==> Configure(st, now) == r
  {
    if st.machineID.Yields? && st.machineID.failed then None
    else if MachineIdOf(st) >= 32 || ServiceIdOf(st) >= 32 then None
    else Configure(st, now)
  }

  /** Corrected: an error from either provider always prevents construction. */
  lemma IntendedRejectsProviderErrors(st: Settings, now: int64)
    requires (st.machineID.Yields? && st.machineID.failed) || (st.serviceID.Yields? && st.serviceID.failed)
    ensures ConfigureIntended(st, now) == None
  {
  }

  /** Corrected: where no error is masked and the IDs fit, the correction agrees with the code. */
  lemma IntendedAgrees(st: Settings, now: int64)
    requires !(st.machineID.Yields? && st.machineID.failed)
    requires MachineIdOf(st) < 32 && ServiceIdOf(st) < 32
    ensures ConfigureIntended(st, now) == Configure(st, now)
  {
  }

  /** Corrected: a generator built by the intended rule never issues one ID for two different stamps. */
  lemma IntendedIdsDistinct(st: Settings, now: int64, a: Stamp, b: Stamp)
    requires ConfigureIntended(st, now).Some?
    requires 0 <= a.elapsedTime < TimeLimit && 0 <= b.elapsedTime < TimeLimit
    requires a.sequence <= MaxSequence && b.sequence <= MaxSequence && a != b
    ensures var c := ConfigureIntended(st, now).value;
      ToID(a.elapsedTime, c.machineID, c.serviceID, a.sequence) != ToID(b.elapsedTime, c.machineID, c.serviceID, b.sequence)
  {
    var c := ConfigureIntended(st, now).value;
    if ToID(a.elapsedTime, c.machineID, c.serviceID, a.sequence) == ToID(b.elapsedTime, c.machineID, c.serviceID, b.sequence) {
      ToIDInjective(a.elapsedTime, a.sequence, b.elapsedTime, b.sequence, c.machineID, c.serviceID);
      assert false;
    }
  }

  /** Corrected: under the intended construction, the IDs of a run of calls strictly increase with no further hypothesis on the IDs. */
  lemma IntendedRunIdsIncrease(st: Settings, now: int64, s: Stamp, currents: seq<int64>, i: nat, j: nat)
    requires ConfigureIntended(st, now).Some?
    requires s.sequence <= MaxSequence && s.elapsedTime >= 0 && NoWrap(s, currents) && i < j < |currents|
    requires var c := ConfigureIntended(st, now).value;
      ToID(Run(s, currents)[i].elapsedTime, c.machineID, c.serviceID, Run(s, currents)[i].sequence).Success? &&
      ToID(Run(s, currents)[j].elapsedTime, c.machineID, c.serviceID, Run(s, currents)[j].sequence).Success?
    ensures var c := ConfigureIntended(st, now).value;
      ToID(Run(s, currents)[i].elapsedTime, c.machineID, c.serviceID, Run(s, currents)[i].sequence).value <
      ToID(Run(s, currents)[j].elapsedTime, c.machineID, c.serviceID, Run(s, currents)[j].sequence).value
  {
    var c := ConfigureIntended(st, now).value;
    RunIdsIncrease(s, currents, c.machineID, c.serviceID, i, j);
  }
}
