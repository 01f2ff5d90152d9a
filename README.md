# dxyflake in Dafny

dxyflake is a distributed unique-ID generator in the style of Twitter's
Snowflake. An ID is a 64-bit integer laid out as

    | 1 bit unused | 41 bit time | 5 bit machine ID | 5 bit service ID | 12 bit sequence |

where time counts 10 ms ticks since a start instant, which defaults to
2021-10-01 00:00:00 UTC. A generator is built from `Settings` by
`NewDxyflake`: a start time, two ID providers and two ID checks. Each call
to `NextID` reads the clock and either moves to a later tick with sequence
0 or increments the sequence within the current tick. When the 12-bit
sequence wraps, `NextID` borrows the next tick. `Decompose` splits an ID
back into its fields.

The model has four modules:

- `Bits` (bits.dfy): powers of two and bitwise OR and AND on naturals. It
  also proves the facts the layout needs: OR of disjoint fields is
  addition, and AND with a contiguous mask extracts a field.
- `Dxyflake` (dxyflake.dfy): Go's fixed-width integers as `int` ranges,
  with wrap-around written out (`Wrap64`, `Pattern`, `Signed`). It models
  the encoding `ToID`, the decoding `Decompose`, the tick conversions, the
  generator step `Advance`, and construction (`Configure` as a function and
  `NewDxyflake` as a method). The generator is the class `Generator`, whose
  `NextID` method updates the fields in place.
- `DxyflakeProperties` (properties.dfy): round trips between `ToID` and
  `Decompose`, injectivity, the decoded sample IDs, monotonicity of a
  single step and of a run of calls, time-limit exhaustion, and the exact
  conditions under which construction refuses.
- `DxyflakeFindings` (findings.dfy): two defects of construction as
  written, each shown on the code and then corrected.

The wall clock is a parameter. `NextID(nowNano)` and
`NewDxyflake(st, nowNano)` take the instant `time.Now()` would return, in
nanoseconds since the Unix epoch.

Where the documentation and the code disagree, the model follows the code.
The comment on `Settings` and on `NewDxyflake` says construction fails
whenever the machine-ID provider returns an error. The code overwrites that
error with the service-ID provider's result, so the model does the same;
see "## Findings".

## Model

| member | source | states |
|---|---|---|
| Dxyflake.LayoutConstants | dxyflake.go:19-25 | The time limit, the shift multipliers and the masks are the powers of two the four bit lengths define, and the four fields fill 63 bits. |
| Dxyflake.Pattern | dxyflake.go:170 | The unsigned reading of an int64's bits is congruent to it modulo 2^64, and equals it when it is non-negative. |
| Dxyflake.Signed | dxyflake.go:182-188 | `int64(id)` has bit pattern `id`, and it is non-negative exactly when `id < 2^63`. |
| Dxyflake.Wrap64 | dxyflake.go:141 | int64 arithmetic agrees with exact arithmetic inside the int64 range, and is congruent to it modulo 2^64 outside it. |
| Dxyflake.ToID | dxyflake.go:165-174 | toID fails exactly when the elapsed time reaches 2^41; a non-negative time gives an ID below 2^63, so the unused top bit is 0. |
| Dxyflake.Decompose | dxyflake.go:177-195 | `id` is the signed reading; `msb` is 0 or -1 by the top bit; `time` is the floor of the signed value over 2^22; machine ID, service ID and sequence are bits 17-21, 12-16 and 0-11 of the ID. |
| Dxyflake.ToDxyflakeTime | dxyflake.go:150-154 | The tick count is the nanosecond count divided by 10^7, truncated toward zero for both signs. |
| Dxyflake.CurrentElapsedTime | dxyflake.go:156-158 | Without int64 overflow, the elapsed time is the clock's tick minus the start tick. |
| Dxyflake.Advance | dxyflake.go:134-145 | After any step the sequence number fits in 12 bits. |
| Dxyflake.Init | dxyflake.go:56-66 | Init replaces both providers by ones that return the given IDs without error, and leaves the start time and the checks unchanged. |
| Dxyflake.ProviderError | dxyflake.go:106-117 | The error tested is the service provider's when there is one, else the machine provider's; it is reported only when some provider failed. |
| Dxyflake.MachineIdOf | dxyflake.go:107-111 | The recorded machine ID is the provider's ID, or 0 for a nil provider. |
| Dxyflake.ServiceIdOf | dxyflake.go:112-116 | The recorded service ID is the provider's ID, or 0 for a nil provider. |
| Dxyflake.Configure | dxyflake.go:92-121 | A start time after now gives None. An accepted configuration saw no provider error, records the providers' IDs, and passed both checks. The converse is ConfigureRefuses. |
| Dxyflake.Generator.constructor | dxyflake.go:93-95 | A new generator has zero fields and the sentinel sequence 4095. |
| Dxyflake.Generator.NextID | dxyflake.go:126-148 | The state moves by one `Advance` step at the clock's elapsed tick; the result is toID of the new state; the sequence stays within 12 bits. |
| Dxyflake.NewDxyflake | dxyflake.go:85-124 | The result is nil exactly when `Configure` refuses; otherwise it is a fresh generator at the sentinel state holding the start tick and IDs `Configure` computes. |
| DxyflakeProperties.ToIDPacks | dxyflake.go:170-173 | With every field inside its width, the OR of shifted fields is their positional sum, below 2^63. |
| DxyflakeProperties.RoundTrip | dxyflake.go:165-195 | Decomposing an ID encoded from in-range fields returns each field, msb 0, and the ID itself. |
| DxyflakeProperties.DecomposeRecomposes | dxyflake.go:165-195 | Every ID below 2^63 decomposes into in-range fields that toID encodes back to that ID. |
| DxyflakeProperties.ToIDInjective | dxyflake.go:165-174 | For in-range machine and service IDs, two stamps that give one ID are the same stamp. |
| DxyflakeProperties.DecomposeLargest | example/main.go:29-37 | Decompose(2^63-1) gives time 2199023255551, machine ID 31, service ID 31, sequence 4095 and msb 0. |
| DxyflakeProperties.DecomposeSample | example/main.go:35 | Decompose(475370495148032) gives time 113337158 and every other field 0. |
| DxyflakeProperties.ZeroId | dxyflake.go:165-195 | The all-zero fields encode to ID 0, and ID 0 decomposes to all zeros. |
| DxyflakeProperties.DecomposeNegative | dxyflake.go:182-183 | An ID with bit 63 set decomposes with msb -1, a negative time and a negative id. |
| DxyflakeProperties.MaskedSuccessor | dxyflake.go:129-139 | `(sequence + 1) & maskSequence` in uint16 arithmetic is the increment modulo 4096, including the uint16 wrap at 65535. |
| DxyflakeProperties.AdvanceBranches | dxyflake.go:135-145 | A later tick gives sequence 0 at that tick. Otherwise the sequence is incremented modulo 4096, and the elapsed time moves one tick ahead exactly when the sequence wraps to 0. |
| DxyflakeProperties.AdvanceIncreases | dxyflake.go:134-145 | Each step issues a strictly later stamp in (time, sequence) order and never moves time backwards. Time reaches at most the clock's tick, or the previous time plus one. |
| DxyflakeProperties.FirstCallAfterConstruction | dxyflake_test.go:44-74 | From the sentinel state (time 0, sequence 4095), the first call gives sequence 0 at the clock's tick, or at tick 1 if the clock reads tick 0 or earlier. |
| DxyflakeProperties.ExhaustionPersists | dxyflake.go:126-127 | Once the elapsed time has reached 2^41, the next call fails too, with the over-the-time-limit error, provided the elapsed time is below the int64 maximum. |
| DxyflakeProperties.ExhaustionEndsAtWrap | dxyflake.go:139-141 | At the int64 maximum with sequence 4095, the next step wraps the elapsed time to the int64 minimum with sequence 0, and toID accepts that negative time. |
| DxyflakeProperties.EpochLimit | dxyflake_test.go:212-224 | 2^41 ticks lie between 697 and 698 years. A call that moves to a later tick succeeds exactly when that tick is below 2^41. |
| DxyflakeProperties.Run | dxyflake.go:134-147 | A run of calls gives one stamp per clock reading, each with a 12-bit sequence. |
| DxyflakeProperties.RunFollows | dxyflake.go:134-145 | Without int64 wrap-around, every stamp of a run comes strictly after the starting stamp. |
| DxyflakeProperties.RunIncreasing | dxyflake.go:134-145 | Without int64 wrap-around, a later call of a run gives a strictly later stamp. |
| DxyflakeProperties.RunExhausted | dxyflake.go:126-127 | Without int64 wrap-around, once the elapsed time has reached 2^41 every call of a run fails with the over-the-time-limit error. |
| DxyflakeProperties.RunIdsIncrease | dxyflake_test.go:85-102 | With machine and service IDs below 32, the IDs a run issues successfully strictly increase, so none repeats. |
| DxyflakeProperties.ConfigureRefuses | dxyflake.go:92-121 | Construction returns nil exactly when one of these holds: the start is after now; the service provider fails; there is no service provider and the machine provider fails; or a check rejects its ID. |
| DxyflakeProperties.ConfigureAccepts | dxyflake.go:100-116 | On success the start tick comes from the given instant, or from 2021-10-01 UTC as tick 163304640000. A nil provider gives ID 0. |
| DxyflakeProperties.NilScenarios | dxyflake_test.go:168-206 | A start one minute ahead, a failing machine or service provider, and a rejecting check each give nil. The empty Settings gives the default start with IDs 0. |
| DxyflakeProperties.InitConfigures | example/main.go:11-13 | After `Init(mID, sID)`, construction succeeds with exactly those IDs unless the start time or a check objects. |
| DxyflakeFindings.MachineErrorOverwritten | dxyflake.go:106-121 | As written: a failing machine provider next to a succeeding service provider still yields a generator. |
| DxyflakeFindings.WideMachineIdAccepted | dxyflake.go:107-121 | As written: machine ID 32, which needs 6 bits, is accepted. |
| DxyflakeFindings.WideMachineIdCollides | dxyflake.go:170-173 | As written: machine ID 32 gives the same ID at tick 0 and at tick 1. |
| DxyflakeFindings.Overlap | dxyflake.go:170-173 | A machine field equal to the encoded tick 1 makes ticks 0 and 1 encode alike. |
| DxyflakeFindings.ConfigureIntended | dxyflake.go:85-91 | Corrected construction: any result holds 5-bit IDs and agrees with the code's result. |
| DxyflakeFindings.IntendedRejectsProviderErrors | dxyflake.go:86-89 | Corrected: an error from either provider always prevents construction. |
| DxyflakeFindings.IntendedAgrees | dxyflake.go:106-121 | Corrected: where no machine error is overwritten and the IDs fit, the correction agrees with the code. |
| DxyflakeFindings.IntendedIdsDistinct | dxyflake.go:165-174 | Corrected: two different in-range stamps never share an ID. |
| DxyflakeFindings.IntendedRunIdsIncrease | dxyflake_test.go:85-102 | Corrected: the IDs a run issues strictly increase, with no separate hypothesis on the IDs. |

## Left out

- The mutex in NextID and the concurrent test are not modelled. Each method call is one atomic step.
- `time.Now()` is not modelled; the clock reading is a parameter in nanoseconds.
- `time.Sleep(sleepTime(overtime))` and `sleepTime` are not modelled. The sleep waits for the clock to catch up after a sequence wrap and changes no generator state.
- `time.Time` is not modelled. Instants are int64 nanoseconds since the Unix epoch, and the zero `time.Time` is `None`. Instants whose `UnixNano` lies outside int64 are not modelled.
- `Settings.StartTimeSet` is not modelled: it is a field assignment, which Dafny writes as `st.(startTime := Some(t))`, or `st.(startTime := None)` for the zero `time.Time`.
- `Settings.Init` on a nil receiver is not modelled, because a value cannot be nil.
- A provider is modelled by the value it returns, since NewDxyflake calls each provider at most once. It calls neither when the start time is ahead, and the model then ignores both. A check is modelled as a total function.
- The ID type, `LeadingZerosString`, `Base64` and `ParseBase64` are not part of this model; their file is not among the core sources. An ID is the unsigned number its 64 bits spell.
- The message text of the over-the-time-limit error is not modelled; the error is the single constructor `OverTimeLimit`.
- Decompose returns the datatype `Parts`, one field per key of the Go map, instead of a `map[string]int64`.
- `pseudoSleep` and the test harness are not modelled. The tests' scenarios are stated as lemmas.
- RunFollows, RunIncreasing, RunIdsIncrease: they assume no stamp of the run reaches the int64 limit (`NoWrap`). At the limit, Go's `elapsedTime++` wraps to a negative time, and monotonicity fails.
- AdvanceIncreases: it assumes the elapsed time is below the int64 maximum, for the same reason.
- ExhaustionPersists: it assumes the elapsed time is below the int64 maximum. RunExhausted assumes `NoWrap`. At the maximum, `elapsedTime++` wraps to the int64 minimum and toID succeeds again (ExhaustionEndsAtWrap), so exhaustion is not permanent in the code.

## Findings

| source | as written | input that shows it | evidently intended | confidence | as-written member | corrected member |
|---|---|---|---|---|---|---|
| dxyflake.go:106-121 | `err` is assigned by the machine-ID provider call and then overwritten by the service-ID provider call, so only the second error is tested. | MachineID returns (7, error), ServiceID returns (3, nil): a generator with machine ID 7 is returned. | As documented at dxyflake.go:34 and 88, a machine-ID provider error makes NewDxyflake return nil. | high, not executed | DxyflakeFindings.MachineErrorOverwritten | DxyflakeFindings.IntendedRejectsProviderErrors |
| dxyflake.go:107-121, 170-173 | Machine and service IDs are uint16 and are neither range-checked nor masked, so values of 32 or more spill into the neighbouring fields. | `Settings.Init(32, 0)`: ticks 0 and 1 both give ID 4194304. | The layout gives each ID 5 bits (dxyflake.go:8-9), so construction should refuse IDs of 32 and above. | medium, not executed | DxyflakeFindings.WideMachineIdCollides | DxyflakeFindings.IntendedIdsDistinct |
