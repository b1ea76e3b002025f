# Pulse — a verified model

Pulse is an Arduino helper class that blinks one digital output pin
without blocking. At construction it turns a period `delay` (milliseconds)
and a duty cycle (percent) into two half-periods, `onTime` and `offTime`,
in microseconds. It then starts at once. Each toggle, `blink`, flips the
pin and asks the `Actions` callback scheduler to call it again after the
half-period of the new level. `stop(stopState)` does not touch the pin. It
records a pending stop, which the next `blink` completes by leaving the
pin at the requested rest level. `start()` resumes a stopped object.

The project has four modules:

- `PulseTypes` (pulse_types.dfy): the declarations of Pulse.h. These are
  the width of the `unsigned long` fields `onTime` and `offTime`, the
  width chosen for the `unsigned int` constructor parameters `delay` and
  `dutyCycle`, the pin levels, the four state codes as a datatype, and
  the default arguments.
- `PulseMachine` (pulse_machine.dfy): the behaviour of Pulse.cpp as
  functions over a `Snapshot` of one object. That is `ClampDuty`,
  `TimingFor`, `Blink`, `Start` and `Stop`.
- `PulseProperties` (pulse_properties.dfy): lemmas about these functions.
  They cover the documented timings, construction, the deferred stop, the
  alternating schedule while running, and the pin invariant over any
  sequence of calls.
- `PulseClass` (pulse.dfy): the class `Pulse` with its real fields. Its
  constructor and methods update the fields in place, and each method's
  postcondition equates the new snapshot with the `PulseMachine` function
  of the same name. The method `StopLowScenario` is a caller of the class:
  it constructs an object with the default arguments, stops it to LOW,
  lets one callback run and starts it again, and its assertions follow
  from the class contracts alone.

The hardware and the scheduler appear as ghost state with no behaviour of
their own:

- `outputMode` records `pinMode(pin, OUTPUT)`.
- `writes` lists every level passed to `digitalWrite`.
- `requests` lists the delay of every `runLater` call.

How and when `Actions` fires a callback, or replaces one in its single
slot, is not modelled. The model only says which delays were requested.

## Model

| member | source | states |
|---|---|---|
| `PulseTypes.StateOfCode` | Pulse.h:122-126 | exactly the codes 0..3 name a state, and each decodes to the state that has that code |
| `PulseTypes.CodesAreDistinct` | Pulse.h:122-126 | the four state constants are pairwise distinct, and decoding a state's code gives that state back |
| `PulseMachine.ClampDuty` | Pulse.cpp:116-118 | the kept duty cycle lies in 1..99; it equals the argument exactly when the argument is in 1..99, and otherwise it is 50 |
| `PulseMachine.WrapULong` | Pulse.h:118-119 | storing into an `unsigned long` reduces modulo 2^32, which leaves any value below 2^32 unchanged |
| `PulseMachine.ProductBound` | Pulse.cpp:121-122 | for a 16-bit delay, both products the constructor forms are at most 99*65535*10, well below 2^32 |
| `PulseMachine.TimingFor` | Pulse.cpp:116-122 | onTime = duty*delay*10 and offTime = (100-duty)*delay*10 with no wrap-around, so onTime + offTime = delay*1000 µs; both are at most 99*65535*10 |
| `PulseMachine.HalfPeriod` | Pulse.cpp:171-178 | the delay requested after a toggle is onTime when the new level is HIGH, and offTime otherwise |
| `PulseMachine.Blink` | Pulse.cpp:165-192 | afterwards the last write equals pinState; the state stays RUNNING if it was RUNNING and is STOPPED otherwise; the new pinState is the flipped level when running or stopped, HIGH after STOP_HIGH and LOW after STOP_LOW; the flipped level is written once, followed by the rest level when a stop completes; exactly one half-period (of the new level) is requested when running and none otherwise |
| `PulseMachine.Start` | Pulse.cpp:135-145 | succeeds iff the state was STOPPED; on failure nothing changes; on success the state is RUNNING, the pin is flipped, and exactly one request is added |
| `PulseMachine.Constructed` | Pulse.cpp:123-125 | the object after construction is RUNNING with pinState HIGH, has been written HIGH exactly once, and has one request, of onTime |
| `PulseMachine.Stop` | Pulse.cpp:148-162 | succeeds iff the state was RUNNING, then goes to STOP_HIGH when stopState != 0 and to STOP_LOW otherwise; the pin, the writes and the requests are never changed; on failure nothing changes |
| `PulseProperties.DefaultTiming` | Pulse.h:129 | the default arguments (1000 ms, pin 13, duty 50) give onTime = offTime = 500000 µs |
| `PulseProperties.HalfSecondTiming` | Pulse.h:37-45 | `Pulse blink(500)` gives 250000 µs on and 250000 µs off |
| `PulseProperties.TenPercentTiming` | Pulse.h:60-70 | `Pulse blink(500, 13, 10)` gives 50000 µs on and 450000 µs off |
| `PulseProperties.InvalidDutyIsFifty` | Pulse.cpp:116-122 | an out-of-range duty cycle gives the same timing as 50 percent: delay*500 µs on and off |
| `PulseProperties.ConstructionStarts` | Pulse.cpp:123-125 | the constructor's `start()` always succeeds; afterwards the object is RUNNING with pinState HIGH, the pin was written HIGH once, one callback was requested after onTime, and the pin invariant holds |
| `PulseProperties.StartRefusedWhileStopPending` | Pulse.cpp:135-145 | while a stop is pending (STOP_LOW or STOP_HIGH), `start()` returns false and changes nothing |
| `PulseProperties.StartToggles` | Pulse.cpp:137-141 | a successful start gives exactly: RUNNING, pin flipped, the flipped level written, and that level's half-period requested |
| `PulseProperties.StopIsDeferred` | Pulse.cpp:148-192 | a stop accepted while running leaves the pin as it was; the next blink ends STOPPED at the rest level (the last write is also that level) with no new request, and `start()` is then accepted again |
| `PulseProperties.StopRefusedUnlessRunning` | Pulse.cpp:148-162 | outside RUNNING (STOPPED and both pending stops), `stop()` returns false and changes nothing |
| `PulseProperties.Blinks` | Pulse.cpp:165-168 | after one or more scheduler callbacks into blink, the last write equals pinState |
| `PulseProperties.RunningBlinks` | Pulse.cpp:165-179 | n toggles while running keep the object RUNNING, leave the pin flipped n times, and append exactly the alternating half-periods starting from the first new level |
| `PulseProperties.ConsecutiveHalfPeriods` | Pulse.cpp:171-178 | the requested delays alternate between the two half-periods, so any two consecutive ones sum to onTime + offTime |
| `PulseProperties.WholePeriods` | Pulse.cpp:169-179 | 2k running toggles request k*(onTime + offTime) µs in total |
| `PulseProperties.TwoTogglesMakeOnePeriod` | Pulse.cpp:119-179 | with the constructor's timing, two consecutive running toggles request delay*1000 µs in total |
| `PulseProperties.RunKeepsInvariant` | Pulse.cpp:135-192 | from any state where the last write equals pinState, every sequence of start/stop/blink calls keeps that true, only extends the write and request histories, and requests only onTime or offTime |
| `PulseProperties.ConstructedStaysSynced` | Pulse.cpp:112-192 | after construction and any sequence of calls, the last level written to the pin equals pinState |
| `PulseClass.Pulse.constructor` | Pulse.cpp:112-126 | keeps pin and the clamped duty, sets onTime and offTime per TimingFor (onTime + offTime = delay*1000), marks the pin as output, and leaves the object RUNNING with the pin HIGH, one HIGH write and one request of onTime |
| `PulseClass.Pulse.DigitalWrite` | Pulse.cpp:168-189 | a pin write appends the written level to the write history and changes nothing else |
| `PulseClass.Pulse.RunLater` | Pulse.cpp:171-178 | a scheduler request appends the requested delay to the request history and changes nothing else |
| `PulseClass.Pulse.Start` | Pulse.cpp:135-145 | the returned flag and the new fields are exactly `PulseMachine.Start` of the old fields; only state, pinState and the histories may change |
| `PulseClass.Pulse.Stop` | Pulse.cpp:148-162 | the returned flag and the new fields are exactly `PulseMachine.Stop` of the old fields; only state may change |
| `PulseClass.Pulse.Blink` | Pulse.cpp:165-192 | the new fields are exactly `PulseMachine.Blink` of the old fields, and the object invariant (pin shows pinState) holds afterwards |

## Left out

- `Pulse::loop()` (Pulse.cpp:129-132) only forwards to the scheduler's servicing routine. The scheduler is not modelled, so neither is this.
- The `Actions` library (`Actions(1)`, `runLater`, `loop`) is external code whose source is not part of this model. A `runLater` call is recorded as a delay in `requests`. Firing and replacing callbacks, and the `repeat` flag of `runLater`, are not modelled.
- Real time, lateness and drift: when a callback actually runs depends on how often the sketch calls `loop()`. The model speaks only of requested delays.
- `pinMode` and `digitalWrite` are recorded as ghost state (`outputMode`, `writes`). They are not real I/O.
- The unused `HALF_PERIOD` constant (Pulse.h:117) and the unused local `delayMicros` (Pulse.cpp:120).
- Integer widths: `delay` and `dutyCycle` are modelled as 16-bit `unsigned int`, the width on 8-bit boards. On boards with a 32-bit `unsigned int`, a delay above about 4.3 million ms would make the products wrap in `unsigned long`. That is far outside the documented range of up to one minute, and the model does not cover it. `pin` is an unbounded integer.
- `PulseClass.Pulse.Start` requires only the configuration part of the invariant, because the constructor calls it before the pin has been written. It promises the full invariant afterwards only when it succeeds or when the invariant held before.

The period is exact: `onTime + offTime == delay * 1000` (Pulse.cpp:121-122).
`blink` is public in Pulse.h, so a direct call on a stopped object is also
modelled: it flips and writes the pin and changes nothing else.
