/**
 * The behaviour of Pulse.cpp as functions over a snapshot of one Pulse
 * object: the timing computed at construction, and the three transitions
 * `start`, `stop` and `blink`.
 *
 * The two collaborators are recorded, not simulated: every `digitalWrite`
 * appends the written level to `writes`, and every `runLater` appends the
 * requested delay (in microseconds) to `requests`. How the scheduler later
 * fires or replaces a callback is not part of the model.
 */
module PulseMachine {
  import opened PulseTypes

  // ---------------------------------------------------------------------
  // Timing
  // ---------------------------------------------------------------------

  /** The duty cycle the constructor keeps: out-of-range values become 50. */
  function ClampDuty(dutyCycle: UInt16): (d: UInt16)
    ensures 1 <= d <= 99
    ensures d == dutyCycle <==> 1 <= dutyCycle <= 99
    ensures !(1 <= dutyCycle <= 99) ==> d == 50
  {
    if dutyCycle < 1 || dutyCycle > 99 then 50 else dutyCycle
  }

  /** Reduces an exact product to the `unsigned long` it is stored in (wraps modulo 2^32). */
  function WrapULong(x: nat): (r: UInt32)
    ensures x < UINT32_MODULUS ==> r == x
  {
    x % UINT32_MODULUS
  }

  /** The two half-periods, in microseconds. */
  datatype Timing = Timing(onTime: UInt32, offTime: UInt32)

  /** The products the constructor forms stay far below 2^32 for a 16-bit delay. */
  lemma ProductBound(p: nat, delay: UInt16)
    requires p <= 99
    ensures 0 <= p * delay <= 99 * 65535
    ensures 0 <= p * delay * 10 <= 99 * 65535 * 10
  {
    assert p * delay <= 99 * delay by {
      assert (99 - p) * delay >= 0;
    }
  }

  /**
   * `onTime = dutyCycle * delay * 10` and `offTime = (100 - dutyCycle) * delay * 10`,
   * evaluated in `unsigned long`, after clamping the duty cycle. The source
   * wraps after each multiplication; since neither partial product reaches
   * 2^32 (ProductBound), wrapping once at the end gives the same value.
   * For a 16-bit delay neither product wraps, and the two halves add up to
   * the whole period, `delay` milliseconds.
   */
  function TimingFor(delay: UInt16, dutyCycle: UInt16): (t: Timing)
    ensures t.onTime == ClampDuty(dutyCycle) * delay * 10
    ensures t.offTime == (100 - ClampDuty(dutyCycle)) * delay * 10
    ensures t.onTime + t.offTime == delay * 1000
    ensures t.onTime <= 99 * 65535 * 10 && t.offTime <= 99 * 65535 * 10
  {
    var d := ClampDuty(dutyCycle);
    ProductBound(d, delay);
    ProductBound(100 - d, delay);
    assert d * delay * 10 + (100 - d) * delay * 10 == delay * 1000;
    Timing(WrapULong(d * delay * 10), WrapULong((100 - d) * delay * 10))
  }

  // ---------------------------------------------------------------------
  // Object state
  // ---------------------------------------------------------------------

  /**
   * What one Pulse object holds between calls: `state`, `pinState`, every
   * level written to the pin so far, and every delay requested from the
   * scheduler so far, oldest first.
   */
  datatype Snapshot = Snapshot(state: State, pinState: bool, writes: seq<bool>, requests: seq<nat>)

  /** The last value written to the pin is `pinState`. */
  predicate Synced(s: Snapshot) {
    |s.writes| > 0 && s.writes[|s.writes| - 1] == s.pinState
  }

  /** The delay `blink` requests after switching the pin to `level`. */
  function HalfPeriod(t: Timing, level: bool): (d: nat)
    ensures level ==> d == t.onTime
    ensures !level ==> d == t.offTime
  {
    if level then t.onTime else t.offTime
  }

  /** The object as the constructor leaves it just before it calls `start`. */
  function Unstarted(): Snapshot
  {
    Snapshot(Stopped, LOW, [], [])
  }

  // ---------------------------------------------------------------------
  // Transitions
  // ---------------------------------------------------------------------

  /**
   * `blink`: flip the pin and write it; then either reschedule (running),
   * or complete a pending stop at its rest level, or (stopped) do nothing more.
   */
  function Blink(t: Timing, s: Snapshot): (r: Snapshot)
    ensures Synced(r)
    ensures r.state == (if s.state == Running then Running else Stopped)
    ensures r.pinState == (match s.state
                           case StopHigh => HIGH
                           case StopLow => LOW
                           case _ => !s.pinState)
    ensures |s.writes| < |r.writes| && r.writes[..|s.writes|] == s.writes
    ensures s.state == Running || s.state == Stopped ==> r.writes == s.writes + [!s.pinState]
    ensures s.state == StopHigh || s.state == StopLow ==> r.writes == s.writes + [!s.pinState, r.pinState]
    ensures s.state == Running ==> r.requests == s.requests + [HalfPeriod(t, r.pinState)]
    ensures s.state != Running ==> r.requests == s.requests
  {
    var flipped := !s.pinState;
    var written := s.(pinState := flipped, writes := s.writes + [flipped]);
    match s.state
    case Running => written.(requests := s.requests + [HalfPeriod(t, flipped)])
    case StopHigh => written.(state := Stopped, pinState := HIGH, writes := written.writes + [HIGH])
    case StopLow => written.(state := Stopped, pinState := LOW, writes := written.writes + [LOW])
    case Stopped => written
  }

  /** What `start` and `stop` return, with the object after the call. */
  datatype Reply = Reply(ok: bool, next: Snapshot)

  /** `start`: only a stopped object starts, and it toggles at once. */
  function Start(t: Timing, s: Snapshot): (r: Reply)
    ensures r.ok <==> s.state == Stopped
    ensures !r.ok ==> r.next == s
    ensures r.ok ==> |r.next.writes| > |s.writes| && |r.next.requests| == |s.requests| + 1
    ensures r.ok ==> r.next.state == Running && r.next.pinState == !s.pinState
  {
    if s.state == Stopped then Reply(true, Blink(t, s.(state := Running)))
    else Reply(false, s)
  }

  /** `stop`: only a running object accepts a stop, which takes effect at the next `blink`. */
  function Stop(s: Snapshot, stopState: int): (r: Reply)
    ensures r.ok <==> s.state == Running
    ensures r.next.pinState == s.pinState && r.next.writes == s.writes && r.next.requests == s.requests
    ensures r.ok ==> r.next.state == (if stopState != 0 then StopHigh else StopLow)
    ensures !r.ok ==> r.next == s
  {
    if s.state == Running then
      Reply(true, s.(state := if stopState != 0 then StopHigh else StopLow))
    else
      Reply(false, s)
  }

  /** The object right after the constructor returns. */
  function Constructed(t: Timing): (s: Snapshot)
    ensures Synced(s)
    ensures s.state == Running && s.pinState == HIGH
    ensures s.writes == [HIGH] && s.requests == [t.onTime]
  {
    Start(t, Unstarted()).next
  }
}
