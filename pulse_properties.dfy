/**
 * Properties of the transitions in PulseMachine: the constructor's effect,
 * the deferred stop, the alternating schedule while running, and the pin
 * invariant across any sequence of calls.
 */
module PulseProperties {
  import opened PulseTypes
  import opened PulseMachine

  // ---------------------------------------------------------------------
  // Timing examples from the header's usage notes
  // ---------------------------------------------------------------------

  /** The default arguments give 500 ms on and 500 ms off. */
  lemma DefaultTiming()
    ensures TimingFor(DEFAULT_DELAY, DEFAULT_DUTY_CYCLE) == Timing(500000, 500000)
  {
  }

  /** `Pulse blink(500)`: 250 ms on and 250 ms off. */
  lemma HalfSecondTiming()
    ensures TimingFor(500, DEFAULT_DUTY_CYCLE) == Timing(250000, 250000)
  {
  }

  /** `Pulse blink(500, 13, 10)`: 50 ms on and 450 ms off. */
  lemma TenPercentTiming()
    ensures TimingFor(500, 10) == Timing(50000, 450000)
  {
  }

  /** An out-of-range duty cycle gives exactly the timing of 50 percent. */
  lemma InvalidDutyIsFifty(delay: UInt16, dutyCycle: UInt16)
    requires dutyCycle < 1 || dutyCycle > 99
    ensures TimingFor(delay, dutyCycle) == TimingFor(delay, 50)
    ensures TimingFor(delay, dutyCycle).onTime == TimingFor(delay, dutyCycle).offTime == delay * 500
  {
  }

  // ---------------------------------------------------------------------
  // Construction
  // ---------------------------------------------------------------------

  /**
   * The constructor's `start` always succeeds, because a new object is
   * stopped; afterwards it is running, the pin was written HIGH once, and
   * one callback was requested, after `onTime`.
   */
  lemma ConstructionStarts(t: Timing)
    ensures Start(t, Unstarted()).ok
    ensures Constructed(t) == Snapshot(Running, HIGH, [HIGH], [t.onTime])
    ensures Synced(Constructed(t))
  {
  }

  // ---------------------------------------------------------------------
  // start and stop
  // ---------------------------------------------------------------------

  /** `start` is refused while a stop is pending, and changes nothing. */
  lemma StartRefusedWhileStopPending(t: Timing, s: Snapshot)
    requires s.state == StopLow || s.state == StopHigh
    ensures Start(t, s) == Reply(false, s)
  {
  }

  /** `start` of a stopped object toggles once and requests the matching half-period. */
  lemma StartToggles(t: Timing, s: Snapshot)
    requires s.state == Stopped
    ensures Start(t, s).next == Snapshot(Running, !s.pinState, s.writes + [!s.pinState],
                                         s.requests + [HalfPeriod(t, !s.pinState)])
  {
  }

  /**
   * A stop accepted while running is deferred: the pin keeps its level until
   * the next `blink`, which leaves the object stopped at the rest level asked
   * for, with that level written last and nothing rescheduled. A later
   * `start` is then accepted again.
   */
  lemma StopIsDeferred(t: Timing, s: Snapshot, stopState: int)
    requires s.state == Running
    ensures var stopped := Stop(s, stopState);
            var rest := Blink(t, stopped.next);
            && stopped.ok
            && stopped.next.pinState == s.pinState
            && rest.state == Stopped
            && rest.pinState == (stopState != 0)
            && rest.writes[|rest.writes| - 1] == (stopState != 0)
            && rest.requests == s.requests
            && Start(t, rest).ok
  {
  }

  /** `stop` is refused, and changes nothing, unless the object is running. */
  lemma StopRefusedUnlessRunning(s: Snapshot, stopState: int)
    requires s.state != Running
    ensures Stop(s, stopState) == Reply(false, s)
  {
  }

  // ---------------------------------------------------------------------
  // The schedule while running
  // ---------------------------------------------------------------------

  /** `n` consecutive scheduler callbacks into `blink`. */
  function Blinks(t: Timing, s: Snapshot, n: nat): (r: Snapshot)
    ensures n > 0 ==> Synced(r)
    decreases n
  {
    if n == 0 then s else Blinks(t, Blink(t, s), n - 1)
  }

  /** The delays requested by `n` running toggles that start from pin level `level`. */
  function HalfPeriods(t: Timing, level: bool, n: nat): (ds: seq<nat>)
    ensures |ds| == n
    decreases n
  {
    if n == 0 then [] else [HalfPeriod(t, !level)] + HalfPeriods(t, !level, n - 1)
  }

  /** The sum of a sequence of delays. */
  function Total(ds: seq<nat>): (sum: nat)
  {
    if ds == [] then 0 else ds[0] + Total(ds[1..])
  }

  /**
   * While running, each `blink` keeps it running, alternates the pin, and
   * appends the half-period of the new level to the requests.
   */
  lemma {:induction false} RunningBlinks(t: Timing, s: Snapshot, n: nat)
    requires s.state == Running
    ensures Blinks(t, s, n).state == Running
    ensures Blinks(t, s, n).pinState == (if n % 2 == 0 then s.pinState else !s.pinState)
    ensures Blinks(t, s, n).requests == s.requests + HalfPeriods(t, s.pinState, n)
    decreases n
  {
    if n > 0 {
      var b := Blink(t, s);
      RunningBlinks(t, b, n - 1);
      assert s.requests + HalfPeriods(t, s.pinState, n)
          == (s.requests + [HalfPeriod(t, !s.pinState)]) + HalfPeriods(t, !s.pinState, n - 1);
    }
  }

  /**
   * The requested delays alternate between the two half-periods, so any two
   * consecutive ones make up one whole period.
   */
  lemma {:induction false} ConsecutiveHalfPeriods(t: Timing, level: bool, n: nat, i: nat)
    requires i + 1 < n
    ensures HalfPeriods(t, level, n)[i] == HalfPeriod(t, if i % 2 == 0 then !level else level)
    ensures HalfPeriods(t, level, n)[i] + HalfPeriods(t, level, n)[i + 1] == t.onTime + t.offTime
    decreases i
  {
    if i > 0 {
      ConsecutiveHalfPeriods(t, !level, n - 1, i - 1);
    }
  }

  /** Two full toggles request exactly one period, so `k` periods' worth in `2k` toggles. */
  lemma {:induction false} WholePeriods(t: Timing, level: bool, k: nat)
    ensures Total(HalfPeriods(t, level, 2 * k)) == k * (t.onTime + t.offTime)
    decreases k
  {
    if k > 0 {
      var rest := HalfPeriods(t, level, 2 * (k - 1));
      var ds := HalfPeriods(t, level, 2 * k);
      assert ds == [HalfPeriod(t, !level)] + HalfPeriods(t, !level, 2 * k - 1);
      assert HalfPeriods(t, !level, 2 * k - 1) == [HalfPeriod(t, level)] + rest;
      assert ds[1..] == [HalfPeriod(t, level)] + rest;
      assert ds[1..][1..] == rest;
      WholePeriods(t, level, k - 1);
    }
  }

  /** With the constructor's timing, two running toggles request `delay * 1000` microseconds. */
  lemma TwoTogglesMakeOnePeriod(delay: UInt16, dutyCycle: UInt16, s: Snapshot)
    requires s.state == Running
    ensures var t := TimingFor(delay, dutyCycle);
            Blinks(t, s, 2).requests == s.requests + HalfPeriods(t, s.pinState, 2)
            && Total(HalfPeriods(t, s.pinState, 2)) == delay * 1000
  {
    var t := TimingFor(delay, dutyCycle);
    RunningBlinks(t, s, 2);
    WholePeriods(t, s.pinState, 1);
  }

  // ---------------------------------------------------------------------
  // Any sequence of calls
  // ---------------------------------------------------------------------

  /** The entry points a caller (or the scheduler, for `blink`) can use. */
  datatype Call = StartCall | StopCall(stopState: int) | BlinkCall

  function Step(t: Timing, s: Snapshot, c: Call): (r: Snapshot)
  {
    match c
    case StartCall => Start(t, s).next
    case StopCall(k) => Stop(s, k).next
    case BlinkCall => Blink(t, s)
  }

  function Run(t: Timing, s: Snapshot, calls: seq<Call>): (r: Snapshot)
    decreases |calls|
  {
    if calls == [] then s else Run(t, Step(t, s, calls[0]), calls[1..])
  }

  /**
   * From construction on, whatever is called, the last level written to the
   * pin is `pinState`, the histories only grow, and every requested delay is
   * one of the two half-periods.
   */
  lemma {:induction false} RunKeepsInvariant(t: Timing, s: Snapshot, calls: seq<Call>)
    requires Synced(s)
    ensures Synced(Run(t, s, calls))
    ensures var r := Run(t, s, calls);
            |s.writes| <= |r.writes| && r.writes[..|s.writes|] == s.writes
            && |s.requests| <= |r.requests| && r.requests[..|s.requests|] == s.requests
            && forall i :: |s.requests| <= i < |r.requests| ==> r.requests[i] == t.onTime || r.requests[i] == t.offTime
    decreases |calls|
  {
    if calls != [] {
      var n := Step(t, s, calls[0]);
      RunKeepsInvariant(t, n, calls[1..]);
      var r := Run(t, s, calls);
      assert r == Run(t, n, calls[1..]);
      assert r.writes[..|s.writes|] == r.writes[..|n.writes|][..|s.writes|];
      assert r.requests[..|s.requests|] == r.requests[..|n.requests|][..|s.requests|];
      forall i | |s.requests| <= i < |r.requests|
        ensures r.requests[i] == t.onTime || r.requests[i] == t.offTime
      {
        if i < |n.requests| {
          assert r.requests[i] == n.requests[i];
        }
      }
    }
  }

  /** The invariant holds of a constructed object after any sequence of calls. */
  lemma ConstructedStaysSynced(t: Timing, calls: seq<Call>)
    ensures Synced(Run(t, Constructed(t), calls))
  {
    RunKeepsInvariant(t, Constructed(t), calls);
  }
}
