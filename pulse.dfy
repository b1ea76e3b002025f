/**
 * The `Pulse` class of Pulse.h and Pulse.cpp. Its methods update the fields
 * in place; each one's postcondition ties the object's new snapshot to the
 * transition of the same name in PulseMachine, whose properties are proved
 * in PulseProperties.
 *
 * The hardware and the scheduler are ghost state: `outputMode` records the
 * `pinMode(pin, OUTPUT)` call, `writes` every `digitalWrite`, and `requests`
 * the delay of every `runLater` on the object's one-slot `Actions` queue.
 */
module PulseClass {
  import opened PulseTypes
  import opened PulseMachine
  import PulseProperties

  class Pulse {
    const onTime: UInt32
    const offTime: UInt32
    const pin: int
    var pinState: bool
    var state: State

    /** The constructor's `delay` argument and the duty cycle it kept. */
    ghost const delay: UInt16
    ghost const dutyCycle: UInt16

    ghost var outputMode: bool
    ghost var writes: seq<bool>
    ghost var requests: seq<nat>

    /** The two half-periods. */
    function Times(): Timing
    {
      Timing(onTime, offTime)
    }

    ghost function Snap(): Snapshot
      reads this
    {
      Snapshot(state, pinState, writes, requests)
    }

    /** What the constructor establishes before its call to `start`, and nothing changes afterwards. */
    ghost predicate Configured()
      reads this
    {
      outputMode && 1 <= dutyCycle <= 99 && Times() == TimingFor(delay, dutyCycle)
    }

    /** The object invariant: configured, and the pin shows `pinState`. */
    ghost predicate Valid()
      reads this
    {
      Configured() && Synced(Snap())
    }

    /** `Pulse(delay, pin, dutyCycle)`: computes the timing and starts blinking. */
    constructor (delay: UInt16 := DEFAULT_DELAY, pin: int := DEFAULT_PIN, dutyCycle: UInt16 := DEFAULT_DUTY_CYCLE)
      ensures Valid()
      ensures this.pin == pin && this.delay == delay && this.dutyCycle == ClampDuty(dutyCycle)
      ensures Times() == TimingFor(delay, dutyCycle)
      ensures onTime + offTime == delay * 1000
      ensures Snap() == Constructed(Times())
      ensures state == Running && pinState == HIGH && writes == [HIGH] && requests == [onTime]
    {
      var duty := dutyCycle;
      if duty < 1 || duty > 99 {
        duty := 50;
      }
      assert duty == ClampDuty(dutyCycle);
      this.pin := pin;
      this.delay := delay;
      this.dutyCycle := duty;
      ProductBound(duty, delay);
      ProductBound(100 - duty, delay);
      onTime := WrapULong(duty * delay * 10);
      offTime := WrapULong((100 - duty) * delay * 10);
      pinState := LOW;
      state := Stopped;
      outputMode := false;
      writes := [];
      requests := [];
      new;
      outputMode := true;
      var started := Start();
    }

    /** `digitalWrite(pin, level)`. */
    ghost method DigitalWrite(level: bool)
      modifies this`writes
      ensures writes == old(writes) + [level]
    {
      writes := writes + [level];
    }

    /** `pulse.runLater(this, &Pulse::blink, micros, true)`. */
    ghost method RunLater(micros: nat)
      modifies this`requests
      ensures requests == old(requests) + [micros]
    {
      requests := requests + [micros];
    }

    /** `start()`: accepted only when stopped; then toggles at once. */
    method Start() returns (ok: bool)
      requires Configured()
      modifies this`state, this`pinState, this`writes, this`requests
      ensures Configured()
      ensures Reply(ok, Snap()) == PulseMachine.Start(Times(), old(Snap()))
      ensures ok || old(Valid()) ==> Valid()
    {
      if state == Stopped {
        state := Running;
        Blink();
        return true;
      } else {
        return false;
      }
    }

    /** `stop(stopState)`: accepted only when running; the pin is left to the next `blink`. */
    method Stop(stopState: int) returns (ok: bool)
      requires Valid()
      modifies this`state
      ensures Valid()
      ensures Reply(ok, Snap()) == PulseMachine.Stop(old(Snap()), stopState)
    {
      if state == Running {
        if stopState != 0 {
          state := StopHigh;
        } else {
          state := StopLow;
        }
        return true;
      } else {
        return false;
      }
    }

    /** `blink()`: the toggle the scheduler calls back into. */
    method Blink()
      requires Configured()
      modifies this`state, this`pinState, this`writes, this`requests
      ensures Valid()
      ensures Snap() == PulseMachine.Blink(Times(), old(Snap()))
    {
      pinState := !pinState;
      DigitalWrite(pinState);
      if state == Running {
        if pinState {
          RunLater(onTime);
        } else {
          RunLater(offTime);
        }
      } else if state == StopHigh {
        DigitalWrite(HIGH);
        pinState := HIGH;
        state := Stopped;
      } else if state == StopLow {
        DigitalWrite(LOW);
        pinState := LOW;
        state := Stopped;
      }
    }
  }

  /**
   * A caller's view: with the default arguments the pin goes HIGH at once,
   * a stop to LOW keeps it HIGH until the next callback, which leaves it LOW
   * and stopped, after which the object can be started again.
   */
  method StopLowScenario()
  {
    var p := new Pulse();
    PulseProperties.DefaultTiming();
    assert p.onTime == 500000 && p.offTime == 500000;
    assert p.pinState == HIGH && p.requests == [500000];
    var again := p.Start();
    assert !again;
    ghost var running := p.Snap();
    PulseProperties.StopIsDeferred(p.Times(), running, 0);
    var stopped := p.Stop(0);
    assert stopped && p.pinState == HIGH && p.state == StopLow;
    p.Blink();
    assert p.state == Stopped && p.pinState == LOW && p.requests == [500000];
    var restarted := p.Start();
    assert restarted && p.pinState == HIGH;
  }
}
