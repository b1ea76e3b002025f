/**
 * The declarations of Pulse.h: the integer widths the fields are held in,
 * the two pin levels, the four state codes and the default constructor
 * arguments.
 */
module PulseTypes {

  /**
   * An `unsigned int`, taken here to be 16 bits wide (as on 8-bit AVR
   * boards); the width is a modelling choice, the source names no board.
   */
  type UInt16 = x: int | 0 <= x < 0x1_0000

  /** An `unsigned long` (32 bits), the width of `onTime` and `offTime`. */
  type UInt32 = x: int | 0 <= x < 0x1_0000_0000

  const UINT32_MODULUS: int := 0x1_0000_0000

  /** Pin levels: `pinState` is only ever LOW (0) or the result of `!`, so a boolean. */
  const LOW: bool := false
  const HIGH: bool := true

  /** Default constructor arguments. */
  const DEFAULT_DELAY: UInt16 := 1000
  const DEFAULT_PIN: int := 13
  const DEFAULT_DUTY_CYCLE: UInt16 := 50

  /** The four values the `state` field takes. */
  datatype State = Stopped | Running | StopLow | StopHigh {

    /** The integer constant the header gives each state. */
    function Code(): (c: int)
      ensures 0 <= c <= 3
      ensures c == 0 <==> this == Stopped
    {
      match this
      case Stopped => 0
      case Running => 1
      case StopLow => 2
      case StopHigh => 3
    }
  }

  /** Reads a stored state code back; `None` for a code the header does not define. */
  function StateOfCode(c: int): (r: Option<State>)
    ensures r.Some? <==> 0 <= c <= 3
    ensures r.Some? ==> r.value.Code() == c
  {
    if c == 0 then Some(Stopped)
    else if c == 1 then Some(Running)
    else if c == 2 then Some(StopLow)
    else if c == 3 then Some(StopHigh)
    else None
  }

  datatype Option<T> = None | Some(value: T)

  /** The four codes are pairwise distinct, and each decodes to its own state. */
  lemma CodesAreDistinct(a: State, b: State)
    ensures a.Code() == b.Code() <==> a == b
    ensures StateOfCode(a.Code()) == Some(a)
  {
  }
}
