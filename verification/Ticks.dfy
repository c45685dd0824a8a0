/** The 32-bit tick count, and the unbounded time it stands for. */
module Ticks {
  const WRAP: nat := 0x1_0000_0000       // the tick count wraps here
  const MAX_DELAY: nat := 0xFFFF_FFFF    // portMAX_DELAY

  type Word = x: nat | x < WRAP          // a 32-bit value

  /** What the tick count shows. */
  function Low(time: nat): (r: nat)
    ensures r < WRAP
  {
    time % WRAP
  }

  /** How often it has wrapped. */
  function Epoch(time: nat): nat { time / WRAP }

  /** Subtraction of 32-bit values. */
  function Minus(a: nat, b: nat): nat
    requires b < WRAP
  {
    if a >= b then a - b else WRAP + a - b
  }

  lemma Split(time: nat)
    ensures time == Epoch(time) * WRAP + Low(time)
  {
  }
}
