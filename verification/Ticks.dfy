/** The 32-bit tick arithmetic of the kernel (TickType_t with 32-bit ticks). */
module Ticks {

  /** One more than the largest TickType_t value. */
  const WORD: nat := 0x1_0000_0000

  type Tick = t: int | 0 <= t < WORD

  /** portMAX_DELAY, also the item value of every list's end marker. */
  const MAX_DELAY: Tick := 0xFFFF_FFFF

  /** Unsigned 32-bit addition. */
  function Plus(a: Tick, b: Tick): Tick {
    if a + b < WORD then a + b else a + b - WORD
  }

  /** Unsigned 32-bit subtraction. */
  function Minus(a: Tick, b: Tick): Tick {
    if b <= a then a - b else a - b + WORD
  }

  /**
   * The instant at which the counter shows `t` after `epoch` wraps.  Absolute
   * instants never wrap; they are what the specifications speak about.
   */
  function Instant(epoch: nat, t: Tick): nat {
    epoch * WORD + t
  }

  /** An absolute instant determines both its epoch and the counter value. */
  lemma InstantInjective(e0: nat, t0: Tick, e1: nat, t1: Tick)
    requires Instant(e0, t0) == Instant(e1, t1)
    ensures e0 == e1 && t0 == t1
  {
  }

  /** The 32-bit sum shows the instant `d` ticks later, in this epoch or the next. */
  lemma PlusIsLater(e: nat, t: Tick, d: Tick)
    ensures Instant(if Plus(t, d) < t then e + 1 else e, Plus(t, d)) == Instant(e, t) + d
  {
  }
}
