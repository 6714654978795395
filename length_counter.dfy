/** The audio processor's length counter: a per-channel count of frames
    left to sound, reloaded from a 32-entry table and silenced when the
    channel is disabled (apu2a03/length_counter.rs). */
module LengthCounting {
  import opened Bits

  /** Reload values, indexed by the 5-bit length index of a channel write.
      (The source spells the constant `LEGNTH_COUNTER_TABLE`.) */
  const LengthCounterTable: seq<u8> := [
    10, 254, 20, 2, 40, 4, 80, 6, 160, 8, 60, 10, 14, 12, 26, 14,
    12, 16, 24, 18, 48, 20, 96, 22, 192, 24, 72, 26, 16, 28, 32, 30
  ]

  /** Every reload value is a positive count. */
  lemma TableEntriesPositive(index: nat)
    requires index <= 0x1F
    ensures |LengthCounterTable| == 0x20 && LengthCounterTable[index] > 0
  {
  }

  class LengthCounter {
    var counter: u8
    var enabled: bool
    var halt: bool

    /** A disabled channel is silent. */
    ghost predicate Valid()
      reads this
    {
      !enabled ==> counter == 0
    }

    /** `LengthCounter::empty`. */
    constructor Empty()
      ensures Valid()
      ensures counter == 0 && !enabled && !halt
    {
      counter, enabled, halt := 0, false, false;
    }

    /** Loads the table entry for `index`, but only while enabled. */
    method ReloadCounter(index: u8)
      requires index <= 0x1F
      modifies this
      ensures enabled == old(enabled) && halt == old(halt)
      ensures enabled ==> counter == LengthCounterTable[index] && counter > 0
      ensures !enabled ==> counter == old(counter)
      ensures old(Valid()) ==> Valid()
    {
      TableEntriesPositive(index);
      if enabled {
        counter := LengthCounterTable[index];
      }
    }

    /** One length-counter clock: a disabled counter is forced to 0, a
        halted one holds, any other counts down and stops at 0. */
    method Decrement()
      modifies this
      ensures enabled == old(enabled) && halt == old(halt)
      ensures !enabled ==> counter == 0
      ensures enabled && halt ==> counter == old(counter)
      ensures enabled && !halt ==> counter == if old(counter) == 0 then 0 else old(counter) - 1
      ensures counter <= old(counter)
      ensures Valid()
    {
      if enabled {
        // saturating subtraction of 1, or of 0 while halted
        var step := if halt then 0 else 1;
        counter := if counter < step then 0 else counter - step;
      } else {
        counter := 0;
      }
    }

    /** Disabling silences the channel at once; enabling keeps the count. */
    method SetEnabled(enable: bool)
      modifies this
      ensures enabled == enable && halt == old(halt)
      ensures counter == if enable then old(counter) else 0
      ensures old(Valid()) ==> Valid()
    {
      enabled := enable;
      if !enable {
        counter := 0;
      }
    }

    method SetHalt(h: bool)
      modifies this
      ensures halt == h && enabled == old(enabled) && counter == old(counter)
      ensures old(Valid()) ==> Valid()
    {
      halt := h;
    }

    /** The current count; while the invariant holds, a disabled counter
        reads 0. */
    function Counter(): (r: u8)
      reads this
      ensures Valid() && !enabled ==> r == 0
    {
      counter
    }
  }
}
