/**
 Java language and java.util.concurrent behaviour that the connection factory
 relies on: the fixed-width integer types, the narrowing cast to `short`, and
 `AtomicBoolean.compareAndSet` on a single flag, taken as one atomic step.
 */
module Jvm {

  /** Java `short`: 16-bit two's complement. */
  type int16 = x: int | -0x8000 <= x < 0x8000

  /** Java `int`: 32-bit two's complement. */
  type int32 = x: int | -0x8000_0000 <= x < 0x8000_0000

  /** The cast `(short)v` on an `int`: keeps the low 16 bits, read as two's complement. */
  function ToShort(v: int32): (r: int16)
    ensures (v - r) % 0x1_0000 == 0
    ensures -0x8000 <= v < 0x8000 ==> r == v
  {
    var low := v % 0x1_0000;
    if low < 0x8000 then low else low - 0x1_0000
  }

  /**
   `compareAndSet(expected, update)` on a flag currently holding `flag`: the flag's new
   value and whether the swap took place.
   */
  function CompareAndSet(flag: bool, expected: bool, update: bool): (bool, bool)
  {
    if flag == expected then (update, true) else (flag, false)
  }
}
