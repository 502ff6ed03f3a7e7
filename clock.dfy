/**
 * The unsigned 32-bit clocks of the wearable firmware: `millis()` and
 * `micros()` return counters that wrap around modulo 2^32, and every
 * elapsed-time test in the main loop is written as an unsigned subtraction
 * (optionally reinterpreted as a signed 32-bit value).
 */
module Clock {

  /** 2^32, the period of every `uint32_t` / `unsigned long` counter. */
  const Modulus: int := 0x1_0000_0000

  /** 2^31, the first bit pattern that reads as negative through an `(int32_t)` cast. */
  const HalfModulus: int := 0x8000_0000

  /** A value of a 32-bit unsigned counter. */
  type u32 = x: int | 0 <= x < 0x1_0000_0000

  /** Unsigned 32-bit subtraction `a - b`, wrapping modulo 2^32. */
  function Sub(a: u32, b: u32): (d: u32)
    ensures b <= a ==> d == a - b
    ensures a < b ==> d == a - b + Modulus
    ensures (b + d) % Modulus == a
  {
    (a - b) % Modulus
  }

  /** Unsigned 32-bit addition `a + k`, wrapping modulo 2^32. */
  function Add(a: u32, k: nat): (s: u32)
    ensures Sub(s, a) == k % Modulus
  {
    (a + k) % Modulus
  }

  /** The two's-complement reading of a 32-bit pattern: the `(int32_t)` / `(int)` cast. */
  function AsInt32(x: u32): (i: int)
    ensures -HalfModulus <= i < HalfModulus
    ensures (i - x) % Modulus == 0
    ensures i >= 0 <==> x < HalfModulus
  {
    if x < HalfModulus then x else x - Modulus
  }

  /**
   * The wrap-safe deadline test `(int32_t)(now - due) >= 0`: it holds when
   * `now` is at most 2^31 - 1 ticks past `due`, and fails when `now` is up
   * to 2^31 ticks before it, wherever the two sit on the 32-bit circle.
   */
  lemma {:induction false} DeadlineTestIsWrapSafe(due: u32, k: nat)
    ensures k < HalfModulus ==> AsInt32(Sub(Add(due, k), due)) >= 0
    ensures 0 < k <= HalfModulus ==> AsInt32(Sub(Add(due, Modulus - k), due)) < 0
  {
    if 0 < k <= HalfModulus {
      var before := Add(due, Modulus - k);
      assert Sub(before, due) == (Modulus - k) % Modulus;
      assert (Modulus - k) % Modulus == Modulus - k;
    }
  }
}
