/**
 * The six-IGBT firing register of the three-phase inverter: bits 0-5 of
 * an 8-bit register drive IGBTs 1, 3, 5, 4, 6, 2 in that order, so bit i
 * and bit i + 3 drive the two switches of one phase leg.
 */
module Commutation {

  /** The six output pins PB0-PB5. */
  const Mask: bv8 := 0x3F

  /** The register at power-up: IGBTs 1, 3 and 5 on. */
  const Initial: bv8 := 0x07

  /** Only the six output bits can be set. */
  predicate SixBits(x: bv8) {
    x & !Mask == 0
  }

  /** Bit `i` of `x` is set. */
  predicate On(x: bv8, i: nat)
    requires i < 8
  {
    (x >> i) & 1 == 1
  }

  /**
   * One commutation: a left rotation within the six output bits, bit 5
   * re-entering at bit 0. Shifting the byte left drops bit 7 where the
   * promoted C shift keeps it, but the mask clears that bit either way.
   */
  function Rotate(x: bv8): (r: bv8)
    ensures SixBits(r)
  {
    ((x << 1) | ((x >> 5) & 1)) & Mask
  }

  /** Each bit moves up one place and bit 5 wraps to bit 0. */
  lemma RotateMovesBits(x: bv8)
    ensures On(Rotate(x), 0) <==> On(x, 5)
    ensures forall i: nat :: 1 <= i < 6 ==> (On(Rotate(x), i) <==> On(x, i - 1))
    ensures !On(Rotate(x), 6) && !On(Rotate(x), 7)
  {
  }

  function Bit(x: bv8, i: nat): nat
    requires i < 8
  {
    if On(x, i) then 1 else 0
  }

  /** The number of switches the register turns on. */
  function Ones(x: bv8): (n: nat)
    ensures n <= 6
  {
    Bit(x, 0) + Bit(x, 1) + Bit(x, 2) + Bit(x, 3) + Bit(x, 4) + Bit(x, 5)
  }

  /** A rotation turns on as many switches as before. */
  lemma RotateKeepsOnes(x: bv8)
    ensures Ones(Rotate(x)) == Ones(x)
  {
    RotateMovesBits(x);
    assert On(Rotate(x), 1) <==> On(x, 0);
    assert On(Rotate(x), 2) <==> On(x, 1);
    assert On(Rotate(x), 3) <==> On(x, 2);
    assert On(Rotate(x), 4) <==> On(x, 3);
    assert On(Rotate(x), 5) <==> On(x, 4);
  }

  /** The register after `k` commutations. */
  function Rotations(x: bv8, k: nat): bv8
    decreases k
  {
    if k == 0 then x else Rotate(Rotations(x, k - 1))
  }

  /** Six commutations bring the register back. */
  lemma SixRotationsAreIdentity(x: bv8)
    requires SixBits(x)
    ensures Rotations(x, 6) == x
  {
    var r1 := Rotate(x);
    var r2 := Rotate(r1);
    var r3 := Rotate(r2);
    var r4 := Rotate(r3);
    var r5 := Rotate(r4);
    assert Rotations(x, 6) == Rotate(r5);
  }

  /**
   * The two switches of every phase leg differ: bits 0/3, 1/4 and 2/5
   * (IGBTs 1/4, 3/6 and 5/2) are never both on nor both off.
   */
  predicate Complementary(x: bv8) {
    && SixBits(x)
    && (On(x, 0) <==> !On(x, 3))
    && (On(x, 1) <==> !On(x, 4))
    && (On(x, 2) <==> !On(x, 5))
  }

  /** A register whose legs are complementary turns on exactly three switches. */
  lemma ComplementaryHasThreeOn(x: bv8)
    requires Complementary(x)
    ensures Ones(x) == 3
  {
  }

  /** A rotation keeps the legs complementary: pair (2, 5) becomes pair (3, 0). */
  lemma RotateKeepsComplementary(x: bv8)
    requires Complementary(x)
    ensures Complementary(Rotate(x))
  {
    RotateMovesBits(x);
    assert On(Rotate(x), 1) <==> On(x, 0);
    assert On(Rotate(x), 2) <==> On(x, 1);
    assert On(Rotate(x), 3) <==> On(x, 2);
    assert On(Rotate(x), 4) <==> On(x, 3);
    assert On(Rotate(x), 5) <==> On(x, 4);
  }

  /**
   * From the power-up register, after any number of commutations no phase
   * leg conducts on both switches and exactly three switches are on.
   */
  lemma {:induction false} NeverShootsThrough(k: nat)
    ensures Complementary(Rotations(Initial, k))
    ensures Ones(Rotations(Initial, k)) == 3
    decreases k
  {
    if k > 0 {
      NeverShootsThrough(k - 1);
      RotateKeepsComplementary(Rotations(Initial, k - 1));
    }
    ComplementaryHasThreeOn(Rotations(Initial, k));
  }
}
