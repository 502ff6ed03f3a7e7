/**
 * The inverter program's state: the firing register `reg` and the output
 * port it is copied to.
 */
module Inverter {
  import opened Commutation

  class Driver {
    /** The firing register. */
    var reg: bv8
    /** The last value written to PORTB. */
    var portB: bv8

    /** Every leg complementary: no shoot-through, three switches on. */
    predicate Valid()
      reads this
    {
      Complementary(reg)
    }

    /** `reg` starts at 0b000111 and `setup` drives every output LOW. */
    constructor ()
      ensures Valid()
      ensures reg == Initial && portB == 0
    {
      reg := Initial;
      portB := 0;
    }

    /**
     * `nextCommutation`: the register is rotated and the port receives the
     * new register; the legs stay complementary.
     */
    method NextCommutation()
      requires Valid()
      modifies this
      ensures Valid()
      ensures reg == Rotate(old(reg)) && portB == reg
      ensures Ones(portB) == 3
    {
      reg := ((reg << 1) | ((reg >> 5) & 1)) & Mask;
      portB := reg;
      RotateKeepsComplementary(old(reg));
      ComplementaryHasThreeOn(reg);
    }
  }
}
