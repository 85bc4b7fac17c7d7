/**
 User/enc28j60/lowlayer/src/enc28j60_ll.c: setting and clearing bits of a register in one command. The chip does it in
 one step, so nothing can come between reading and writing, as it can when the driver writes a copy back.
 */
module BitFields {
  import opened Bytes
  import opened RegisterMap
  import opened ChipModel
  import opened RxRing
  import opened Environment
  import opened Quiescence
  import opened Port
  import opened Device
  import opened Registers
  import opened Interface

  // ---------- The commands ----------

  /** The chip after a bit field command that took effect in `c`. */
  function Changed(c: Chip, addr: int, mask: byte, setting: bool): Chip
    requires 0 <= addr < 0x20
  {
    ChangeBits(c, addr, mask, setting).(phase := Deselected)
  }

  /** A bit field command on ECON1 must not touch the bank select bits. */
  predicate SparesBank(reg: Reg, mask: byte) {
    reg.bank == Common && reg.addr == 0x1f ==> mask % 4 == 0
  }

  lemma LowTwoBits(v: byte)
    ensures v % 4 == Num(Bit(v, 1)) + 2 * Num(Bit(v, 2))
  {
  }

  lemma ChangeKeepsLowBits(v: byte, mask: byte)
    requires mask % 4 == 0
    ensures Or(v, mask) % 4 == v % 4 && AndNot(v, mask) % 4 == v % 4
  {
    LowTwoBits(v);
    LowTwoBits(mask);
    LowTwoBits(Or(v, mask));
    LowTwoBits(AndNot(v, mask));
    hide Bit, Or, AndNot;
    OrBits(v, mask);
    AndNotBits(v, mask);
  }

  lemma ChangedKeepsBank(c: Chip, addr: int, mask: byte, setting: bool)
    requires 0 <= addr < 0x20 && (addr == 0x1f ==> mask % 4 == 0)
    ensures Bsel(Changed(c, addr, mask, setting)) == Bsel(c) && Changed(c, addr, mask, setting).phase.Deselected?
  {
    hide Or, AndNot, Econ1Byte, Peek, SendsDummy, Store, Bit;
    var v := if setting then Or(Peek(c, addr), mask) else AndNot(Peek(c, addr), mask);
    if addr == 0x1f {
      PeekEcon1(c);
      ChangeKeepsLowBits(Econ1Byte(c.econ1), mask);
    }
    StoreKeepsBank(c, addr, v);
  }

  /**
   enc28j60_bitfield_set and enc28j60_bitfield_clear, which differ in the opcode only. They act on ETH registers, and do
   nothing at all for others. The bits change in the state `m`.
   */
  method ChangeField(dev: Enc28j60, reg: Reg, mask: byte, setting: bool) returns (ghost m: Chip)
    requires Mapped(reg) && (reg.kind == Eth ==> CanAccess(dev, reg)) && SparesBank(reg, mask)
    modifies dev`bank, dev.io
    ensures old(dev.Coherent()) ==> dev.Coherent()
    ensures reg.kind != Eth ==> dev.io.chip == old(dev.io.chip) && dev.bank == old(dev.bank)
    ensures reg.kind == Eth ==>
              && dev.io.chip.phase.Deselected?
              && dev.bank == (if NeedsSwitch(old(dev.bank), reg) then reg.bank else old(dev.bank))
              && Undisturbed(old(dev.io.chip), m) && m.cells == old(dev.io.chip).cells
              && (reg.bank != Common ==> Bsel(m) == BankNumber(reg.bank))
              && (!NeedsSwitch(old(dev.bank), reg) ==> Evolves(old(dev.io.chip), m))
              && dev.io.chip == Changed(m, reg.addr, mask, setting)
    ensures dev.io.clocked
             == old(dev.io.clocked) + if reg.kind != Eth then []
                                      else SwitchBytes(old(dev.io.chip), old(dev.bank), reg)
                                           + [(if setting then 0x80 else 0xa0) + reg.addr, mask]
  {
    hide Bus.Faithful, Evolves, Undisturbed, ChangeBits;
    m := dev.io.chip;
    if reg.kind == Eth {
      ghost var c := dev.io.chip;
      EnterBank(dev, reg);
      ghost var c1 := dev.io.chip;
      dev.io.CsLow();
      ghost var c2 := dev.io.chip;
      m := dev.io.SendMask8((if setting then BIT_FIELD_SET else BIT_FIELD_CLEAR) + reg.addr, mask);
      EvolvesTransitive(c1, c2, m);
      ThenEvolves(c, c1, m);
      EvolvesKeepsBank(c1, m);
      dev.io.CsHigh();
      ChangedKeepsBank(m, reg.addr, mask, setting);
    }
  }

  // ---------- In one step, or with a copy ----------

  lemma ChangedStores(c: Chip, v: byte)
    requires v == Or(Peek(c, 0x1e), 64)
    ensures Changed(c, 0x1e, 64, true) == Stored(c, 0x1e, v)
  {
    hide Or, Peek, Store;
  }

  /**
   PKTDEC set in one command, as the code plans to: it does what DecrementCount does with a copy of ECON2, whatever
   arrives in between.
   */
  method DecrementAtOnce(dev: Enc28j60)
    requires dev.io.chip.phase.Deselected? && dev.Coherent() && Calm(dev.io.chip)
    requires Ring(dev.io.chip, dev.nextRxPacketPtr, dev.taken, 1)
    modifies dev`bank, dev.io
    ensures dev.io.chip.phase.Deselected? && dev.Coherent()
    ensures Ring(dev.io.chip, dev.nextRxPacketPtr, dev.taken, 0)
    ensures TxSideKept(old(dev.io.chip), dev.io.chip) && dev.io.chip.cells == old(dev.io.chip).cells
  {
    hide Bus.Faithful, Ring, Undisturbed, Evolves, Stored, TxSideKept, SetBit, Econ2Byte, Peek, Or, Changed;
    ghost var c, head, taken := dev.io.chip, dev.nextRxPacketPtr, dev.taken;
    ghost var m := ChangeField(dev, ECON2, 64, true);
    OrSets(Econ2Byte(m.econ2));
    PeekEcon2(m);
    PacketDecrementBits(m.econ2);
    ChangedStores(m, SetBit(Econ2Byte(m.econ2), 64));
    CountedOff(c, m, dev.io.chip, head, taken);
  }

  /** Bits of ECON1 may be set while a packet is being sent: the transmission goes on, and no other is started. */
  lemma SetDuringTransmission(c: Chip, mask: byte)
    requires Transmitting(c)
    ensures var e := Changed(c, 0x1f, mask, true);
            Transmitting(e) && e.violations == c.violations && e == c.(econ1 := e.econ1, phase := Deselected)
  {
    PeekEcon1(c);
    OrBits(Econ1Byte(c.econ1), mask);
    hide Or, Econ1Byte, Peek;
  }

  /** A copy `v` of ECON1 read during a transmission and written back after its end sends the packet a second time. */
  lemma StaleCopyRestarts(c: Chip, d: Chip, v: byte)
    requires Econ1Of(v) == c.econ1 && Transmitting(c) && !Transmitting(d)
    ensures Stored(d, 0x1f, v).sent == d.sent + [TxBytes(d)]
  {
    hide TxBytes, Econ1Of;
  }
}
