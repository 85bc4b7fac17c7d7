/** User/enc28j60/lowlayer/src/enc28j60_ll.c and enc28j60_init: reset, self-test and initialisation. */
module BringUp {
  import opened Bytes
  import opened RegisterMap
  import opened ChipModel
  import opened RxRing
  import opened Environment
  import opened Quiescence
  import opened Port
  import opened Device
  import opened Registers
  import opened BufferAccess
  import opened PhyAccess
  import opened Interface
  import opened Transmission

  /** What configuring leaves alone, beside the registers written. */
  predicate Settled(c: Chip, d: Chip) {
    && d.violations == c.violations && d.econ1.(bsel := c.econ1.bsel) == c.econ1 && d.econ2 == c.econ2
    && d.packets == c.packets && d.mem == c.mem && d.log == c.log && d.sent == c.sent && d.rom == c.rom
    && d.mii.Idle? && d.phy == c.phy && (c.clockWait == 0 ==> d.clockWait == 0)
  }

  /** A two-byte pointer register or a MAC or ETH register without a management side effect. */
  predicate ConfigReg(reg: Reg) {
    && Mapped(reg) && reg.kind != Phy && reg.bank != Common && DriverOwned(reg)
    && CellOf(reg) !in {9, 81, 82, 86, 87, 12 + 1}
    && (reg.bank == Bank0 ==> reg.length == 2 && reg.addr % 2 == 0)
  }

  lemma SettledTransitive(c: Chip, d: Chip, e: Chip)
    requires Settled(c, d) && Settled(d, e)
    ensures Settled(c, e)
  {
  }

  lemma UndisturbedSettled(c: Chip, d: Chip)
    requires Undisturbed(c, d) && Configurable(c)
    ensures Settled(c, d) && d.rxWrite == c.rxWrite && d.rxGuard == c.rxGuard && Configurable(d)
  {
    UndisturbedConfigured(c, d);
    hide Undisturbed;
  }

  lemma StoreConfig(m: Chip, reg: Reg, k: int, v: byte)
    requires ConfigReg(reg) && 0 <= k < reg.length && Bsel(m) == BankNumber(reg.bank) && m.mii.Idle?
    ensures var e := Stored(m, reg.addr + k, v);
            && Settled(m, e) && e.cells == Put(m.cells, CellOf(reg) + k, v)
            && e.rxWrite == (if CellOf(reg) == 0x08 then Pointer(e.cells, 0x08) else m.rxWrite)
            && e.rxGuard == (if CellOf(reg) == 0x0c && k == 1 then Pointer(e.cells, 0x0c) else m.rxGuard)
  {
    hide Pointer, Implemented, Econ1Of, Econ1Byte, Econ2Byte, TxBytes, Bit, SendsDummy;
  }

  lemma ConfigWritten(c: Chip, m1: Chip, m2: Chip, e: Chip, reg: Reg, value: word)
    requires ConfigReg(reg) && Configurable(c) && Undisturbed(c, m1) && m1.cells == c.cells
    requires Bsel(m1) == BankNumber(reg.bank)
    requires reg.length == 1 ==> e == Stored(m1, reg.addr, Lo(value))
    requires reg.length == 2 ==>
               && Evolves(Stored(m1, reg.addr, Lo(value)), m2) && Bsel(m2) == Bsel(m1)
               && e == Stored(m2, reg.addr + 1, Hi(value))
    ensures Settled(c, e) && Configurable(e)
    ensures e.rxWrite == if Touches(reg, 0x08) then Pointer(e.cells, 0x08) else c.rxWrite
    ensures e.rxGuard == if Touches(reg, 0x0d) then Pointer(e.cells, 0x0c) else c.rxGuard
  {
    hide Evolves, Undisturbed, Stored, SendsDummy, ReadOnly;
    UndisturbedSettled(c, m1);
    StoreConfig(m1, reg, 0, Lo(value));
    if reg.length == 2 {
      var e1 := Stored(m1, reg.addr, Lo(value));
      EvolvesIsUndisturbed(e1, m2);
      UndisturbedSettled(e1, m2);
      StoreConfig(m2, reg, 1, Hi(value));
    }
  }

  /** A register written while the chip is being configured. */
  method WriteConfig(dev: Enc28j60, reg: Reg, value: word)
    requires dev.io.chip.phase.Deselected? && dev.Coherent() && Configurable(dev.io.chip) && ConfigReg(reg)
    modifies dev`bank, dev.io
    ensures dev.io.chip.phase.Deselected? && dev.Coherent() && Configurable(dev.io.chip)
    ensures dev.bank == reg.bank
    ensures Settled(old(dev.io.chip), dev.io.chip)
    ensures var c, d := old(dev.io.chip), dev.io.chip;
            && d.rxWrite == (if Touches(reg, 0x08) then Pointer(d.cells, 0x08) else c.rxWrite)
            && d.rxGuard == (if Touches(reg, 0x0d) then Pointer(d.cells, 0x0c) else c.rxGuard)
    ensures dev.io.chip.cells == Written(old(dev.io.chip).cells, reg, value)
  {
    hide Bus.Faithful, Evolves, Undisturbed, Stored, Written, Settled, Touches, Pointer;
    ghost var c := dev.io.chip;
    ghost var m1, m2 := WriteControlReg(dev, reg, value);
    ConfigWritten(c, m1, m2, dev.io.chip, reg, value);
  }

  /** A register read while the chip is being configured. */
  method ReadConfig(dev: Enc28j60, reg: Reg) returns (value: word)
    requires dev.io.chip.phase.Deselected? && dev.Coherent() && Configurable(dev.io.chip) && ConfigReg(reg)
    modifies dev`bank, dev.io
    ensures dev.io.chip.phase.Deselected? && dev.Coherent() && Configurable(dev.io.chip)
    ensures dev.bank == reg.bank
    ensures Settled(old(dev.io.chip), dev.io.chip) && dev.io.chip.cells == old(dev.io.chip).cells
    ensures dev.io.chip.rxWrite == old(dev.io.chip).rxWrite && dev.io.chip.rxGuard == old(dev.io.chip).rxGuard
    ensures var cells := old(dev.io.chip).cells;
            value == if reg.length == 1 then cells[CellOf(reg)] else Join(cells[CellOf(reg)], cells[CellOf(reg) + 1])
  {
    hide Bus.Faithful, Evolves, Undisturbed, Settled, Peek;
    ghost var c := dev.io.chip;
    value := ReadControlReg(dev, reg);
    UndisturbedSettled(c, dev.io.chip);
    if reg.length == 1 {
      PeekIsCell(dev.io.chip, reg, 0);
    }
  }

  // ---------- Reset ----------

  /** Every register has its reset value, and nothing is under way. */
  predicate AfterReset(c: Chip) {
    && c.cells == c.rom.cells && c.econ1 == Econ1(0, false, false, 0) && c.econ2 == c.rom.econ2
    && c.rxWrite == Pointer(c.rom.cells, 0x08) && c.rxGuard == Pointer(c.rom.cells, 0x0c)
    && c.packets == 0 && c.mii.Idle? && c.phy == c.rom.phy
  }

  lemma EvolvesBeforeReset(c: Chip, d: Chip)
    requires Evolves(c, d)
    ensures d.violations == c.violations && d.sent == c.sent && d.rom == c.rom && c.log <= d.log
    ensures !RxEnabled(c) ==> d.log == c.log
    ensures !RxEnabled(c) && !Transmitting(c) ==> d.mem == c.mem
  {
  }

  /** enc28j60_soft_reset. The bank cache is not touched, so it has to be unknown or 0 before. */
  method SoftReset(dev: Enc28j60)
    requires dev.io.Faithful()
    requires dev.io.chip.phase.Deselected? && (dev.bank == Common || dev.bank == Bank0)
    modifies dev.io
    ensures dev.io.chip.phase.Deselected? && dev.Coherent() && AfterReset(dev.io.chip)
    ensures dev.io.chip.violations == old(dev.io.chip).violations && dev.io.chip.sent == old(dev.io.chip).sent
    ensures dev.io.chip.rom == old(dev.io.chip).rom && old(dev.io.chip).log <= dev.io.chip.log
    ensures !RxEnabled(old(dev.io.chip)) ==> dev.io.chip.log == old(dev.io.chip).log
    ensures !RxEnabled(old(dev.io.chip)) && !Transmitting(old(dev.io.chip)) ==> dev.io.chip.mem == old(dev.io.chip).mem
    ensures dev.io.clocked == old(dev.io.clocked) + [0xff]
  {
    hide Bus.Faithful, Evolves;
    ghost var c := dev.io.chip;
    dev.io.CsLow();
    ghost var c1 := dev.io.chip;
    var answer;
    ghost var m;
    answer, m := dev.io.SendShortCmd(SYSTEM_RESET + SOFT_RESET_ARG);
    EvolvesTransitive(c, c1, m);
    EvolvesBeforeReset(c, m);
    dev.io.CsHigh();
  }

  // ---------- Waiting for the clock, pointer auto-increment ----------

  lemma PeekClock(c: Chip)
    ensures Bit(Peek(c, 0x1d), 1) <==> c.clockWait == 0
  {
  }

  lemma ClockGetsCloser(c: Chip, d: Chip)
    requires Evolves(c, d) && c.clockWait > 0
    ensures d.clockWait < c.clockWait
  {
  }

  /** What the configured registers are, beside the cells. */
  predicate SamePointers(c: Chip, d: Chip) {
    d.cells == c.cells && d.rxWrite == c.rxWrite && d.rxGuard == c.rxGuard
  }

  /** Polls ESTAT until CLKRDY is set. */
  method AwaitClock(dev: Enc28j60)
    requires dev.io.chip.phase.Deselected? && dev.Coherent() && Configurable(dev.io.chip)
    modifies dev`bank, dev.io
    ensures dev.io.chip.phase.Deselected? && dev.Coherent() && Configurable(dev.io.chip) && dev.bank == old(dev.bank)
    ensures Settled(old(dev.io.chip), dev.io.chip) && SamePointers(old(dev.io.chip), dev.io.chip)
    ensures dev.io.chip.clockWait == 0
  {
    hide Bus.Faithful, Evolves, Undisturbed, Peek, Settled;
    ghost var c := dev.io.chip;
    var status := ReadControlReg(dev, ESTAT);
    UndisturbedSettled(c, dev.io.chip);
    PeekClock(dev.io.chip);
    while !Bit(Lo(status), 1)
      invariant dev.io.chip.phase.Deselected? && dev.Coherent() && Configurable(dev.io.chip)
      invariant dev.bank == old(dev.bank)
      invariant Settled(c, dev.io.chip) && SamePointers(c, dev.io.chip)
      invariant Bit(Lo(status), 1) <==> dev.io.chip.clockWait == 0
      decreases dev.io.chip.clockWait
    {
      ghost var d := dev.io.chip;
      status := ReadControlReg(dev, ESTAT);
      UndisturbedSettled(d, dev.io.chip);
      SettledTransitive(c, d, dev.io.chip);
      PeekClock(dev.io.chip);
      ClockGetsCloser(d, dev.io.chip);
    }
  }

  lemma AutoincBits(e: Econ2)
    ensures var v := SetBit(Econ2Byte(e), 128);
            0 <= v < 0x100 && Econ2(Bit(v, 128), v / 8 % 8) == e.(autoinc := true) && !Bit(v, 64)
  {
    var b := Econ2Byte(e);
    var a := if e.autoinc then 1 else 0;
    assert b == 8 * e.middle + 128 * a;
    assert b / 128 == a;
    var v := SetBit(b, 128);
    assert v == 8 * e.middle + 128;
    assert v / 64 == 2 && v / 128 == 1 && v / 8 == e.middle + 16;
  }

  lemma StoreAutoinc(m: Chip)
    ensures 0 <= SetBit(Econ2Byte(m.econ2), 128) < 0x100
    ensures Stored(m, 0x1e, SetBit(Econ2Byte(m.econ2), 128))
            == m.(econ2 := m.econ2.(autoinc := true), phase := Deselected)
  {
    AutoincBits(m.econ2);
    hide SetBit, Bit, Econ2Byte;
  }

  /** ECON2 is read, AUTOINC set in the copy, and the copy written back. */
  method SetAutoinc(dev: Enc28j60)
    requires dev.io.chip.phase.Deselected? && dev.Coherent() && Configurable(dev.io.chip)
    modifies dev`bank, dev.io
    ensures dev.io.chip.phase.Deselected? && dev.Coherent() && Configurable(dev.io.chip) && dev.bank == old(dev.bank)
    ensures dev.io.chip.econ2 == old(dev.io.chip).econ2.(autoinc := true)
    ensures Settled(old(dev.io.chip), dev.io.chip.(econ2 := old(dev.io.chip).econ2))
    ensures SamePointers(old(dev.io.chip), dev.io.chip)
    ensures dev.io.clocked == old(dev.io.clocked) + [0x1e, 0x00, 0x5e, Or(Peek(old(dev.io.chip), 0x1e), 128)]
  {
    hide Bus.Faithful, Evolves, Undisturbed, Peek, Settled, Stored, SetBit, Econ2Byte, Or, SwitchBytes, ReadBytes,
         WriteBytes;
    ghost var c, wire := dev.io.chip, dev.io.clocked;
    var status := ReadControlReg(dev, ECON2);
    ghost var c1 := dev.io.chip;
    UndisturbedSettled(c, c1);
    PeekEcon2(c1);
    StoreAutoinc(c1);
    PeekEcon2(c);
    SettledEcon2(c, c1);
    OrSets(Econ2Byte(c.econ2));
    ghost var wire1 := dev.io.clocked;
    ghost var m1, m2 := WriteControlReg(dev, ECON2, SetBit(status, 128));
    CopyBytes(c, c1, old(dev.bank), ECON2, SetBit(status, 128), wire, wire1, dev.io.clocked);
    AutoincWritten(c, c1, m1, dev.io.chip);
  }

  lemma SettledEcon2(c: Chip, d: Chip)
    requires Settled(c, d)
    ensures d.econ2 == c.econ2
  {
  }

  lemma AutoincWritten(c: Chip, c1: Chip, m: Chip, e: Chip)
    requires Settled(c, c1) && Configurable(c1) && SamePointers(c, c1) && Undisturbed(c1, m) && m.cells == c1.cells
    requires 0 <= SetBit(Econ2Byte(c1.econ2), 128) < 0x100 && e == Stored(m, 0x1e, SetBit(Econ2Byte(c1.econ2), 128))
    ensures e.econ2 == c.econ2.(autoinc := true) && Settled(c, e.(econ2 := c.econ2)) && SamePointers(c, e)
    ensures Configurable(e)
    ensures Bsel(e) == Bsel(m)
  {
    UndisturbedSettled(c1, m);
    SettledTransitive(c, c1, m);
    StoreAutoinc(m);
    hide Undisturbed, Stored, SetBit, Econ2Byte;
  }

  // ---------- Initialisation, stage by stage ----------

  datatype MacAddress = MacAddress(addr1: byte, addr2: byte, addr3: byte, addr4: byte, addr5: byte, addr6: byte)

  function RingCells(cells: Cells): Cells {
    Written(Written(Written(cells, ERXST, RX_START), ERXND, RX_END), ERXRDPT, RX_END)
  }

  /** The receive buffer's bounds, and ERXRDPT at its end. */
  method InitRing(dev: Enc28j60)
    requires dev.io.chip.phase.Deselected? && dev.Coherent() && Configurable(dev.io.chip)
    modifies dev`bank, dev.io
    ensures dev.io.chip.phase.Deselected? && dev.Coherent() && Configurable(dev.io.chip)
    ensures Settled(old(dev.io.chip), dev.io.chip) && dev.io.chip.cells == RingCells(old(dev.io.chip).cells)
    ensures dev.io.chip.rxWrite == RX_START && dev.io.chip.rxGuard == RX_END
  {
    hide Bus.Faithful, Settled, Written, Pointer, Configurable;
    ghost var c := dev.io.chip;
    WriteConfig(dev, ERXST, RX_START);
    ghost var c1 := dev.io.chip;
    WrittenPointer(c.cells, ERXST, RX_START);
    WriteConfig(dev, ERXND, RX_END);
    ghost var c2 := dev.io.chip;
    SettledTransitive(c, c1, c2);
    WriteConfig(dev, ERXRDPT, RX_END);
    WrittenPointer(c2.cells, ERXRDPT, RX_END);
    SettledTransitive(c, c2, dev.io.chip);
  }

  function FilterCells(cells: Cells): Cells
  {
    SetBit32(cells[56]);
    Written(cells, ERXFCON, SetBit(cells[56], 32))
  }

  /** CRCEN is set in ERXFCON. */
  method InitFilter(dev: Enc28j60)
    requires dev.io.chip.phase.Deselected? && dev.Coherent() && Configurable(dev.io.chip)
    modifies dev`bank, dev.io
    ensures dev.io.chip.phase.Deselected? && dev.Coherent() && Configurable(dev.io.chip)
    ensures Settled(old(dev.io.chip), dev.io.chip) && dev.io.chip.cells == FilterCells(old(dev.io.chip).cells)
    ensures dev.io.chip.rxWrite == old(dev.io.chip).rxWrite && dev.io.chip.rxGuard == old(dev.io.chip).rxGuard
  {
    hide Bus.Faithful, Settled, Written, Pointer, Configurable, SetBit;
    ghost var c := dev.io.chip;
    var status := ReadConfig(dev, ERXFCON);
    ghost var c1 := dev.io.chip;
    SetBit32(c.cells[56]);
    WriteConfig(dev, ERXFCON, SetBit(status, 32));
    SettledTransitive(c, c1, dev.io.chip);
  }

  /** MARXEN, TXPAUS and RXPAUS. */
  function Macon1(v: byte): byte {
    SetBit1(v);
    SetBit8(SetBit(v, 1));
    SetBit4(SetBit(SetBit(v, 1), 8));
    SetBit(SetBit(SetBit(v, 1), 8), 4)
  }

  /** Padding to sixty bytes, TXCRCEN, FRMLNEN and FULLDPX. */
  function Macon3(v: byte): byte {
    var padded := v % 32 + 32;
    SetBit16(padded);
    SetBit2(SetBit(padded, 16));
    SetBit1(SetBit(SetBit(padded, 16), 2));
    SetBit(SetBit(SetBit(padded, 16), 2), 1)
  }

  function MacCells(cells: Cells): Cells {
    var a := Written(cells, MACON1, Macon1(cells[64]));
    var b := Written(a, MACON3, Macon3(a[66]));
    Written(Written(b, MAMXFL, 1518), MABBIPG, 0x15)
  }

  /** The MAC control registers, the longest frame, and the gap between frames. */
  method InitMac(dev: Enc28j60)
    requires dev.io.chip.phase.Deselected? && dev.Coherent() && Configurable(dev.io.chip)
    modifies dev`bank, dev.io
    ensures dev.io.chip.phase.Deselected? && dev.Coherent() && Configurable(dev.io.chip)
    ensures Settled(old(dev.io.chip), dev.io.chip) && dev.io.chip.cells == MacCells(old(dev.io.chip).cells)
    ensures dev.io.chip.rxWrite == old(dev.io.chip).rxWrite && dev.io.chip.rxGuard == old(dev.io.chip).rxGuard
  {
    hide Bus.Faithful, Settled, Written, Pointer, Configurable, Macon1, Macon3;
    ghost var c := dev.io.chip;
    var status := ReadConfig(dev, MACON1);
    ghost var c1 := dev.io.chip;
    WriteConfig(dev, MACON1, Macon1(status));
    ghost var c2 := dev.io.chip;
    SettledTransitive(c, c1, c2);
    status := ReadConfig(dev, MACON3);
    ghost var c3 := dev.io.chip;
    SettledTransitive(c, c2, c3);
    WriteConfig(dev, MACON3, Macon3(status));
    ghost var c4 := dev.io.chip;
    SettledTransitive(c, c3, c4);
    WriteConfig(dev, MAMXFL, 1518);
    ghost var c5 := dev.io.chip;
    SettledTransitive(c, c4, c5);
    WriteConfig(dev, MABBIPG, 0x15);
    SettledTransitive(c, c5, dev.io.chip);
  }

  function AddressCells(cells: Cells, mac: MacAddress): Cells {
    var a := Written(Written(Written(cells, MAADR1, mac.addr1), MAADR2, mac.addr2), MAADR3, mac.addr3);
    Written(Written(Written(a, MAADR4, mac.addr4), MAADR5, mac.addr5), MAADR6, mac.addr6)
  }

  /** The station address. */
  method InitAddress(dev: Enc28j60, mac: MacAddress)
    requires dev.io.chip.phase.Deselected? && dev.Coherent() && Configurable(dev.io.chip)
    modifies dev`bank, dev.io
    ensures dev.io.chip.phase.Deselected? && dev.Coherent() && Configurable(dev.io.chip)
    ensures Settled(old(dev.io.chip), dev.io.chip) && dev.io.chip.cells == AddressCells(old(dev.io.chip).cells, mac)
    ensures dev.io.chip.rxWrite == old(dev.io.chip).rxWrite && dev.io.chip.rxGuard == old(dev.io.chip).rxGuard
  {
    hide Bus.Faithful, Settled, Written, Pointer, Configurable;
    ghost var c := dev.io.chip;
    WriteConfig(dev, MAADR1, mac.addr1);
    ghost var c1 := dev.io.chip;
    WriteConfig(dev, MAADR2, mac.addr2);
    ghost var c2 := dev.io.chip;
    SettledTransitive(c, c1, c2);
    WriteConfig(dev, MAADR3, mac.addr3);
    ghost var c3 := dev.io.chip;
    SettledTransitive(c, c2, c3);
    WriteConfig(dev, MAADR4, mac.addr4);
    ghost var c4 := dev.io.chip;
    SettledTransitive(c, c3, c4);
    WriteConfig(dev, MAADR5, mac.addr5);
    ghost var c5 := dev.io.chip;
    SettledTransitive(c, c4, c5);
    WriteConfig(dev, MAADR6, mac.addr6);
    SettledTransitive(c, c5, dev.io.chip);
  }

  lemma WordBitFits(w: word)
    ensures 0 <= SetBit(w, 128) < 0x10000
  {
  }

  function PhyCellsAfter(cells: Cells, value: word): Cells {
    PhyWriteCells(cells[84 := PHCON1.addr][82 := ClearBit(cells[82], 1)], PHCON1.addr, value)
  }

  /**
   The bit of weight 128, PDPXMD in the struct, is set in PHCON1. The write finds bank 2 selected because the read left
   it so.
   */
  method InitPhy(dev: Enc28j60)
    requires dev.io.chip.phase.Deselected? && dev.Coherent() && Configurable(dev.io.chip)
    modifies dev`bank, dev.io
    ensures dev.io.chip.phase.Deselected? && dev.Coherent() && Configurable(dev.io.chip) && dev.bank == Bank3
    ensures OnlyConfigured(old(dev.io.chip), dev.io.chip)
    ensures 0 <= ClearBit(old(dev.io.chip).cells[82], 1) < 0x100 && 0 <= SetBit(old(dev.io.chip).phy[0], 128) < 0x10000
    ensures dev.io.chip.phy == old(dev.io.chip).phy[0 := SetBit(old(dev.io.chip).phy[0], 128)]
    ensures dev.io.chip.phyData == old(dev.io.chip).phy[0]
    ensures dev.io.chip.cells == PhyCellsAfter(old(dev.io.chip).cells, SetBit(old(dev.io.chip).phy[0], 128))
  {
    hide Bus.Faithful, OnlyConfigured, PhyOnly, Configurable, SetBit, ClearBit, PhyWriteCells;
    ghost var c := dev.io.chip;
    ConfigurableIsCalm(c);
    CommandBit(c.cells[82]);
    WordBitFits(c.phy[0]);
    var status := ReadPhyReg(dev, PHCON1);
    ghost var c1 := dev.io.chip;
    PhyOnlyConfigured(c, c1);
    ConfigurableIsCalm(c1);
    WritePhyReg(dev, PHCON1, SetBit(status, 128));
    PhyOnlyConfigured(c1, dev.io.chip);
    ConfiguredTransitive(c, c1, dev.io.chip);
  }

  lemma ConfigurableIsCalm(c: Chip)
    requires Configurable(c)
    ensures Calm(c)
  {
  }

  lemma StoreRxen(m: Chip, v: byte)
    requires !Transmitting(m) && Econ1Of(v) == m.econ1.(rxen := true)
    ensures Stored(m, 0x1f, v) == m.(econ1 := m.econ1.(rxen := true), phase := Deselected)
  {
    hide TxBytes, Econ1Of;
  }

  /** RXEN is set in ECON1: from now on frames may arrive. */
  method EnableReception(dev: Enc28j60)
    requires dev.io.chip.phase.Deselected? && dev.Coherent() && Configurable(dev.io.chip)
    modifies dev`bank, dev.io
    ensures dev.io.chip.phase.Deselected? && dev.Coherent() && dev.bank == old(dev.bank)
    ensures dev.io.chip.econ1 == old(dev.io.chip).econ1.(rxen := true)
    ensures OnlyConfigured(old(dev.io.chip), dev.io.chip.(econ1 := old(dev.io.chip).econ1))
    ensures dev.io.chip.cells == old(dev.io.chip).cells && dev.io.chip.phy == old(dev.io.chip).phy
    ensures dev.io.chip.phyData == old(dev.io.chip).phyData
    ensures dev.io.clocked == old(dev.io.clocked) + [0x1f, 0x00, 0x5f, Or(Peek(old(dev.io.chip), 0x1f), 4)]
  {
    hide Bus.Faithful, Evolves, Undisturbed, Stored, OnlyConfigured, Econ1Byte, Econ1Of, Peek, Lo, Or, SwitchBytes,
         ReadBytes, WriteBytes;
    ghost var c, wire := dev.io.chip, dev.io.clocked;
    var status := ReadControlReg(dev, ECON1);
    LowByte(status);
    ghost var c1 := dev.io.chip;
    EvolvesKeepsEcon1(c, c1);
    PeekEcon1(c1);
    Econ1RoundTrip(c1.econ1.(rxen := true));
    status := Econ1Byte(Econ1Of(Lo(status)).(rxen := true));
    LowByte(status);
    Econ1Sets(c.econ1);
    PeekEcon1(c);
    ghost var wire1 := dev.io.clocked;
    ghost var m1, m2 := WriteControlReg(dev, ECON1, status);
    CopyBytes(c, c1, old(dev.bank), ECON1, status, wire, wire1, dev.io.clocked);
    EvolvesKeepsEcon1(c1, m1);
    EvolvesTransitive(c, c1, m1);
    ReceptionEnabled(c, m1, dev.io.chip);
  }

  lemma ReceptionEnabled(c: Chip, m: Chip, e: Chip)
    requires Configurable(c) && Evolves(c, m) && m.econ1 == c.econ1
    requires e == Stored(m, 0x1f, Econ1Byte(m.econ1.(rxen := true)))
    ensures e.econ1 == c.econ1.(rxen := true) && OnlyConfigured(c, e.(econ1 := c.econ1))
    ensures e.cells == c.cells && e.phy == c.phy && e.phyData == c.phyData
  {
    hide Evolves, Undisturbed, Stored, Econ1Byte, Econ1Of;
    EvolvesIsUndisturbed(c, m);
    UndisturbedConfigured(c, m);
    Econ1RoundTrip(m.econ1.(rxen := true));
    StoreRxen(m, Econ1Byte(m.econ1.(rxen := true)));
  }

  // ---------- Self-test ----------

  /** What the self-test leaves alone: the four bytes it writes are the only ones that change. */
  predicate TestKept(c: Chip, d: Chip) {
    && d.violations == c.violations && d.log == c.log && d.sent == c.sent && d.rom == c.rom
    && forall i :: 0 <= i < MEM_SIZE && !(0x1000 <= i < 0x1004) ==> d.mem[i] == c.mem[i]
  }

  lemma TestTransitive(c: Chip, d: Chip, e: Chip)
    requires TestKept(c, d) && TestKept(d, e)
    ensures TestKept(c, e)
  {
  }

  lemma SettledTest(c: Chip, d: Chip)
    requires Settled(c, d)
    ensures TestKept(c, d)
  {
  }

  lemma HeldValue(reg: Reg, value: word)
    requires Mapped(reg)
    requires (reg == ERXST && value < MEM_SIZE) || reg == MAMXFL
    ensures Held(reg, value) == value
  {
    hide Lo, Hi, Join;
    JoinSplit(value);
    if reg == ERXST {
      AddrSplit(value);
    }
  }

  /** A configuration register written and read back. */
  method TryRegister(dev: Enc28j60, reg: Reg, value: word) returns (answer: word)
    requires dev.io.chip.phase.Deselected? && dev.Coherent() && Configurable(dev.io.chip) && ConfigReg(reg)
    modifies dev`bank, dev.io
    ensures dev.io.chip.phase.Deselected? && dev.Coherent() && Configurable(dev.io.chip)
    ensures dev.bank == reg.bank && TestKept(old(dev.io.chip), dev.io.chip)
    ensures answer == Held(reg, value)
  {
    hide Bus.Faithful, Settled, Written, Held, Configurable, TestKept;
    ghost var c := dev.io.chip;
    WriteConfig(dev, reg, value);
    ghost var c1 := dev.io.chip;
    SettledTest(c, c1);
    answer := ReadConfig(dev, reg);
    SettledTest(c1, dev.io.chip);
    TestTransitive(c, c1, dev.io.chip);
    HeldIsWritten(c.cells, reg, value);
  }

  /** Test 3: a PHY register written and read back. Bank 2 is selected, for a MAC register was accessed before. */
  method TryPhy(dev: Enc28j60, reg: Reg, value: word) returns (answer: word)
    requires dev.io.chip.phase.Deselected? && dev.Coherent() && Configurable(dev.io.chip) && dev.bank == Bank2
    requires Mapped(reg) && reg.kind == Phy
    modifies dev`bank, dev.io
    ensures dev.io.chip.phase.Deselected? && dev.Coherent() && Configurable(dev.io.chip)
    ensures dev.bank == Bank2 && TestKept(old(dev.io.chip), dev.io.chip)
    ensures answer == value && dev.io.chip.phy == old(dev.io.chip).phy[reg.addr := value]
  {
    hide Bus.Faithful, PhyWriteCells, PhyOnly;
    ghost var c := dev.io.chip;
    WritePhyReg(dev, reg, value);
    ghost var c1 := dev.io.chip;
    PhyOnlyConfigured(c, c1);
    answer := ReadPhyReg(dev, reg);
    PhyOnlyConfigured(c1, dev.io.chip);
  }

  lemma FilledTest(c: Chip, d: Chip)
    requires Filled(c, d, 0x1000, 4) && Configurable(c)
    ensures TestKept(c, d) && Configurable(d) && d.econ2 == c.econ2
  {
    hide Undisturbed;
    var d' := WithMem(d, Restored(d.mem, c.mem, 0x1000, 0x1004));
    UndisturbedConfigured(c, d');
    forall i | 0 <= i < MEM_SIZE && !(0x1000 <= i < 0x1004) ensures d.mem[i] == c.mem[i] {
      assert d'.mem[i] == d.mem[i];
    }
  }

  /** The ring ends elsewhere than in operation, and nothing can arrive: memory from `p` on is the driver's. */
  lemma TestMemory(c: Chip, p: Addr)
    requires Configurable(c) && Pointer(c.cells, 0x0a) == 0xfff
    ensures OutOfReach(c, p)
  {
  }

  /** Above the ring, while nothing can arrive, the bytes read are those that lie there. */
  lemma ReadsAbove(c: Chip, p: Addr, b: seq<byte>)
    requires Configurable(c) && Pointer(c.cells, 0x0a) == 0xfff && 0x1000 <= p && p + |b| < MEM_SIZE
    requires ReadFrom(c, p, b)
    ensures b == c.mem[p..p + |b|]
  {
    hide Pointer, Stepped;
    forall i | 0 <= i < |b| ensures b[i] == c.mem[p + i] {
      StraightSteps(c, p, i);
    }
  }

  lemma SettledMemory(c: Chip, d: Chip)
    requires Settled(c, d)
    ensures d.mem == c.mem && d.econ2 == c.econ2
  {
  }

  /** The bounds and the write pointer for the memory test. */
  method PlaceBuffer(dev: Enc28j60)
    requires dev.io.chip.phase.Deselected? && dev.Coherent() && Configurable(dev.io.chip)
    modifies dev`bank, dev.io
    ensures dev.io.chip.phase.Deselected? && dev.Coherent() && Configurable(dev.io.chip) && dev.bank == Bank0
    ensures TestKept(old(dev.io.chip), dev.io.chip) && dev.io.chip.econ2 == old(dev.io.chip).econ2
    ensures Pointer(dev.io.chip.cells, 0x0a) == 0xfff && Pointer(dev.io.chip.cells, 2) == 0x1000
  {
    hide Bus.Faithful, Settled, Written, Configurable, TestKept, Pointer;
    ghost var c := dev.io.chip;
    WriteConfig(dev, ERXST, 0x00);
    ghost var c1 := dev.io.chip;
    WriteConfig(dev, ERXND, 0xfff);
    ghost var c2 := dev.io.chip;
    WrittenPointer(c1.cells, ERXND, 0xfff);
    SettledTransitive(c, c1, c2);
    WriteConfig(dev, EWRPT, 0x1000);
    WrittenPointer(c2.cells, EWRPT, 0x1000);
    PointerOf(c2.cells, dev.io.chip.cells, 0x0a);
    SettledTransitive(c, c2, dev.io.chip);
    SettledTest(c, dev.io.chip);
    SettledMemory(c, dev.io.chip);
  }

  /** Test 4: four bytes written to the buffer memory and read back. */
  method TryMemory(dev: Enc28j60, vals: seq<byte>, returned: array<byte>)
    requires dev.io.chip.phase.Deselected? && dev.Coherent() && Configurable(dev.io.chip)
    requires |vals| == returned.Length == 4
    modifies dev`bank, dev.io, returned
    ensures dev.io.chip.phase.Deselected? && dev.Coherent() && Configurable(dev.io.chip) && dev.bank == Bank0
    ensures TestKept(old(dev.io.chip), dev.io.chip)
    ensures returned[..] == vals == dev.io.chip.mem[0x1000..0x1000 + 4]
  {
    hide Bus.Faithful, Settled, Written, TestKept, Pointer, Filled, Undisturbed, Advanced, WrittenFrom;
    ghost var c := dev.io.chip;
    SetAutoinc(dev);
    ghost var c1 := dev.io.chip;
    SettledTest(c, c1.(econ2 := c.econ2));
    TestEcon2(c, c1);
    PlaceBuffer(dev);
    ghost var c2 := dev.io.chip;
    TestTransitive(c, c1, c2);
    TestMemory(c2, 0x1000);
    WriteBuf(dev, vals);
    ghost var c3 := dev.io.chip;
    WrittenFits(c2, c3, 0x1000, vals);
    FilledTest(c2, c3);
    AdvancedBounds(c2.cells, 0x1000, 4);
    TestTransitive(c, c2, c3);
    ReadBack(dev, vals, returned);
    TestTransitive(c, c3, dev.io.chip);
  }

  lemma TestEcon2(c: Chip, d: Chip)
    requires TestKept(c, d.(econ2 := c.econ2))
    ensures TestKept(c, d)
  {
  }

  lemma AdvancedBounds(cells: Cells, p: Addr, n: nat)
    requires p == Pointer(cells, 2) && n <= MEM_SIZE
    ensures Pointer(Advanced(cells, 2, p, n), 0x0a) == Pointer(cells, 0x0a)
  {
    AdvancedCells(cells, p, n);
    PointerOf(Advanced(cells, 2, p, n), cells, 0x0a);
  }

  method ReadBack(dev: Enc28j60, ghost vals: seq<byte>, returned: array<byte>)
    requires dev.io.chip.phase.Deselected? && dev.Coherent() && Configurable(dev.io.chip) && dev.io.chip.econ2.autoinc
    requires |vals| == returned.Length == 4 && dev.io.chip.mem[0x1000..0x1000 + 4] == vals
    requires Pointer(dev.io.chip.cells, 0x0a) == 0xfff
    modifies dev`bank, dev.io, returned
    ensures dev.io.chip.phase.Deselected? && dev.Coherent() && Configurable(dev.io.chip) && dev.bank == Bank0
    ensures TestKept(old(dev.io.chip), dev.io.chip)
    ensures returned[..] == vals && dev.io.chip.mem == old(dev.io.chip).mem
  {
    hide Bus.Faithful, Settled, Written, TestKept, Pointer, ReadFrom, Stepped, Undisturbed, PointedAt;
    ghost var c := dev.io.chip;
    WriteConfig(dev, ERDPT, 0x1000);
    ghost var c1 := dev.io.chip;
    WrittenPointer(c.cells, ERDPT, 0x1000);
    PointerOf(c.cells, c1.cells, 0x0a);
    SettledTest(c, c1);
    SettledMemory(c, c1);
    ReadBuf(dev, returned, 4);
    ReadsAbove(c1, 0x1000, returned[..4]);
    assert returned[..4] == returned[..];
    UndisturbedSettled(c1, dev.io.chip);
    SettledTest(c1, dev.io.chip);
    SettledMemory(c1, dev.io.chip);
    TestTransitive(c, c1, dev.io.chip);
  }

  /**
   ll_test. A failed test stops the C function for good; here it would return false. It never does, and the reset at the
   end gives every register its reset value; all that remains of the test is the four bytes in the buffer memory.
   */
  method SelfTest(dev: Enc28j60) returns (passed: bool)
    requires dev.io.chip.phase.Deselected? && dev.Coherent() && Configurable(dev.io.chip)
    modifies dev`bank, dev.io
    ensures passed
    ensures dev.io.chip.phase.Deselected? && dev.Coherent() && dev.bank == Bank0 && AfterReset(dev.io.chip)
    ensures TestKept(old(dev.io.chip), dev.io.chip) && dev.io.chip.mem[0x1000..0x1000 + 4] == [0x12, 0x34, 0x56, 0x78]
  {
    hide Bus.Faithful, Settled, Written, Held, TestKept, AfterReset;
    ghost var c := dev.io.chip;
    var testVal := 0x1234;
    HeldValue(ERXST, testVal);
    HeldValue(MAMXFL, testVal);
    var answer := TryRegister(dev, ERXST, testVal);
    if answer != testVal {
      return false;
    }
    ghost var c1 := dev.io.chip;
    AwaitClock(dev);
    ghost var c2 := dev.io.chip;
    SettledTest(c1, c2);
    TestTransitive(c, c1, c2);
    answer := TryRegister(dev, MAMXFL, testVal);
    if answer != testVal {
      return false;
    }
    ghost var c3 := dev.io.chip;
    TestTransitive(c, c2, c3);
    var ledsOn := 0x3883;
    answer := TryPhy(dev, PHLCON, ledsOn);
    if answer / 2 != ledsOn / 2 {
      return false;
    }
    ghost var c4 := dev.io.chip;
    TestTransitive(c, c3, c4);
    passed := TestBuffer(dev);
    ghost var c5 := dev.io.chip;
    TestTransitive(c, c4, c5);
    SoftReset(dev);
    ResetTest(c5, dev.io.chip);
    TestTransitive(c, c5, dev.io.chip);
  }

  lemma ResetTest(c: Chip, d: Chip)
    requires d.violations == c.violations && d.sent == c.sent && d.rom == c.rom && d.log == c.log && d.mem == c.mem
    ensures TestKept(c, d)
  {
  }

  method TestBuffer(dev: Enc28j60) returns (passed: bool)
    requires dev.io.chip.phase.Deselected? && dev.Coherent() && Configurable(dev.io.chip)
    modifies dev`bank, dev.io
    ensures passed && TestKept(old(dev.io.chip), dev.io.chip)
    ensures dev.io.chip.phase.Deselected? && dev.Coherent() && Configurable(dev.io.chip) && dev.bank == Bank0
    ensures dev.io.chip.mem[0x1000..0x1000 + 4] == [0x12, 0x34, 0x56, 0x78]
  {
    hide Bus.Faithful, TestKept;
    var testVals := [0x12, 0x34, 0x56, 0x78];
    var returnedVals := new byte[4];
    TryMemory(dev, testVals, returnedVals);
    for i := 0 to 4 {
      if testVals[i] != returnedVals[..][i] {
        return false;
      }
    }
    passed := true;
  }

  // ---------- The whole initialisation ----------

  /** The register cells after initialisation: a function of the reset values and the station address alone. */
  function InitCells(rom: Rom, mac: MacAddress): Cells {
    var cells := AddressCells(MacCells(FilterCells(RingCells(rom.cells))), mac);
    CommandBit(cells[82]);
    WordBitFits(rom.phy[0]);
    PhyCellsAfter(cells, SetBit(rom.phy[0], 128))
  }

  /** The chip after initialisation, register by register. */
  predicate Initialised(c: Chip, mac: MacAddress) {
    WordBitFits(c.rom.phy[0]);
    && c.cells == InitCells(c.rom, mac) && c.econ1 == Econ1(3, true, false, 0)
    && c.econ2 == c.rom.econ2.(autoinc := true) && c.rxWrite == RX_START && c.rxGuard == RX_END && c.packets == 0
    && c.mii.Idle? && c.phy == c.rom.phy[0 := SetBit(c.rom.phy[0], 128)] && c.phyData == c.rom.phy[0]
    && c.clockWait == 0
  }

  /** From a reset chip to an initialised one. */
  method Configure(dev: Enc28j60, mac: MacAddress)
    requires dev.io.chip.phase.Deselected? && dev.Coherent() && AfterReset(dev.io.chip)
    modifies dev`bank, dev.io
    ensures dev.io.chip.phase.Deselected? && dev.Coherent() && dev.bank == Bank3
    ensures Initialised(dev.io.chip, mac) && TestKept(old(dev.io.chip), dev.io.chip)
    ensures |dev.io.clocked| >= 2 && dev.io.clocked[|dev.io.clocked| - 2..] == [0x5f, 0x07]
  {
    hide Bus.Faithful, Settled, OnlyConfigured, RingCells, FilterCells, MacCells, AddressCells, PhyCellsAfter,
         TestKept, SetBit, ClearBit, Initialised;
    ghost var c := dev.io.chip;
    InitRing(dev);
    ghost var c1 := dev.io.chip;
    InitFilter(dev);
    ghost var c2 := dev.io.chip;
    SettledTransitive(c, c1, c2);
    SetAutoinc(dev);
    ghost var c3 := dev.io.chip;
    AwaitClock(dev);
    ghost var c4 := dev.io.chip;
    InitMac(dev);
    ghost var c5 := dev.io.chip;
    SettledTransitive(c3, c4, c5);
    InitAddress(dev, mac);
    ghost var c6 := dev.io.chip;
    SettledTransitive(c3, c5, c6);
    SettledPhy(c, c2, c3, c6);
    SettledClock(c4, c5, c6);
    InitPhy(dev);
    ghost var c7 := dev.io.chip;
    EnableReception(dev);
    FirstEcon1(c, c2, c3, c6, c7);
    ConfigureResult(c, c2, c3, c6, c7, dev.io.chip, mac);
  }

  /** What is read of ECON1 before reception is enabled: bank 3 is selected, and nothing else set; 4 is RXEN. */
  lemma FirstEcon1(c: Chip, c2: Chip, c3: Chip, c6: Chip, c7: Chip)
    requires AfterReset(c) && Settled(c, c2) && Settled(c2, c3.(econ2 := c2.econ2)) && Settled(c3, c6)
    requires OnlyConfigured(c6, c7) && Bsel(c7) == 3
    ensures Or(Peek(c7, 0x1f), 4) == 0x07
  {
    assert c7.econ1 == Econ1(3, false, false, 0);
    PeekEcon1(c7);
    assert Peek(c7, 0x1f) == 3;
    OrSets(3);
    hide Or, Peek;
  }

  lemma SettledClock(c4: Chip, c5: Chip, c6: Chip)
    requires Settled(c4, c5) && Settled(c5, c6) && c4.clockWait == 0
    ensures c6.clockWait == 0
  {
  }

  lemma SettledPhy(c: Chip, c2: Chip, c3: Chip, c6: Chip)
    requires Settled(c, c2) && Settled(c2, c3.(econ2 := c2.econ2)) && Settled(c3, c6)
    ensures c6.phy == c.phy
  {
  }

  lemma ConfigureResult(c: Chip, c2: Chip, c3: Chip, c6: Chip, c7: Chip, d: Chip, mac: MacAddress)
    requires AfterReset(c) && Settled(c, c2) && c3.econ2 == c2.econ2.(autoinc := true)
    requires Settled(c2, c3.(econ2 := c2.econ2)) && Settled(c3, c6)
    requires c6.cells == AddressCells(MacCells(FilterCells(RingCells(c.rom.cells))), mac)
    requires c6.rxWrite == RX_START && c6.rxGuard == RX_END && c6.clockWait == 0
    requires OnlyConfigured(c6, c7) && 0 <= SetBit(c6.phy[0], 128) < 0x10000 && 0 <= ClearBit(c6.cells[82], 1) < 0x100
    requires c7.phy == c6.phy[0 := SetBit(c6.phy[0], 128)] && c7.phyData == c6.phy[0]
    requires c7.cells == PhyCellsAfter(c6.cells, SetBit(c6.phy[0], 128)) && Bsel(c7) == 3
    requires d.econ1 == c7.econ1.(rxen := true) && OnlyConfigured(c7, d.(econ1 := c7.econ1))
    requires d.cells == c7.cells && d.phy == c7.phy && d.phyData == c7.phyData
    ensures Initialised(d, mac) && TestKept(c, d)
  {
    hide RingCells, FilterCells, MacCells, AddressCells, PhyCellsAfter, SetBit, ClearBit;
  }

  /** enc28j60_ll_init from any state of the chip, compiled with the self-test or without it. The result is the same. */
  method LlInit(dev: Enc28j60, mac: MacAddress, selfTest: bool) returns (passed: bool)
    requires dev.io.Faithful()
    requires dev.bank == Common || dev.bank == Bank0
    modifies dev`bank, dev.io
    ensures passed
    ensures dev.io.chip.phase.Deselected? && dev.Coherent() && Initialised(dev.io.chip, mac)
    ensures |dev.io.clocked| >= 2 && dev.io.clocked[|dev.io.clocked| - 2..] == [0x5f, 0x07]
    ensures dev.io.chip.violations == CsRise(old(dev.io.chip)).violations && dev.io.chip.sent == old(dev.io.chip).sent
    ensures dev.io.chip.rom == old(dev.io.chip).rom && old(dev.io.chip).log <= dev.io.chip.log
  {
    hide Bus.Faithful, AfterReset, Initialised;
    dev.io.CsHigh();
    SoftReset(dev);
    ghost var c := dev.io.chip;
    ResetConfigurable(c);
    passed := true;
    if selfTest {
      passed := SelfTest(dev);
    }
    Configure(dev, mac);
  }

  lemma ResetConfigurable(c: Chip)
    requires AfterReset(c)
    ensures Configurable(c)
  {
  }

  // ---------- What initialisation achieves ----------

  lemma WrittenByte(cells: Cells, reg: Reg, v: byte)
    requires Mapped(reg) && reg.length == 1 && CellOf(reg) != 84
    requires CellOf(reg) !in {1, 3, 5, 7, 9, 11, 13, 17, 19, 21}
    ensures Written(cells, reg, v) == cells[CellOf(reg) := v]
  {
  }

  lemma RingCellsMeaning(cells: Cells)
    ensures var d := RingCells(cells);
            && Pointer(d, 0x08) == RX_START && Pointer(d, 0x0a) == RX_END && Pointer(d, 0x0c) == RX_END
            && forall k :: 0 <= k < 128 && !(0x08 <= k < 0x0e) ==> d[k] == cells[k]
  {
    var a := Written(cells, ERXST, RX_START);
    var b := Written(a, ERXND, RX_END);
    WrittenPointer(cells, ERXST, RX_START);
    WrittenPointer(a, ERXND, RX_END);
    WrittenPointer(b, ERXRDPT, RX_END);
    hide Written;
    PointerOf(a, RingCells(cells), 0x08);
    PointerOf(b, RingCells(cells), 0x0a);
  }

  lemma MacCellsMeaning(cells: Cells)
    ensures var d := MacCells(cells);
            && d[64] == Macon1(cells[64]) && d[66] == Macon3(cells[66])
            && Join(d[74], d[75]) == 1518 && d[68] == 0x15
            && forall k :: 0 <= k < 128 && k !in {64, 66, 68, 74, 75} ==> d[k] == cells[k]
  {
    hide Macon1, Macon3;
    var a := Written(cells, MACON1, Macon1(cells[64]));
    WrittenByte(cells, MACON1, Macon1(cells[64]));
    var b := Written(a, MACON3, Macon3(a[66]));
    WrittenByte(a, MACON3, Macon3(a[66]));
    var e := Written(b, MAMXFL, 1518);
    assert e == b[74 := Lo(1518)][75 := Hi(1518)];
    WrittenByte(e, MABBIPG, 0x15);
  }

  lemma AddressCellsMeaning(cells: Cells, mac: MacAddress)
    ensures AddressCells(cells, mac)
             == cells[100 := mac.addr1][101 := mac.addr2][98 := mac.addr3]
                     [99 := mac.addr4][96 := mac.addr5][97 := mac.addr6]
  {
    var a := cells[100 := mac.addr1];
    var b := a[101 := mac.addr2];
    var d := b[98 := mac.addr3];
    var e := d[99 := mac.addr4];
    var f := e[96 := mac.addr5];
    WrittenByte(cells, MAADR1, mac.addr1);
    WrittenByte(a, MAADR2, mac.addr2);
    WrittenByte(b, MAADR3, mac.addr3);
    WrittenByte(d, MAADR4, mac.addr4);
    WrittenByte(e, MAADR5, mac.addr5);
    WrittenByte(f, MAADR6, mac.addr6);
    hide Written;
  }

  /** The cells initialisation writes. */
  predicate Initialising(k: int) {
    0x08 <= k < 0x0e || 96 <= k < 102 || k in {56, 64, 66, 68, 74, 75, 82, 84, 86, 87}
  }

  lemma FilterCellsMeaning(cells: Cells)
    ensures 0 <= SetBit(cells[56], 32) < 0x100 && FilterCells(cells) == cells[56 := SetBit(cells[56], 32)]
  {
    SetBit32(cells[56]);
    WrittenByte(cells, ERXFCON, SetBit(cells[56], 32));
  }

  lemma PhyCellsMeaning(cells: Cells, value: word)
    requires 0 <= ClearBit(cells[82], 1) < 0x100
    ensures forall k :: 0 <= k < 128 && k !in {82, 84, 86, 87} ==> PhyCellsAfter(cells, value)[k] == cells[k]
  {
    hide ClearBit, Lo, Hi;
  }

  predicate AddressHeld(d: Cells, mac: MacAddress) {
    && d[100] == mac.addr1 && d[101] == mac.addr2 && d[98] == mac.addr3
    && d[99] == mac.addr4 && d[96] == mac.addr5 && d[97] == mac.addr6
  }

  /** The longest frame, the gap, and the bits set in the control registers of filter and MAC. */
  predicate ControlSet(d: Cells, reset: Cells) {
    && d[56] == SetBit(reset[56], 32) && d[64] == Macon1(reset[64]) && d[66] == Macon3(reset[66])
    && Join(d[74], d[75]) == 1518 && d[68] == 0x15
  }

  /** The registers before the PHY is accessed. */
  lemma ControlMeaning(a: Cells, mac: MacAddress)
    ensures var d := AddressCells(MacCells(FilterCells(a)), mac);
            && AddressHeld(d, mac) && ControlSet(d, a)
            && forall k :: 0 <= k < 128 && !(96 <= k < 102) && k !in {56, 64, 66, 68, 74, 75} ==> d[k] == a[k]
  {
    var b := FilterCells(a);
    FilterCellsMeaning(a);
    var c := MacCells(b);
    MacCellsMeaning(b);
    AddressCellsMeaning(c, mac);
    hide FilterCells, MacCells, AddressCells, Macon1, Macon3, SetBit, Join;
  }

  predicate RingSet(d: Cells) {
    Pointer(d, 0x08) == RX_START && Pointer(d, 0x0a) == RX_END && Pointer(d, 0x0c) == RX_END
  }

  lemma InitSets(rom: Rom, mac: MacAddress)
    ensures var d := InitCells(rom, mac);
            && RingSet(d) && AddressHeld(d, mac) && ControlSet(d, rom.cells)
            && forall k :: 0 <= k < 128 && !Initialising(k) ==> d[k] == rom.cells[k]
  {
    hide Macon1, Macon3, SetBit, ClearBit, Pointer, Join, RingCells, FilterCells, MacCells, AddressCells, PhyCellsAfter;
    var a := RingCells(rom.cells);
    RingCellsMeaning(rom.cells);
    var e := AddressCells(MacCells(FilterCells(a)), mac);
    ControlMeaning(a, mac);
    CommandBit(e[82]);
    WordBitFits(rom.phy[0]);
    PhyCellsMeaning(e, SetBit(rom.phy[0], 128));
    InitPointers(a, InitCells(rom, mac));
  }

  /**
   Initialisation sets the ring to the receive region, the six address bytes in their six registers, the longest frame
   and the gap, and touches no other control register, except the filter's and the MAC's, of which it sets bits, and
   those that access the PHY.
   */
  lemma InitMeaning(rom: Rom, mac: MacAddress)
    ensures var d := InitCells(rom, mac);
            && RingSet(d) && AddressHeld(d, mac) && ControlSet(d, rom.cells)
            && Pointer(d, 0x08) == 0 && Pointer(d, 0x0a) == 0x17ff && Pointer(d, 0x0c) == 0x17ff
            && d[100] == mac.addr1 && d[101] == mac.addr2 && d[98] == mac.addr3
            && d[99] == mac.addr4 && d[96] == mac.addr5 && d[97] == mac.addr6
            && d[56] == SetBit(rom.cells[56], 32) && d[64] == Macon1(rom.cells[64]) && d[66] == Macon3(rom.cells[66])
            && d[74] == 0xee && d[75] == 0x05 && d[68] == 0x15
            && forall k :: 0 <= k < 128 && !Initialising(k) ==> d[k] == rom.cells[k]
  {
    hide InitCells, Macon1, Macon3, SetBit, Pointer, Join;
    InitSets(rom, mac);
    MaxFrameBytes(InitCells(rom, mac)[74], InitCells(rom, mac)[75]);
  }

  /** 1518 in two bytes. */
  lemma MaxFrameBytes(low: byte, high: byte)
    ensures Join(low, high) == 1518 ==> low == 0xee && high == 0x05
  {
  }

  lemma InitPointers(a: Cells, d: Cells)
    requires forall k :: 0x08 <= k < 0x0e ==> d[k] == a[k]
    ensures Pointer(d, 0x08) == Pointer(a, 0x08) && Pointer(d, 0x0a) == Pointer(a, 0x0a)
    ensures Pointer(d, 0x0c) == Pointer(a, 0x0c)
  {
  }

  lemma LowBits(v: byte) returns (r0: int, r1: int, r2: int, r: int)
    ensures v == r0 + 2 * r1 + 4 * r2 + 16 * r && 0 <= r0 < 2 && 0 <= r1 < 2 && 0 <= r2 < 4
    ensures r1 == v / 2 % 2 && r2 == v / 4 % 4 && r == v / 16
  {
    r0, r1, r2, r := v % 2, v / 2 % 2, v / 4 % 4, v / 16;
    assert v / 4 == r2 + 4 * r;
    assert v / 2 == r1 + 2 * (v / 4);
  }

  /** MARXEN, RXPAUS and TXPAUS are set in MACON1, and no other bit changes. */
  lemma Macon1Bits(v: byte)
    ensures Macon1(v) == 16 * (v / 16) + 13 + 2 * (v / 2 % 2)
  {
    var x := SetBit(v, 1);
    var y := SetBit(x, 8);
    assert Macon1(v) == SetBit(y, 4);
    hide SetBit, Macon1;
    SetBit1(v);
    SetBit8(x);
    SetBit4(y);
    var r0, r1, r2, r := LowBits(v);
    Macon1Arithmetic(v, r0, r1, r2, r, x, y);
  }

  lemma Macon1Arithmetic(v: byte, r0: int, r1: int, r2: int, r: int, x: int, y: int)
    requires v == r0 + 2 * r1 + 4 * r2 + 16 * r && 0 <= r0 < 2 && 0 <= r1 < 2 && 0 <= r2 < 4
    requires x == 2 * (v / 2) + 1 && y == 16 * (x / 16) + 8 + x % 8
    ensures 8 * (y / 8) + 4 + y % 4 == 16 * r + 13 + 2 * r1
  {
    assert v / 2 == r1 + 2 * r2 + 8 * r;
    assert x / 16 == r;
    assert x / 8 == r2 / 2 + 2 * r;
    assert y / 8 == 2 * r + 1;
    assert y % 4 == 1 + 2 * r1;
  }

  /** PADCFG of MACON3 is 1; TXCRCEN, FRMLNEN and FULLDPX are set; the bits 2 and 3 do not change. */
  lemma Macon3Bits(v: byte)
    ensures Macon3(v) == 32 + 16 + 4 * (v / 4 % 4) + 2 + 1
  {
    var p := v % 32 + 32;
    var x := SetBit(p, 16);
    var y := SetBit(x, 2);
    assert Macon3(v) == SetBit(y, 1);
    hide SetBit, Macon3;
    SetBit16(p);
    SetBit2(x);
    SetBit1(y);
    var r0, r1, r2, r := LowBits(v);
    LowFive(v, r0 + 2 * r1 + 4 * r2, r);
    Macon3Arithmetic(r0 + 2 * r1, r2, r % 2, p, x, y);
  }

  lemma LowFive(v: byte, low: int, r: int)
    requires v == low + 16 * r && 0 <= low < 16
    ensures v % 32 == low + 16 * (r % 2)
  {
  }

  lemma Macon3Arithmetic(r0: int, r2: int, r4: int, p: int, x: int, y: int)
    requires 0 <= r0 < 4 && 0 <= r2 < 4 && 0 <= r4 < 2
    requires p == r0 + 4 * r2 + 16 * r4 + 32 && x == 32 * (p / 32) + 16 + p % 16 && y == 4 * (x / 4) + 2 + x % 2
    ensures 2 * (y / 2) + 1 == 51 + 4 * r2
  {
    assert p / 32 == 1;
    assert p / 16 == 2 + r4;
    assert x == 48 + r0 + 4 * r2;
    assert x / 4 == 12 + r2;
    assert y == 50 + 4 * r2 + x % 2;
  }

  /** The ring of an initialised chip is empty, whatever was received before the reset. */
  lemma InitialRing(c: Chip, mac: MacAddress)
    requires Initialised(c, mac)
    ensures Ring(c, RX_START, |c.log|, 0)
  {
    InitMeaning(c.rom, mac);
    assert c.log[|c.log|..] == [];
    hide InitCells, SetBit, Macon1, Macon3;
  }

  /**
   enc28j60_init, from any state of the chip between two commands. The driver is ready afterwards: nothing is under
   way, reception and pointer auto-increment are on, the bank cache is right, and the ring is empty.
   */
  method Init(dev: Enc28j60, mac: MacAddress, selfTest: bool) returns (passed: bool)
    requires dev.io.Faithful()
    requires CsRise(dev.io.chip).violations == {}
    modifies dev, dev.io
    ensures passed && Ready(dev) && Initialised(dev.io.chip, mac)
    ensures |dev.io.clocked| >= 2 && dev.io.clocked[|dev.io.clocked| - 2..] == [0x5f, 0x07]
    ensures dev.nextRxPacketPtr == RX_START && dev.txBuffPtr == TX_START && dev.since == dev.taken == |dev.io.chip.log|
    ensures dev.io.chip.sent == old(dev.io.chip).sent && dev.io.chip.rom == old(dev.io.chip).rom
    ensures old(dev.io.chip).log <= dev.io.chip.log
  {
    hide Bus.Faithful, InitCells, Ring;
    dev.bank := Common;
    dev.nextRxPacketPtr := RX_START;
    dev.txBuffPtr := TX_START;
    passed := LlInit(dev, mac, selfTest);
    dev.taken, dev.since := |dev.io.chip.log|, |dev.io.chip.log|;
    InitialRing(dev.io.chip, mac);
  }
}
