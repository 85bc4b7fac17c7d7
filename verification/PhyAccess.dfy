/** User/enc28j60/lowlayer/src/enc28j60_ll.c: PHY registers, through the MII management interface. */
module PhyAccess {
  import opened Bytes
  import opened RegisterMap
  import opened ChipModel
  import opened RxRing
  import opened Environment
  import opened Quiescence
  import opened Port
  import opened Device
  import opened Registers

  /** Nothing can arrive or leave: the chip is being configured. */
  predicate Configurable(c: Chip) {
    Calm(c) && !RxEnabled(c)
  }

  /** From `c` to `d` only register cells, PHY registers and the bank may differ, and time passed. */
  predicate OnlyConfigured(c: Chip, d: Chip) {
    && d.violations == c.violations && d.econ1.(bsel := c.econ1.bsel) == c.econ1 && d.econ2 == c.econ2
    && d.rxWrite == c.rxWrite && d.rxGuard == c.rxGuard && d.packets == c.packets && d.mem == c.mem
    && d.log == c.log && d.sent == c.sent && d.rom == c.rom && d.mii.Idle? && (c.clockWait == 0 ==> d.clockWait == 0)
  }

  lemma ConfiguredTransitive(c: Chip, d: Chip, e: Chip)
    requires OnlyConfigured(c, d) && OnlyConfigured(d, e)
    ensures OnlyConfigured(c, e)
  {
  }

  lemma UndisturbedConfigured(c: Chip, d: Chip)
    requires Undisturbed(c, d) && Configurable(c)
    ensures OnlyConfigured(c, d) && d.phy == c.phy && d.phyData == c.phyData && Configurable(d)
  {
    hide Ring, KeepsRing;
  }

  /** `d` with the PHY side of `c`. */
  function WithPhy(d: Chip, c: Chip): Chip {
    d.(phy := c.phy, phyData := c.phyData)
  }

  /** From `c` to `d` PHY registers may have been read or written; apart from that nothing was disturbed. */
  ghost predicate PhyOnly(c: Chip, d: Chip) {
    d.mii.Idle? && Undisturbed(c, WithPhy(d, c))
  }

  /** What the chip does on its own does not depend on the PHY registers, while no operation runs. */
  lemma PhyIsFree(c: Chip, d: Chip, x: Chip)
    requires Undisturbed(c, d) && Calm(c)
    ensures Undisturbed(WithPhy(c, x), WithPhy(d, x))
  {
    hide Ring, KeepsRing;
    var c', d' := WithPhy(c, x), Masked(WithPhy(d, x), WithPhy(c, x));
    var y := Masked(d, c);
    assert SteadyAndSooner(c', d') && MiiEvolves(c', d') && MemoryKept(c', d');
    SameRings(c, c');
    SameRings(y, d');
    KeepsRingTransitive(c', c, y);
    KeepsRingTransitive(c', y, d');
  }

  /** The ring does not depend on the PHY, on the management interface, or on other cells. */
  lemma SameRings(c: Chip, d: Chip)
    requires d == c.(phy := d.phy, phyData := d.phyData, mii := d.mii, phase := d.phase, cells := d.cells)
    requires SameRxBounds(c, d)
    ensures KeepsRing(c, d) && KeepsRing(d, c)
  {
    hide KeepsRing, RingConfigured;
    SameBounds(c, d);
    SameRing(c, d);
  }

  lemma PhyOnlyTransitive(c: Chip, d: Chip, e: Chip)
    requires Calm(c) && PhyOnly(c, d) && PhyOnly(d, e)
    ensures PhyOnly(c, e)
  {
    hide Undisturbed;
    CalmStays(c, WithPhy(d, c));
    PhyIsFree(d, WithPhy(e, d), c);
    UndisturbedTransitive(c, WithPhy(d, c), WithPhy(e, c));
  }

  /** The frames in the ring and those arriving are kept; protocol, control bits and packets sent are as before. */
  lemma PhyOnlyMeaning(c: Chip, d: Chip)
    requires Calm(c) && PhyOnly(c, d)
    ensures KeepsRing(c, d) && Calm(d) && c.log <= d.log
    ensures d.violations == c.violations && d.econ2 == c.econ2 && d.rxGuard == c.rxGuard && d.sent == c.sent
    ensures RxEnabled(d) == RxEnabled(c) && d.econ1.upper == c.econ1.upper && d.rom == c.rom
  {
    hide Ring, KeepsRing;
    var d' := WithPhy(d, c);
    CalmStays(c, d');
    var y := Masked(d', c);
    var z := y.(econ1 := d'.econ1);
    BankIsFree(y, z);
    SameRings(z, d);
    KeepsRingTransitive(c, y, z);
    KeepsRingTransitive(c, z, d);
  }

  lemma BankIsFree(c: Chip, d: Chip)
    requires d == c.(econ1 := d.econ1)
    ensures KeepsRing(c, d)
  {
    hide KeepsRing;
    SameRing(c, d);
  }

  lemma PhyOnlyConfigured(c: Chip, d: Chip)
    requires Configurable(c) && PhyOnly(c, d)
    ensures OnlyConfigured(c, d) && Configurable(d)
  {
    UndisturbedConfigured(c, WithPhy(d, c));
    hide Undisturbed;
  }

  /** One byte of a register without side effects. */
  method PutPlain(io: Bus, reg: Reg, k: int, v: byte)
    requires io.Faithful()
    requires io.chip.phase.Deselected? && Calm(io.chip)
    requires Mapped(reg) && reg.kind != Phy && 0 <= k < reg.length && PlainCell(CellOf(reg) + k)
    requires reg.bank != Common ==> Bsel(io.chip) == BankNumber(reg.bank)
    modifies io
    ensures io.Faithful()
    ensures io.chip.phase.Deselected? && Undisturbed(old(io.chip), io.chip) && Bsel(io.chip) == Bsel(old(io.chip))
    ensures io.chip.cells == Put(old(io.chip).cells, CellOf(reg) + k, v) && Calm(io.chip)
  {
    hide Bus.Faithful, Evolves, Undisturbed, Store;
    ghost var c := io.chip;
    ghost var m := PutByte(io, reg.addr + k, v);
    EvolvesIsUndisturbed(c, m);
    PlainStep(c, m, io.chip, reg, k, v);
    CalmStays(c, io.chip);
  }

  /** The written state: a management operation has begun. */
  lemma MiiStarts(m: Chip, v: byte)
    requires m.mii.Idle? && Bsel(m) == 2
    ensures Stored(m, 0x17, v) == m.(cells := m.cells[87 := v], mii := Busy(true, m.latency), phase := Deselected)
    ensures Bit(v, 1) ==>
              Stored(m, 0x12, v) == m.(cells := m.cells[82 := v], mii := Busy(false, m.latency), phase := Deselected)
    ensures !Bit(v, 1) ==> Stored(m, 0x12, v) == m.(cells := m.cells[82 := v], phase := Deselected)
  {
  }

  lemma PeekBusy(c: Chip)
    requires Bsel(c) == 3
    ensures Bit(Peek(c, 0x0a), 1) <==> c.mii.Busy?
  {
  }

  lemma MiiGetsCloser(c: Chip, d: Chip)
    requires Undisturbed(c, d) && c.mii.Busy?
    ensures MiiLeft(d) < MiiLeft(c)
  {
    hide Ring, KeepsRing;
  }

  /** Polls MISTAT through the register function, the select line being low in between, until BUSY is clear. */
  method AwaitMii(dev: Enc28j60)
    requires dev.io.chip.phase.Selected? && dev.Coherent() && !Transmitting(dev.io.chip)
    modifies dev`bank, dev.io
    ensures dev.io.chip.phase.Selected? && dev.Coherent() && dev.bank == Bank3
    ensures Undisturbed(old(dev.io.chip), dev.io.chip) && dev.io.chip.cells == old(dev.io.chip).cells
    ensures dev.io.chip.mii.Idle?
  {
    hide Bus.Faithful, Evolves, Undisturbed, Peek, MiiLeft;
    ghost var c := dev.io.chip;
    var busy := PollMii(dev);
    while busy
      invariant dev.io.chip.phase.Selected? && dev.Coherent() && dev.bank == Bank3
      invariant Undisturbed(c, dev.io.chip) && dev.io.chip.cells == c.cells
      invariant !busy ==> dev.io.chip.mii.Idle?
      decreases if busy then 1 else 0, MiiLeft(dev.io.chip)
    {
      ghost var d := dev.io.chip;
      CalmOrBusy(c, d);
      busy := PollMii(dev);
      UndisturbedTransitive(c, d, dev.io.chip);
      if d.mii.Busy? {
        MiiGetsCloser(d, dev.io.chip);
      }
    }
  }

  lemma CalmOrBusy(c: Chip, d: Chip)
    requires Undisturbed(c, d) && !Transmitting(c)
    ensures !Transmitting(d) && (d.mii.Busy? ==> c.mii.Busy?)
  {
    CalmStays(c, d);
  }

  lemma PhaseThenEvolves(c: Chip, d: Chip, d': Chip, e: Chip)
    requires Undisturbed(c, d) && d.cells == c.cells && !Transmitting(c)
    requires d' == d.(phase := d'.phase) && Evolves(d', e)
    ensures Undisturbed(c, e) && e.cells == c.cells && Bsel(e) == Bsel(d) && (d.mii.Idle? ==> e.mii.Idle?)
  {
    DriverStep(c, d, d');
    EvolvesKeepsBank(d', e);
    hide Undisturbed, Evolves;
    ThenEvolves(c, d', e);
  }

  method PollMii(dev: Enc28j60) returns (busy: bool)
    requires dev.io.chip.phase.Selected? && dev.Coherent() && !Transmitting(dev.io.chip)
    modifies dev`bank, dev.io
    ensures dev.io.chip.phase.Selected? && dev.Coherent() && dev.bank == Bank3
    ensures Undisturbed(old(dev.io.chip), dev.io.chip) && dev.io.chip.cells == old(dev.io.chip).cells
    ensures !busy ==> dev.io.chip.mii.Idle?
    ensures busy ==> old(dev.io.chip).mii.Busy?
  {
    hide Bus.Faithful, Evolves, Undisturbed, Peek;
    ghost var c := dev.io.chip;
    var state := ReadControlReg(dev, MISTAT);
    ghost var d := dev.io.chip;
    PeekBusy(d);
    busy := Bit(Lo(state), 1);
    CalmOrBusy(c, d);
    dev.io.CsHigh();
    ghost var d' := dev.io.chip;
    dev.io.CsLow();
    PhaseThenEvolves(c, d, d', dev.io.chip);
  }

  /** A management operation from its start to the clearing of BUSY, as seen from before it. */
  lemma MiiMasked(m: Chip, s: Chip, x: Chip)
    requires Calm(m) && s == m.(cells := s.cells, phase := s.phase, mii := s.mii) && SameRxBounds(m, s)
    requires Evolves(s, x) && x.mii.Idle?
    ensures Evolves(m, WithPhy(x.(cells := m.cells), m))
  {
    hide Ring, KeepsRing;
    var y := WithPhy(x.(cells := m.cells), m);
    PointerOf(m.cells, s.cells, 0x08);
    PointerOf(m.cells, s.cells, 0x0a);
    assert SteadyAndSooner(m, y) && MiiEvolves(m, y) && MemoryKept(m, y);
    SameRings(m, s);
    SameRings(x, y);
    KeepsRingTransitive(m, s, x);
    KeepsRingTransitive(m, x, y);
  }

  /** When BUSY has cleared after a management operation, the operation is done and nothing else happened. */
  lemma MiiDone(c: Chip, m: Chip, s: Chip, d: Chip)
    requires Calm(c) && Undisturbed(c, m)
    requires s == m.(cells := s.cells, phase := s.phase, mii := s.mii) && s.mii.Busy? && SameRxBounds(m, s)
    requires Undisturbed(s, d) && d.cells == s.cells && d.mii.Idle?
    ensures PhyOnly(c, d)
    ensures var k := s.cells[84] % 0x20;
            if s.mii.writing then d.phy == c.phy[k := Join(s.cells[86], s.cells[87])] && d.phyData == c.phyData
            else d.phy == c.phy && d.phyData == c.phy[k]
  {
    hide Ring, KeepsRing, Evolves;
    CalmStays(c, m);
    var x := Masked(d, s);
    assert Evolves(s, x);
    MiiMasked(m, s, x);
    assert Masked(WithPhy(d, m), m) == WithPhy(x.(cells := m.cells), m);
    assert Undisturbed(m, WithPhy(d, m));
    UndisturbedTransitive(c, m, WithPhy(d, m));
    IdlePhy(c, Masked(m, c));
    OperationDone(s, x);
  }

  lemma IdlePhy(c: Chip, d: Chip)
    requires Evolves(c, d) && c.mii.Idle?
    ensures d.phy == c.phy && d.phyData == c.phyData && d.mii.Idle?
  {
  }

  lemma OperationDone(s: Chip, x: Chip)
    requires Evolves(s, x) && s.mii.Busy? && x.mii.Idle?
    ensures var k := s.cells[84] % 0x20;
            if s.mii.writing then x.phy == s.phy[k := Join(s.cells[86], s.cells[87])] && x.phyData == s.phyData
            else x.phy == s.phy && x.phyData == s.phy[k]
  {
  }

  /** The register cells through which a PHY register is written. */
  function PhyWriteCells(cells: Cells, addr: byte, value: word): Cells
  {
    cells[84 := addr][86 := Lo(value)][87 := Hi(value)]
  }

  lemma PutCells(cells: Cells, addr: byte, value: word)
    requires addr < 0x20
    ensures Put(Put(cells, 84, addr), 86, Lo(value))[87 := Hi(value)] == PhyWriteCells(cells, addr, value)
  {
  }

  /**
   enc28j60_write_reg on a PHY register. The function selects no bank for its writes: it relies on bank 2 being
   selected.
   */
  method WritePhyReg(dev: Enc28j60, reg: Reg, value: word)
    requires dev.io.chip.phase.Deselected? && dev.Coherent() && Calm(dev.io.chip)
    requires Mapped(reg) && reg.kind == Phy
    requires Bsel(dev.io.chip) == 2
    modifies dev`bank, dev.io
    ensures dev.io.chip.phase.Deselected? && dev.Coherent() && dev.bank == Bank3
    ensures PhyOnly(old(dev.io.chip), dev.io.chip)
    ensures dev.io.chip.phy == old(dev.io.chip).phy[reg.addr := value]
    ensures dev.io.chip.phyData == old(dev.io.chip).phyData
    ensures dev.io.chip.cells == PhyWriteCells(old(dev.io.chip).cells, reg.addr, value)
  {
    hide Bus.Faithful, Evolves, Undisturbed, Stored, PhyOnly, PhyWriteCells, Put;
    ghost var c := dev.io.chip;
    PutPlain(dev.io, MIREGADR, 0, reg.addr);
    ghost var c1 := dev.io.chip;
    PutPlain(dev.io, MIWR, 0, Lo(value));
    ghost var c2 := dev.io.chip;
    UndisturbedTransitive(c, c1, c2);
    ghost var m := PutByte(dev.io, MIWR.addr + 1, Hi(value));
    ghost var s := dev.io.chip;
    PhyWriteStarted(c, c2, m, s, reg.addr, value);
    dev.io.CsLow();
    ghost var s1 := dev.io.chip;
    EvolvesIsUndisturbed(s, s1);
    CalmOrBusy(s, s1);
    AwaitMii(dev);
    ghost var d := dev.io.chip;
    UndisturbedTransitive(s, s1, d);
    dev.io.CsHigh();
    DriverStep(s, d, dev.io.chip);
    PhyWritten(c, c2, m, s, dev.io.chip, reg.addr, value);
  }

  /** The write of MIWRH, the last one, starts the transfer. */
  lemma PhyWriteStarted(c: Chip, c2: Chip, m: Chip, s: Chip, addr: byte, value: word)
    requires Calm(c2) && addr < 0x20 && Evolves(c2, m) && Bsel(c2) == 2 && s == Stored(m, 0x17, Hi(value))
    requires c2.cells == Put(Put(c.cells, 84, addr), 86, Lo(value))
    ensures s == m.(cells := PhyWriteCells(c.cells, addr, value), mii := Busy(true, m.latency), phase := Deselected)
    ensures !Transmitting(s) && Bsel(s) == 2
  {
    EvolvesKeepsBank(c2, m);
    EvolvesKeepsEcon1(c2, m);
    EvolvesIsUndisturbed(c2, m);
    MiiStarts(m, Hi(value));
    PutCells(c.cells, addr, value);
    hide Evolves, Stored, Undisturbed, PhyWriteCells, Put;
  }

  lemma PhyWritten(c: Chip, c2: Chip, m: Chip, s: Chip, d: Chip, addr: byte, value: word)
    requires Calm(c) && Calm(c2) && Undisturbed(c, c2) && Evolves(c2, m) && addr < 0x20
    requires c2.cells == Put(Put(c.cells, 84, addr), 86, Lo(value))
    requires s == m.(cells := PhyWriteCells(c.cells, addr, value), mii := s.mii, phase := s.phase)
    requires s.mii.Busy? && s.mii.writing && Undisturbed(s, d) && d.cells == s.cells && d.mii.Idle?
    ensures PhyOnly(c, d) && d.phy == c.phy[addr := value] && d.phyData == c.phyData
  {
    JoinSplit(value);
    PutCells(c.cells, addr, value);
    assert s.cells[84] == addr && s.cells[86] == Lo(value) && s.cells[87] == Hi(value);
    hide Undisturbed, Evolves, PhyWriteCells, Lo, Hi, Join, Put, PhyOnly;
    EvolvesIsUndisturbed(c2, m);
    UndisturbedTransitive(c, c2, m);
    WriteCellsBounds(c.cells, m.cells, addr, value);
    MiiDone(c, m, s, d);
  }

  lemma WriteCellsBounds(cells: Cells, before: Cells, addr: byte, value: word)
    requires addr < 0x20 && before == Put(Put(cells, 84, addr), 86, Lo(value))
    ensures forall k :: 0x08 <= k < 0x0c ==> PhyWriteCells(cells, addr, value)[k] == before[k]
  {
  }

  // ---------- Reading ----------

  lemma CommandBit(v: byte)
    ensures 0 <= SetBit(v, 1) < 0x100 && Bit(SetBit(v, 1), 1)
    ensures 0 <= ClearBit(v, 1) < 0x100 && !Bit(ClearBit(v, 1), 1)
    ensures ClearBit(SetBit(v, 1), 1) == ClearBit(v, 1)
  {
  }

  /** One register byte read in the selected bank: nothing changes. */
  method GetCell(io: Bus, reg: Reg, k: int) returns (v: byte)
    requires io.Faithful()
    requires BetweenCommands(io.chip) && Calm(io.chip)
    requires Mapped(reg) && reg.kind != Phy && reg.bank != Common && 0 <= k < reg.length
    requires Bsel(io.chip) == BankNumber(reg.bank)
    modifies io
    ensures io.Faithful()
    ensures io.chip.phase.Deselected? && Undisturbed(old(io.chip), io.chip)
    ensures io.chip.cells == old(io.chip).cells && Bsel(io.chip) == Bsel(old(io.chip)) && Calm(io.chip)
    ensures v == Peek(io.chip, reg.addr + k)
  {
    hide Bus.Faithful, Evolves, Undisturbed, Peek;
    ghost var c := io.chip;
    MappedDummy(reg, Bsel(c), k);
    v := GetByte(io, reg.kind, reg.addr + k);
    EvolvesIsUndisturbed(c, io.chip);
    CalmStays(c, io.chip);
  }

  method StartPhyRead(dev: Enc28j60, reg: Reg) returns (ghost m: Chip)
    requires dev.io.chip.phase.Deselected? && dev.Coherent() && Calm(dev.io.chip)
    requires Mapped(reg) && reg.kind == Phy
    modifies dev`bank, dev.io
    ensures dev.io.chip.phase.Deselected? && dev.Coherent() && dev.bank == Bank2
    ensures Undisturbed(old(dev.io.chip), m) && m.cells == old(dev.io.chip).cells[84 := reg.addr] && m.mii.Idle?
    ensures dev.io.chip == m.(cells := m.cells[82 := SetBit(m.cells[82], 1)], mii := Busy(false, m.latency),
                              phase := Deselected)
    ensures !Transmitting(dev.io.chip)
  {
    hide Bus.Faithful, Evolves, Undisturbed, Peek, SetBit, ClearBit, Bit, Stored;
    ghost var c := dev.io.chip;
    dev.io.CsLow();
    ghost var c0 := dev.io.chip;
    EvolvesIsUndisturbed(c, c0);
    CalmStays(c, c0);
    BankChanging(dev, MIREGADR.bank);
    ghost var c1 := dev.io.chip;
    UndisturbedTransitive(c, c0, c1);
    CalmStays(c, c1);
    var tmp := GetCell(dev.io, MICMD, 0);
    ghost var c2 := dev.io.chip;
    UndisturbedTransitive(c, c1, c2);
    PeekIsCell(c2, MICMD, 0);
    PutPlain(dev.io, MIREGADR, 0, reg.addr);
    ghost var c3 := dev.io.chip;
    UndisturbedTransitive(c, c2, c3);
    CommandBit(tmp);
    m := PutByte(dev.io, MICMD.addr, SetBit(tmp, 1));
    EvolvesKeepsBank(c3, m);
    EvolvesKeepsEcon1(c3, m);
    EvolvesIsUndisturbed(c3, m);
    UndisturbedTransitive(c, c3, m);
    MiiStarts(m, SetBit(tmp, 1));
  }

  /** Polls MISTAT byte by byte until BUSY is clear. */
  method AwaitPhyRead(dev: Enc28j60)
    requires dev.io.Faithful()
    requires dev.io.chip.phase.Deselected? && !Transmitting(dev.io.chip)
    modifies dev`bank, dev.io
    ensures dev.io.chip.phase.Deselected? && dev.Coherent() && dev.bank == Bank3
    ensures Undisturbed(old(dev.io.chip), dev.io.chip) && dev.io.chip.cells == old(dev.io.chip).cells
    ensures dev.io.chip.mii.Idle?
  {
    hide Bus.Faithful, Evolves, Undisturbed, Peek, MiiLeft;
    ghost var c := dev.io.chip;
    BankChanging(dev, MISTAT.bank);
    ghost var d := dev.io.chip;
    CalmOrBusy(c, d);
    var state := GetByte(dev.io, Mii, MISTAT.addr);
    ThenEvolves(c, d, dev.io.chip);
    PeekBusy(dev.io.chip);
    while Bit(state, 1)
      invariant dev.io.chip.phase.Deselected? && dev.bank == Bank3 && dev.Coherent()
      invariant Undisturbed(c, dev.io.chip) && dev.io.chip.cells == c.cells
      invariant Bit(state, 1) <==> dev.io.chip.mii.Busy?
      decreases MiiLeft(dev.io.chip)
    {
      d := dev.io.chip;
      CalmOrBusy(c, d);
      state := GetByte(dev.io, Mii, MISTAT.addr);
      ThenEvolves(c, d, dev.io.chip);
      PeekBusy(dev.io.chip);
      EvolvesIsUndisturbed(d, dev.io.chip);
      MiiGetsCloser(d, dev.io.chip);
    }
  }

  /** MIIRD is cleared, then the two data registers are read. */
  method FinishPhyRead(dev: Enc28j60) returns (ret: word)
    requires dev.io.Faithful()
    requires dev.io.chip.phase.Deselected? && Calm(dev.io.chip)
    modifies dev`bank, dev.io
    ensures dev.io.chip.phase.Deselected? && dev.Coherent() && dev.bank == Bank2
    ensures Undisturbed(old(dev.io.chip), dev.io.chip)
    ensures var cells := old(dev.io.chip).cells; dev.io.chip.cells == cells[82 := ClearBit(cells[82], 1)]
    ensures ret == old(dev.io.chip).phyData
  {
    hide Bus.Faithful, Evolves, Undisturbed, Peek, SetBit, ClearBit, Bit, Stored, PhyOnly;
    ghost var c := dev.io.chip;
    dev.io.CsLow();
    ghost var c0 := dev.io.chip;
    EvolvesIsUndisturbed(c, c0);
    CalmStays(c, c0);
    BankChanging(dev, MIREGADR.bank);
    ghost var c1 := dev.io.chip;
    UndisturbedTransitive(c, c0, c1);
    CalmStays(c, c1);
    var tmp := GetCell(dev.io, MICMD, 0);
    ghost var c2 := dev.io.chip;
    UndisturbedTransitive(c, c1, c2);
    PeekIsCell(c2, MICMD, 0);
    CommandBit(tmp);
    ghost var m := PutByte(dev.io, MICMD.addr, ClearBit(tmp, 1));
    ghost var c3 := dev.io.chip;
    MiiCleared(c, c2, m, c3, ClearBit(tmp, 1));
    PhyDataKept(c, c3);
    ret := ReadPhyData(dev);
    UndisturbedTransitive(c, c3, dev.io.chip);
  }

  lemma MiiCleared(c: Chip, c2: Chip, m: Chip, c3: Chip, v: byte)
    requires Undisturbed(c, c2) && Calm(c) && Calm(c2) && Evolves(c2, m) && Bsel(c2) == 2 && !Bit(v, 1)
    requires c3 == Stored(m, 0x12, v)
    ensures Undisturbed(c, c3) && c3.cells == c2.cells[82 := v] && Bsel(c3) == 2 && Calm(c3) && c3.phase.Deselected?
  {
    EvolvesKeepsBank(c2, m);
    EvolvesKeepsEcon1(c2, m);
    EvolvesIsUndisturbed(c2, m);
    MiiStarts(m, v);
    hide Evolves, Undisturbed, Stored;
    UndisturbedTransitive(c, c2, m);
    DriverStep(c, m, c3);
  }

  lemma PhyDataKept(c: Chip, d: Chip)
    requires Undisturbed(c, d) && Calm(c)
    ensures d.phyData == c.phyData
  {
    hide Ring, KeepsRing;
  }

  method ReadPhyData(dev: Enc28j60) returns (ret: word)
    requires dev.io.Faithful()
    requires dev.io.chip.phase.Deselected? && Calm(dev.io.chip) && Bsel(dev.io.chip) == 2
    modifies dev.io
    ensures dev.io.Faithful()
    ensures dev.io.chip.phase.Deselected? && Undisturbed(old(dev.io.chip), dev.io.chip)
    ensures dev.io.chip.cells == old(dev.io.chip).cells && Bsel(dev.io.chip) == 2
    ensures ret == old(dev.io.chip).phyData
  {
    hide Bus.Faithful, Undisturbed, Peek;
    ghost var c := dev.io.chip;
    var low := GetCell(dev.io, MIRD, 0);
    ghost var c1 := dev.io.chip;
    PhyDataKept(c, c1);
    PeekPhyData(c1);
    var high := GetCell(dev.io, MIRD, 1);
    UndisturbedTransitive(c, c1, dev.io.chip);
    PhyDataKept(c, dev.io.chip);
    PeekPhyData(dev.io.chip);
    JoinSplit(c.phyData);
    ret := Join(low, high);
  }

  lemma PeekPhyData(c: Chip)
    requires Bsel(c) == 2
    ensures Peek(c, 0x18) == Lo(c.phyData) && Peek(c, 0x19) == Hi(c.phyData)
  {
  }

  /** enc28j60_read_reg on a PHY register: the value is fetched through MIRD once BUSY has cleared. */
  method ReadPhyReg(dev: Enc28j60, reg: Reg) returns (ret: word)
    requires dev.io.chip.phase.Deselected? && dev.Coherent() && Calm(dev.io.chip)
    requires Mapped(reg) && reg.kind == Phy
    modifies dev`bank, dev.io
    ensures dev.io.chip.phase.Deselected? && dev.Coherent() && dev.bank == Bank2
    ensures PhyOnly(old(dev.io.chip), dev.io.chip) && dev.io.chip.phy == old(dev.io.chip).phy
    ensures ret == dev.io.chip.phyData == old(dev.io.chip).phy[reg.addr]
    ensures var cells := old(dev.io.chip).cells;
            dev.io.chip.cells == cells[84 := reg.addr][82 := ClearBit(cells[82], 1)]
  {
    hide Bus.Faithful, Undisturbed, SetBit, ClearBit, PhyOnly;
    ghost var c := dev.io.chip;
    ghost var m := StartPhyRead(dev, reg);
    ghost var s := dev.io.chip;
    AwaitPhyRead(dev);
    ghost var d := dev.io.chip;
    PhyFetched(c, m, s, d, reg.addr);
    ret := FinishPhyRead(dev);
    IdleRead(c, d, dev.io.chip);
    CommandBit(c.cells[82]);
    assert d.cells[82] == SetBit(c.cells[82], 1);
  }

  lemma PhyFetched(c: Chip, m: Chip, s: Chip, d: Chip, addr: byte)
    requires Calm(c) && Undisturbed(c, m) && m.cells == c.cells[84 := addr] && m.mii.Idle? && addr < 0x20
    requires s == m.(cells := m.cells[82 := SetBit(m.cells[82], 1)], mii := Busy(false, m.latency), phase := Deselected)
    requires Undisturbed(s, d) && d.cells == s.cells && d.mii.Idle?
    ensures PhyOnly(c, d) && Calm(d) && d.phy == c.phy && d.phyData == c.phy[addr]
  {
    CommandBit(m.cells[82]);
    hide SetBit, Undisturbed;
    assert s.cells[84] == addr;
    CalmStays(c, m);
    CalmOrBusy(s, d);
    MiiDone(c, m, s, d);
  }

  /** After the operation the registers are only read. */
  lemma IdleRead(c: Chip, d: Chip, e: Chip)
    requires Calm(c) && Calm(d) && PhyOnly(c, d) && Undisturbed(d, e)
    ensures PhyOnly(c, e) && e.phy == d.phy && e.phyData == d.phyData
  {
    hide Evolves;
    CalmStays(d, e);
    IdlePhy(d, Masked(e, d));
    assert WithPhy(e, d) == e;
    hide Undisturbed;
    PhyOnlyTransitive(c, d, e);
  }
}
