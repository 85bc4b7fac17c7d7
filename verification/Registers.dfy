/** User/enc28j60/lowlayer/src/enc28j60_ll.c: control registers and the bank cache. */
module Registers {
  import opened Bytes
  import opened RegisterMap
  import opened ChipModel
  import opened RxRing
  import opened Environment
  import opened Quiescence
  import opened Port
  import opened Device

  /** The description of a register agrees with the chip's register file. */
  predicate Mapped(reg: Reg) {
    && 0 <= reg.addr < 0x20 && (reg.length == 1 || reg.length == 2)
    && match reg.kind {
      case Eth =>
        if reg.bank == Common then reg.addr >= 0x1b && reg.length == 1
        else
          && reg.addr + reg.length <= 0x1b
          && forall a :: reg.addr <= a < reg.addr + reg.length ==> !SendsDummy(BankNumber(reg.bank), a)
      case Phy => reg.bank == Common && reg.length == 2
      case _ =>
        && reg.bank != Common && reg.addr + reg.length <= 0x1b
        && forall a :: reg.addr <= a < reg.addr + reg.length ==> SendsDummy(BankNumber(reg.bank), a)
    }
  }

  /** The register's place in the flat register file. */
  function CellOf(reg: Reg): int
    requires Mapped(reg)
  {
    if reg.bank == Common then reg.addr else 0x20 * BankNumber(reg.bank) + reg.addr
  }

  predicate BetweenCommands(c: Chip) {
    c.phase.Deselected? || c.phase.Selected?
  }

  /** Writing back ECON1 with another bank changes nothing else, as long as no transmission is under way. */
  lemma StoreBank(c: Chip, bank: BankSelect, v: byte)
    requires !Transmitting(c) && Econ1Of(v) == c.econ1.(bsel := bank)
    ensures Store(c, 0x1f, v) == c.(econ1 := c.econ1.(bsel := bank))
  {
  }

  lemma PeekEcon1(c: Chip)
    ensures Peek(c, 0x1f) == Econ1Byte(c.econ1) && Econ1Byte(c.econ1) % 4 == Bsel(c)
    ensures Econ1Of(Peek(c, 0x1f)) == c.econ1
  {
    Econ1RoundTrip(c.econ1);
  }

  /** Selecting another bank: ECON1 is read, and written back with its lowest two bits replaced. */
  function SelectBytes(c: Chip, bank: Bank): seq<byte>
    requires bank != Common
  {
    [0x1f, 0x00, 0x5f, Peek(c, 0x1f) / 4 * 4 + BankNumber(bank)]
  }

  lemma BankBytes(c: Chip, bank: Bank)
    requires bank != Common
    ensures SelectBytes(c, bank) == [0x1f, 0x00, 0x5f, Econ1Byte(c.econ1.(bsel := BankNumber(bank)))]
  {
  }

  lemma EvolvesKeepsEcon1(c: Chip, d: Chip)
    requires Evolves(c, d)
    ensures !Transmitting(c) ==> d.econ1 == c.econ1
  {
  }

  lemma EconHasNoDummy(c: Chip)
    ensures !SendsDummy(Bsel(c), 0x1f) && Cell(Bsel(c), 0x1f) == 0x1f
  {
  }

  lemma BankStored(c: Chip, m: Chip, e: Chip, bank: Bank, v: byte)
    requires bank != Common && Evolves(c, m) && !Transmitting(c) && m.econ1 == c.econ1
    requires v == Econ1Byte(c.econ1.(bsel := BankNumber(bank))) && e == Stored(m, 0x1f, v)
    ensures Undisturbed(c, e) && e.cells == c.cells && Bsel(e) == BankNumber(bank) && e.phase.Deselected?
  {
    hide Evolves, Undisturbed, Store, Econ1Byte, Econ1Of;
    EvolvesIsUndisturbed(c, m);
    Econ1RoundTrip(m.econ1.(bsel := BankNumber(bank)));
    StoreBank(m, BankNumber(bank), v);
    DriverStep(c, m, e);
  }

  /** enc28j60_bank_changing. */
  method BankChanging(dev: Enc28j60, newBank: Bank)
    requires dev.io.Faithful()
    requires newBank != Common && BetweenCommands(dev.io.chip) && !Transmitting(dev.io.chip)
    modifies dev`bank, dev.io
    ensures dev.bank == newBank && dev.Coherent() && dev.io.chip.phase.Deselected?
    ensures Undisturbed(old(dev.io.chip), dev.io.chip) && dev.io.chip.cells == old(dev.io.chip).cells
    ensures dev.io.clocked == old(dev.io.clocked) + SelectBytes(old(dev.io.chip), newBank)
  {
    hide Bus.Faithful, Evolves, Undisturbed, Stored, Peek, Econ1Byte, Econ1Of, SelectBytes;
    ghost var c := dev.io.chip;
    EconHasNoDummy(c);
    var tmp := GetByte(dev.io, Eth, ECON1.addr);
    ghost var c1 := dev.io.chip;
    EvolvesKeepsEcon1(c, c1);
    PeekEcon1(c1);
    tmp := Econ1Byte(Econ1Of(tmp).(bsel := BankNumber(newBank)));
    BankBytes(c, newBank);
    ghost var m := PutByte(dev.io, ECON1.addr, tmp);
    EvolvesTransitive(c, c1, m);
    EvolvesKeepsEcon1(c1, m);
    BankStored(c, m, dev.io.chip, newBank, tmp);
    dev.bank := newBank;
  }

  /** The guard both register functions start with. */
  predicate NeedsSwitch(bank: Bank, reg: Reg) {
    bank != reg.bank && reg.bank != Common
  }

  /** What both register functions require: a bank switch writes ECON1 back, so no transmission may be under way. */
  ghost predicate CanAccess(dev: Enc28j60, reg: Reg)
    reads dev, dev.io
  {
    && BetweenCommands(dev.io.chip) && dev.Coherent() && Mapped(reg)
    && (NeedsSwitch(dev.bank, reg) ==> !Transmitting(dev.io.chip))
  }

  lemma EvolvesOrUndisturbedIdle(c: Chip, d: Chip)
    requires d == c || (Undisturbed(c, d) && !Transmitting(c))
    ensures c.mii.Idle? ==> d.mii.Idle?
  {
    if d != c {
      CalmStays(c, d);
    }
  }

  lemma ThenEvolves(c: Chip, d: Chip, e: Chip)
    requires d == c || (Undisturbed(c, d) && d.cells == c.cells && !Transmitting(c))
    requires Evolves(d, e)
    ensures Undisturbed(c, e) && e.cells == c.cells && Bsel(e) == Bsel(d)
  {
    hide Evolves, Undisturbed;
    EvolvesIsUndisturbed(d, e);
    if d != c {
      UndisturbedTransitive(c, d, e);
    }
  }

  /** Entering the register's bank, if the cached one is another. */
  function SwitchBytes(c: Chip, bank: Bank, reg: Reg): seq<byte> {
    if NeedsSwitch(bank, reg) then SelectBytes(c, reg.bank) else []
  }

  method EnterBank(dev: Enc28j60, reg: Reg)
    requires CanAccess(dev, reg) && reg.kind != Phy
    modifies dev`bank, dev.io
    ensures BetweenCommands(dev.io.chip) && dev.Coherent()
    ensures reg.bank != Common ==> Bsel(dev.io.chip) == BankNumber(reg.bank)
    ensures NeedsSwitch(old(dev.bank), reg) ==>
              && Undisturbed(old(dev.io.chip), dev.io.chip) && dev.io.chip.cells == old(dev.io.chip).cells
              && dev.bank == reg.bank
    ensures !NeedsSwitch(old(dev.bank), reg) ==> dev.io.chip == old(dev.io.chip) && dev.bank == old(dev.bank)
    ensures dev.io.clocked == old(dev.io.clocked) + SwitchBytes(old(dev.io.chip), old(dev.bank), reg)
  {
    hide Bus.Faithful, Undisturbed, SelectBytes;
    if dev.bank != reg.bank && reg.bank != Common {
      BankChanging(dev, reg.bank);
    }
  }

  /** One control-register read in a select window of its own. */
  method GetByte(io: Bus, kind: RegType, addr: byte) returns (value: byte)
    requires io.Faithful()
    requires BetweenCommands(io.chip) && addr < 0x20 && kind != Phy
    requires SendsDummy(Bsel(io.chip), addr) == (kind != Eth)
    requires Cell(Bsel(io.chip), addr) in {88, 89} ==> io.chip.mii.Idle?
    modifies io
    ensures io.Faithful()
    ensures Evolves(old(io.chip), io.chip) && io.chip.phase.Deselected?
    ensures value == Peek(io.chip, addr)
    ensures io.clocked == old(io.clocked) + ByteRead(kind, addr)
  {
    hide Bus.Faithful, Evolves, Peek, SendsDummy;
    ghost var c := io.chip;
    io.CsLow();
    ghost var c1 := io.chip;
    EvolvesKeepsBank(c, c1);
    if kind == Eth {
      value := io.ReadData8(READ_CONTROL + addr);
    } else {
      var both := io.ReadData16(READ_CONTROL + addr);
      value := both % 0x100;
    }
    ghost var c2 := io.chip;
    EvolvesTransitive(c, c1, c2);
    io.CsHigh();
    PhaseIsFree(c, c2, io.chip);
    PeekIgnoresPhase(c2, io.chip, addr);
  }

  lemma PeekIgnoresPhase(c: Chip, d: Chip, addr: int)
    requires d == c.(phase := d.phase) && 0 <= addr < 0x20
    ensures Peek(d, addr) == Peek(c, addr)
  {
  }

  /** One control-register write in a select window of its own; it takes effect in the state `before`. */
  method PutByte(io: Bus, addr: byte, v: byte) returns (ghost before: Chip)
    requires io.Faithful()
    requires BetweenCommands(io.chip) && addr < 0x20
    modifies io
    ensures io.Faithful()
    ensures Evolves(old(io.chip), before)
    ensures io.chip == Stored(before, addr, v) && io.clocked == old(io.clocked) + [0x40 + addr, v]
  {
    hide Bus.Faithful, Evolves, Store;
    ghost var c := io.chip;
    io.CsLow();
    ghost var c1 := io.chip;
    before := io.SendData8(WRITE_CONTROL + addr, v);
    EvolvesTransitive(c, c1, before);
    io.CsHigh();
  }

  /** The register's type tells whether the chip sends a dummy byte first. */
  lemma MappedDummy(reg: Reg, bank: BankSelect, k: int)
    requires Mapped(reg) && reg.kind != Phy && 0 <= k < reg.length
    requires reg.bank != Common ==> bank == BankNumber(reg.bank)
    ensures SendsDummy(bank, reg.addr + k) == (reg.kind != Eth)
    ensures Cell(bank, reg.addr + k) == CellOf(reg) + k
  {
  }

  /** The register holds what the driver wrote: the chip does not change it. */
  predicate DriverOwned(reg: Reg)
    requires Mapped(reg)
  {
    !ReadOnly(CellOf(reg)) && (reg.length == 2 ==> !ReadOnly(CellOf(reg) + 1))
  }

  /** The register is not ECON1 or ECON2, which the chip keeps apart. */
  predicate InCells(reg: Reg) {
    reg.bank != Common || reg.addr < 0x1e
  }

  lemma PeekIsCell(c: Chip, reg: Reg, k: int)
    requires Mapped(reg) && reg.kind != Phy && 0 <= k < reg.length
    requires reg.bank != Common ==> Bsel(c) == BankNumber(reg.bank)
    requires !ReadOnly(CellOf(reg) + k) && InCells(reg)
    ensures Peek(c, reg.addr + k) == c.cells[CellOf(reg) + k]
  {
  }

  /** A two-byte register is read in two steps: the low byte in a state between `c` and `d`, the high one in `d`. */
  ghost predicate ReadInTwo(c: Chip, d: Chip, addr: int, ret: word)
    requires 0 <= addr < 0x1f
  {
    exists m: Chip ::
      Undisturbed(c, m) && Evolves(m, d) && Lo(ret) == Peek(m, addr) && Hi(ret) == Peek(d, addr + 1)
  }

  /** Reading a register: each byte in a window of its own, behind a dummy byte unless it is an ETH register. */
  function ReadBytes(reg: Reg): seq<byte>
    requires Mapped(reg)
  {
    if reg.length == 1 then ByteRead(reg.kind, reg.addr)
    else ByteRead(reg.kind, reg.addr) + ByteRead(reg.kind, reg.addr + 1)
  }

  function ByteRead(kind: RegType, addr: byte): seq<byte> {
    if kind == Eth then [addr, 0] else [addr, 0, 0]
  }

  lemma JoinedBytes(low: byte, high: byte)
    ensures Lo(Join(low, high)) == low && Hi(Join(low, high)) == high
  {
  }

  /** enc28j60_read_reg on an ETH, MAC or MII register. */
  method ReadControlReg(dev: Enc28j60, reg: Reg) returns (ret: word)
    requires CanAccess(dev, reg) && reg.kind != Phy
    requires CellOf(reg) in {87, 88, 89} ==> dev.io.chip.mii.Idle?
    modifies dev`bank, dev.io
    ensures dev.io.chip.phase.Deselected? && dev.Coherent()
    ensures dev.bank == if NeedsSwitch(old(dev.bank), reg) then reg.bank else old(dev.bank)
    ensures Undisturbed(old(dev.io.chip), dev.io.chip) && dev.io.chip.cells == old(dev.io.chip).cells
    ensures !NeedsSwitch(old(dev.bank), reg) ==> Evolves(old(dev.io.chip), dev.io.chip)
    ensures reg.length == 1 ==> ret == Peek(dev.io.chip, reg.addr)
    ensures reg.length == 2 ==> ReadInTwo(old(dev.io.chip), dev.io.chip, reg.addr, ret)
    ensures reg.length == 2 && DriverOwned(reg) ==>
              ret == Join(dev.io.chip.cells[CellOf(reg)], dev.io.chip.cells[CellOf(reg) + 1])
    ensures dev.io.clocked
             == old(dev.io.clocked) + (SwitchBytes(old(dev.io.chip), old(dev.bank), reg) + ReadBytes(reg))
  {
    hide Bus.Faithful, Evolves, Undisturbed, Peek, SendsDummy, ReadOnly, SwitchBytes, ByteRead, Lo, Hi, Join;
    ghost var c := dev.io.chip;
    EnterBank(dev, reg);
    ghost var c1 := dev.io.chip;
    MappedDummy(reg, Bsel(c1), 0);
    EvolvesOrUndisturbedIdle(c, c1);
    ret := GetByte(dev.io, reg.kind, reg.addr);
    ghost var c2 := dev.io.chip;
    ThenEvolves(c, c1, c2);
    EvolvesKeepsBank(c1, c2);
    if reg.length == 2 {
      MappedDummy(reg, Bsel(c2), 1);
      if !ReadOnly(CellOf(reg)) {
        PeekIsCell(c2, reg, 0);
      }
      var high := GetByte(dev.io, reg.kind, reg.addr + 1);
      ghost var c3 := dev.io.chip;
      JoinedBytes(ret, high);
      ret := Join(ret, high);
      EvolvesTransitive(c1, c2, c3);
      ThenEvolves(c, c1, c3);
      if !ReadOnly(CellOf(reg) + 1) {
        PeekIsCell(c3, reg, 1);
      }
    }
  }

  // ---------- Writing ----------

  /** Writing a register: each byte in a window of its own, the low one first. */
  function WriteBytes(reg: Reg, value: word): seq<byte>
    requires Mapped(reg)
  {
    [0x40 + reg.addr, Lo(value)] + if reg.length == 2 then [0x40 + reg.addr + 1, Hi(value)] else []
  }

  /** The chip after a control-register write `v` at `addr` that took effect in `c`. */
  function Stored(c: Chip, addr: int, v: byte): Chip
    requires 0 <= addr < 0x20
  {
    Store(c, addr, v).(phase := Deselected)
  }

  /** A write to ECON1 must name the bank that is selected; no other write can change it. */
  predicate KeepsBank(c: Chip, reg: Reg, value: word) {
    reg.bank == Common && reg.addr == 0x1f ==> Lo(value) % 4 == Bsel(c)
  }

  lemma StoreKeepsBank(c: Chip, addr: int, v: byte)
    requires 0 <= addr < 0x20 && (addr == 0x1f ==> v % 4 == Bsel(c))
    ensures Bsel(Stored(c, addr, v)) == Bsel(c) && Stored(c, addr, v).phase.Deselected?
  {
  }

  /** The register file after `value` is written to `reg`: each byte cut to the bits that exist. */
  function Written(cells: Cells, reg: Reg, value: word): Cells
    requires Mapped(reg)
  {
    var once := Put(cells, CellOf(reg), Lo(value));
    if reg.length == 2 then Put(once, CellOf(reg) + 1, Hi(value)) else once
  }

  /** Writing the cell has no effect beside storing the value. */
  predicate PlainCell(k: int) {
    !ReadOnly(k) && k !in {0x08, 0x09, 0x0a, 0x0b, 0x0d, 0x1e, 0x1f, 82, 87}
  }

  predicate Plain(reg: Reg)
    requires Mapped(reg)
  {
    PlainCell(CellOf(reg)) && (reg.length == 2 ==> PlainCell(CellOf(reg) + 1))
  }

  lemma PlainStore(c: Chip, reg: Reg, k: int, v: byte)
    requires Mapped(reg) && reg.kind != Phy && 0 <= k < reg.length
    requires reg.bank != Common ==> Bsel(c) == BankNumber(reg.bank)
    requires PlainCell(CellOf(reg) + k)
    ensures Stored(c, reg.addr + k, v) == c.(cells := Put(c.cells, CellOf(reg) + k, v), phase := Deselected)
    ensures SameRxBounds(c, Stored(c, reg.addr + k, v))
  {
  }

  lemma PlainStep(c: Chip, m: Chip, e: Chip, reg: Reg, k: int, v: byte)
    requires Undisturbed(c, m) && !Transmitting(c)
    requires Mapped(reg) && reg.kind != Phy && 0 <= k < reg.length
    requires reg.bank != Common ==> Bsel(m) == BankNumber(reg.bank)
    requires PlainCell(CellOf(reg) + k) && e == Stored(m, reg.addr + k, v)
    ensures Undisturbed(c, e) && e.cells == Put(m.cells, CellOf(reg) + k, v) && Bsel(e) == Bsel(m)
  {
    PlainStore(m, reg, k, v);
    hide Undisturbed, Store;
    DriverStep(c, m, e);
  }

  lemma PlainWrite(c: Chip, m1: Chip, m2: Chip, e: Chip, reg: Reg, value: word)
    requires Mapped(reg) && reg.kind != Phy && Plain(reg) && Calm(c)
    requires Undisturbed(c, m1) && m1.cells == c.cells
    requires reg.bank != Common ==> Bsel(m1) == BankNumber(reg.bank)
    requires reg.length == 1 ==> e == Stored(m1, reg.addr, Lo(value))
    requires reg.length == 2 ==>
               Evolves(Stored(m1, reg.addr, Lo(value)), m2) && e == Stored(m2, reg.addr + 1, Hi(value))
    ensures Undisturbed(c, e) && e.cells == Written(c.cells, reg, value)
  {
    hide Undisturbed, Evolves, Store;
    var e1 := Stored(m1, reg.addr, Lo(value));
    PlainStep(c, m1, e1, reg, 0, Lo(value));
    if reg.length == 2 {
      EvolvesIsUndisturbed(e1, m2);
      UndisturbedTransitive(c, e1, m2);
      PlainStep(c, m2, e, reg, 1, Hi(value));
    }
  }

  /** ECON1 and ECON2 need no bank: reading and writing them takes two bytes each. */
  lemma EconBytes(c: Chip, bank: Bank, reg: Reg, v: byte)
    requires reg == ECON1 || reg == ECON2
    ensures SwitchBytes(c, bank, reg) == [] && ReadBytes(reg) == [reg.addr, 0]
    ensures WriteBytes(reg, v) == [0x40 + reg.addr, v]
  {
  }

  /** A copy of one of them read, and written back changed. */
  lemma CopyBytes(c: Chip, c1: Chip, bank: Bank, reg: Reg, v: byte, a: seq<byte>, b: seq<byte>, d: seq<byte>)
    requires (reg == ECON1 || reg == ECON2) && b == a + (SwitchBytes(c, bank, reg) + ReadBytes(reg))
    requires d == b + (SwitchBytes(c1, bank, reg) + WriteBytes(reg, v))
    ensures d == a + [reg.addr, 0, 0x40 + reg.addr, v]
  {
    hide SwitchBytes, ReadBytes, WriteBytes;
    EconBytes(c, bank, reg, v);
    EconBytes(c1, bank, reg, v);
  }

  lemma StoreCell(c: Chip, reg: Reg, k: int, v: byte)
    requires Mapped(reg) && reg.kind != Phy && InCells(reg) && 0 <= k < reg.length
    requires (reg.bank != Common ==> Bsel(c) == BankNumber(reg.bank)) && !ReadOnly(CellOf(reg) + k)
    ensures Stored(c, reg.addr + k, v).cells == Put(c.cells, CellOf(reg) + k, v)
  {
  }

  lemma WrittenCells(c: Chip, m1: Chip, m2: Chip, e: Chip, reg: Reg, value: word)
    requires Mapped(reg) && reg.kind != Phy && InCells(reg) && DriverOwned(reg)
    requires m1.cells == c.cells && (reg.bank != Common ==> Bsel(m1) == BankNumber(reg.bank))
    requires reg.length == 1 ==> e == Stored(m1, reg.addr, Lo(value))
    requires reg.length == 2 ==>
               && Evolves(Stored(m1, reg.addr, Lo(value)), m2) && Bsel(m2) == Bsel(m1)
               && e == Stored(m2, reg.addr + 1, Hi(value))
    ensures e.cells == Written(c.cells, reg, value)
  {
    hide Evolves, Stored, Undisturbed, ReadOnly, Lo, Hi, Implemented;
    StoreCell(m1, reg, 0, Lo(value));
    if reg.length == 2 {
      EvolvesIsUndisturbed(Stored(m1, reg.addr, Lo(value)), m2);
      StoreCell(m2, reg, 1, Hi(value));
    }
  }

  /**
   enc28j60_write_reg on an ETH, MAC or MII register. The low byte takes effect in `m1`, the high byte, if there is
   one, in `m2`. A register without side effects just gets its value; nothing else changes.
   */
  method WriteControlReg(dev: Enc28j60, reg: Reg, value: word) returns (ghost m1: Chip, ghost m2: Chip)
    requires CanAccess(dev, reg) && reg.kind != Phy && KeepsBank(dev.io.chip, reg, value)
    modifies dev`bank, dev.io
    ensures dev.io.chip.phase.Deselected? && dev.Coherent()
    ensures dev.bank == if NeedsSwitch(old(dev.bank), reg) then reg.bank else old(dev.bank)
    ensures Undisturbed(old(dev.io.chip), m1) && m1.cells == old(dev.io.chip).cells
    ensures reg.bank != Common ==> Bsel(m1) == BankNumber(reg.bank)
    ensures !NeedsSwitch(old(dev.bank), reg) ==> Evolves(old(dev.io.chip), m1)
    ensures reg.length == 1 ==> dev.io.chip == Stored(m1, reg.addr, Lo(value))
    ensures reg.length == 2 ==>
              && Evolves(Stored(m1, reg.addr, Lo(value)), m2) && dev.io.chip == Stored(m2, reg.addr + 1, Hi(value))
              && Bsel(m2) == Bsel(m1)
    ensures DriverOwned(reg) && InCells(reg) ==> dev.io.chip.cells == Written(old(dev.io.chip).cells, reg, value)
    ensures Plain(reg) && Calm(old(dev.io.chip)) ==>
              && Undisturbed(old(dev.io.chip), dev.io.chip)
              && dev.io.chip.cells == Written(old(dev.io.chip).cells, reg, value)
    ensures dev.io.clocked
             == old(dev.io.clocked) + (SwitchBytes(old(dev.io.chip), old(dev.bank), reg) + WriteBytes(reg, value))
  {
    hide Bus.Faithful, Evolves, Undisturbed, Stored, Written, Plain, DriverOwned, SwitchBytes, Lo, Hi;
    ghost var c := dev.io.chip;
    EnterBank(dev, reg);
    ghost var c1 := dev.io.chip;
    m1 := PutByte(dev.io, reg.addr, Lo(value));
    m2 := m1;
    ThenEvolves(c, c1, m1);
    EvolvesKeepsBank(c1, m1);
    StoreKeepsBank(m1, reg.addr, Lo(value));
    if reg.length == 2 {
      ghost var e1 := dev.io.chip;
      m2 := PutByte(dev.io, reg.addr + 1, Hi(value));
      EvolvesKeepsBank(e1, m2);
      StoreKeepsBank(m2, reg.addr + 1, Hi(value));
    }
    if DriverOwned(reg) && InCells(reg) {
      WrittenCells(c, m1, m2, dev.io.chip, reg, value);
    }
    if Plain(reg) && Calm(c) {
      PlainWrite(c, m1, m2, dev.io.chip, reg, value);
    }
  }

  // ---------- The flat register file ----------

  /** The part of `value` the register can hold: its low byte only if it is one byte long, and the bits that exist. */
  function Held(reg: Reg, value: word): word
    requires Mapped(reg)
  {
    var low := Implemented(CellOf(reg), Lo(value));
    if reg.length == 1 then low else Join(low, Implemented(CellOf(reg) + 1, Hi(value)))
  }

  lemma HeldIsWritten(cells: Cells, reg: Reg, value: word)
    requires Mapped(reg)
    ensures var after := Written(cells, reg, value);
            && Held(reg, value) == (if reg.length == 1 then after[CellOf(reg)]
                                    else Join(after[CellOf(reg)], after[CellOf(reg) + 1]))
            && forall k :: 0 <= k < 128 && !(CellOf(reg) <= k < CellOf(reg) + reg.length) ==> after[k] == cells[k]
  {
  }

  /** Of the two registers common to all banks, at most the bank and a transmission that ended may differ. */
  predicate SameControl(c: Chip, d: Chip) {
    && d.econ2 == c.econ2 && d.econ1.rxen == c.econ1.rxen && d.econ1.upper == c.econ1.upper
    && (d.econ1.txrts ==> c.econ1.txrts)
  }

  lemma StoredControl(c: Chip, addr: int, v: byte)
    requires 0 <= addr < 0x1e
    ensures SameControl(c, Stored(c, addr, v))
  {
  }

  lemma UndisturbedControl(c: Chip, d: Chip)
    requires Undisturbed(c, d)
    ensures SameControl(c, d)
  {
    hide Ring, KeepsRing;
  }

  lemma WriteKeepsControl(c: Chip, m1: Chip, m2: Chip, e: Chip, reg: Reg, value: word)
    requires Mapped(reg) && reg.kind != Phy && InCells(reg) && Undisturbed(c, m1)
    requires reg.length == 1 ==> e == Stored(m1, reg.addr, Lo(value))
    requires reg.length == 2 ==>
               Evolves(Stored(m1, reg.addr, Lo(value)), m2) && e == Stored(m2, reg.addr + 1, Hi(value))
    ensures SameControl(c, e)
  {
    hide Undisturbed, Evolves, Stored, SendsDummy;
    UndisturbedControl(c, m1);
    StoredControl(m1, reg.addr, Lo(value));
    if reg.length == 2 {
      EvolvesIsUndisturbed(Stored(m1, reg.addr, Lo(value)), m2);
      UndisturbedControl(Stored(m1, reg.addr, Lo(value)), m2);
      StoredControl(m2, reg.addr + 1, Hi(value));
    }
  }

  predicate Touches(reg: Reg, k: int)
    requires Mapped(reg)
  {
    CellOf(reg) <= k < CellOf(reg) + reg.length
  }

  /**
   ERXRDPT takes effect with its high byte, and writing ERXST reloads ERXWRPT; apart from that the one stays, and the
   other moves only with arriving frames.
   */
  predicate PointersFollow(c: Chip, d: Chip, reg: Reg)
    requires Mapped(reg)
  {
    && d.rxGuard == (if Touches(reg, 0x0d) then Pointer(d.cells, 0x0c) else c.rxGuard)
    && (!RxEnabled(c) ==>
          d.rxWrite == if Touches(reg, 0x08) || Touches(reg, 0x09) then Pointer(d.cells, 0x08) else c.rxWrite)
  }

  lemma StoredPointers(m: Chip, reg: Reg, k: int, v: byte)
    requires Mapped(reg) && reg.kind != Phy && InCells(reg) && 0 <= k < reg.length && !ReadOnly(CellOf(reg) + k)
    requires reg.bank != Common ==> Bsel(m) == BankNumber(reg.bank)
    ensures var e, at := Stored(m, reg.addr + k, v), CellOf(reg) + k;
            && e.rxGuard == (if at == 0x0d then Pointer(e.cells, 0x0c) else m.rxGuard)
            && e.rxWrite == (if at == 0x08 || at == 0x09 then Pointer(e.cells, 0x08) else m.rxWrite)
            && forall k' :: 0 <= k' < 128 && k' != at ==> e.cells[k'] == m.cells[k']
  {
  }

  lemma UndisturbedPointers(c: Chip, d: Chip)
    requires Undisturbed(c, d)
    ensures d.rxGuard == c.rxGuard && (!RxEnabled(c) ==> d.rxWrite == c.rxWrite) && RxEnabled(d) == RxEnabled(c)
  {
    hide Ring, KeepsRing;
  }

  lemma WriteMovesPointers(c: Chip, m1: Chip, m2: Chip, e: Chip, reg: Reg, value: word)
    requires Mapped(reg) && reg.kind != Phy && InCells(reg) && DriverOwned(reg)
    requires Undisturbed(c, m1) && (reg.bank != Common ==> Bsel(m1) == BankNumber(reg.bank))
    requires reg.length == 1 ==> e == Stored(m1, reg.addr, Lo(value))
    requires reg.length == 2 ==>
               && Evolves(Stored(m1, reg.addr, Lo(value)), m2) && Bsel(m2) == Bsel(m1)
               && e == Stored(m2, reg.addr + 1, Hi(value))
    ensures PointersFollow(c, e, reg)
  {
    hide Undisturbed, Evolves, Stored, SendsDummy, Pointer;
    UndisturbedPointers(c, m1);
    StoredPointers(m1, reg, 0, Lo(value));
    if reg.length == 2 {
      var e1 := Stored(m1, reg.addr, Lo(value));
      StoredRx(m1, reg.addr, Lo(value));
      EvolvesIsUndisturbed(e1, m2);
      UndisturbedPointers(e1, m2);
      StoredPointers(m2, reg, 1, Hi(value));
      if CellOf(reg) == 0x09 {
        PointerOf(e1.cells, e.cells, 0x08);
      }
    }
  }

  // ---------- Writes that reach the PHY ----------

  /**
   The PHY side of `d`, seen from `c`, when the operation `op` was started on the registers as they are in `d`: it is
   still going on, or done. Without one nothing has changed.
   */
  predicate PhySide(c: Chip, d: Chip, op: Mii) {
    var k := d.cells[84] % 0x20;
    match op
    case Idle => d.mii.Idle? && d.phy == c.phy && d.phyData == c.phyData
    case Busy(writing, _) =>
      if d.mii.Busy? then d.mii.writing == writing && d.phy == c.phy && d.phyData == c.phyData
      else if writing then d.phy == c.phy[k := Join(d.cells[86], d.cells[87])] && d.phyData == c.phyData
      else d.phy == c.phy && d.phyData == c.phy[k]
  }

  /** The cells an operation is started with or depends on. */
  predicate MiiCell(k: int) {
    k in {82, 84, 86, 87}
  }

  /** The operation after a byte was written: the high byte of MIWR starts a write, MICMD with MIIRD set a read. */
  function Started(op: Mii, k: int, v: byte): Mii {
    if k == 87 then Busy(true, 0) else if k == 82 && Bit(v, 1) then Busy(false, 0) else op
  }

  /** If no operation was going on: the one the register starts, or none. If one was, other registers leave it alone. */
  predicate MiiFollows(c: Chip, d: Chip, reg: Reg)
    requires Mapped(reg)
  {
    c.mii.Idle? || (forall k :: 0 <= k < 128 && MiiCell(k) ==> !Touches(reg, k)) ==>
      PhySide(c, d, if Touches(reg, 87) then Started(c.mii, 87, d.cells[87])
                    else if Touches(reg, 82) then Started(c.mii, 82, d.cells[82])
                    else c.mii)
  }

  lemma UndisturbedMii(c: Chip, d: Chip, e: Chip, op: Mii)
    requires PhySide(c, d, op) && Undisturbed(d, e) && forall k :: 82 <= k < 88 ==> e.cells[k] == d.cells[k]
    ensures PhySide(c, e, op)
  {
    hide Ring, KeepsRing, MemoryKept, SteadyAndSooner, Join;
  }

  lemma StoredOperation(m: Chip, reg: Reg, k: int, v: byte)
    requires Mapped(reg) && reg.kind != Phy && InCells(reg) && 0 <= k < reg.length
    requires (reg.bank != Common ==> Bsel(m) == BankNumber(reg.bank)) && !ReadOnly(CellOf(reg) + k)
    ensures var e, at := Stored(m, reg.addr + k, v), CellOf(reg) + k;
            && e.phy == m.phy && e.phyData == m.phyData && e.cells == Put(m.cells, at, v)
            && e.mii == if at == 87 then Busy(true, m.latency)
                        else if at == 82 && Bit(v, 1) then Busy(false, m.latency)
                        else m.mii
  {
    hide Bit, Pointer;
  }

  lemma StoredMii(c: Chip, m: Chip, op: Mii, reg: Reg, k: int, v: byte)
    requires Mapped(reg) && reg.kind != Phy && InCells(reg) && 0 <= k < reg.length
    requires (reg.bank != Common ==> Bsel(m) == BankNumber(reg.bank)) && !ReadOnly(CellOf(reg) + k)
    requires PhySide(c, m, op) && (op.Idle? || !MiiCell(CellOf(reg) + k))
    ensures PhySide(c, Stored(m, reg.addr + k, v), Started(op, CellOf(reg) + k, v))
    ensures Stored(m, reg.addr + k, v).cells == Put(m.cells, CellOf(reg) + k, v)
  {
    hide Join, Bit, Pointer, Mapped, Stored, ReadOnly;
    StoredOperation(m, reg, k, v);
  }

  lemma WriteMovesMii(c: Chip, m1: Chip, m2: Chip, e: Chip, reg: Reg, value: word)
    requires Mapped(reg) && reg.kind != Phy && InCells(reg) && DriverOwned(reg)
    requires Undisturbed(c, m1) && m1.cells == c.cells && (reg.bank != Common ==> Bsel(m1) == BankNumber(reg.bank))
    requires reg.length == 1 ==> e == Stored(m1, reg.addr, Lo(value))
    requires reg.length == 2 ==>
               && Evolves(Stored(m1, reg.addr, Lo(value)), m2) && Bsel(m2) == Bsel(m1)
               && e == Stored(m2, reg.addr + 1, Hi(value)) && CellOf(reg) != 87
    ensures MiiFollows(c, e, reg)
  {
    hide Undisturbed, Evolves, Stored, SendsDummy, PhySide, ReadOnly, Lo, Hi;
    if c.mii.Idle? || (forall k :: 0 <= k < 128 && MiiCell(k) ==> !Touches(reg, k)) {
      PhySideNow(c);
      UndisturbedMii(c, c, m1, c.mii);
      StoredMii(c, m1, c.mii, reg, 0, Lo(value));
      if reg.length == 2 {
        var e1, op := Stored(m1, reg.addr, Lo(value)), Started(c.mii, CellOf(reg), Lo(value));
        EvolvesIsUndisturbed(e1, m2);
        UndisturbedMii(c, e1, m2, op);
        StoredMii(c, m2, op, reg, 1, Hi(value));
      }
    }
  }

  lemma PhySideNow(c: Chip)
    ensures PhySide(c, c, c.mii)
  {
  }

  lemma StoredRx(c: Chip, addr: int, v: byte)
    requires 0 <= addr < 0x1f
    ensures RxEnabled(Stored(c, addr, v)) == RxEnabled(c)
  {
  }

  /** The same pointers follow while a register is read. */
  lemma ReadKeepsPointers(c: Chip, d: Chip, e: Chip, reg: Reg)
    requires Mapped(reg) && PointersFollow(c, d, reg) && RxEnabled(d) == RxEnabled(c)
    requires Undisturbed(d, e) && e.cells == d.cells
    ensures PointersFollow(c, e, reg)
  {
    UndisturbedPointers(d, e);
    hide Undisturbed, Pointer, Touches;
  }

  /** The interrupt registers are common to all banks, and cells like the others. */
  lemma InterruptRegisters(reg: Reg)
    requires reg == EIE || reg == EIR
    ensures Mapped(reg) && InCells(reg) && DriverOwned(reg) && CellOf(reg) == reg.addr
  {
  }

  /**
   Banks, dummy bytes and interleaved chip activity are invisible: a register written and read back gives the value
   it can hold, and no other register has changed, but by the management operation that writing MIWR or MICMD starts.
   */
  method WriteThenRead(dev: Enc28j60, reg: Reg, value: word) returns (answer: word)
    requires CanAccess(dev, reg) && reg.kind != Phy && InCells(reg) && DriverOwned(reg) && CellOf(reg) != 87
    modifies dev`bank, dev.io
    ensures dev.io.chip.phase.Deselected? && dev.Coherent() && (reg.bank != Common ==> dev.bank == reg.bank)
    ensures answer == Held(reg, value)
    ensures forall k :: 0 <= k < 128 && !Touches(reg, k) ==> dev.io.chip.cells[k] == old(dev.io.chip).cells[k]
    ensures SameControl(old(dev.io.chip), dev.io.chip) && PointersFollow(old(dev.io.chip), dev.io.chip, reg)
    ensures MiiFollows(old(dev.io.chip), dev.io.chip, reg)
  {
    hide Bus.Faithful, Evolves, Undisturbed, Stored, Written, Held, Peek, PointersFollow, MiiFollows;
    ghost var c := dev.io.chip;
    ghost var m1, m2 := WriteControlReg(dev, reg, value);
    WriteKeepsControl(c, m1, m2, dev.io.chip, reg, value);
    WriteMovesPointers(c, m1, m2, dev.io.chip, reg, value);
    WriteMovesMii(c, m1, m2, dev.io.chip, reg, value);
    ghost var c1 := dev.io.chip;
    EnteredBank(dev.bank, reg);
    answer := ReadControlReg(dev, reg);
    UndisturbedControl(c1, dev.io.chip);
    ReadKeepsPointers(c, c1, dev.io.chip, reg);
    ReadKeepsMii(c, c1, dev.io.chip, reg);
    HeldIsWritten(c.cells, reg, value);
    if reg.length == 1 {
      PeekIsCell(dev.io.chip, reg, 0);
    }
  }

  lemma ReadKeepsMii(c: Chip, d: Chip, e: Chip, reg: Reg)
    requires Mapped(reg) && MiiFollows(c, d, reg) && Undisturbed(d, e) && e.cells == d.cells
    ensures MiiFollows(c, e, reg)
  {
    hide Undisturbed, PhySide, Started;
    if c.mii.Idle? || (forall k :: 0 <= k < 128 && MiiCell(k) ==> !Touches(reg, k)) {
      UndisturbedMii(c, d, e, if Touches(reg, 87) then Started(c.mii, 87, d.cells[87])
                              else if Touches(reg, 82) then Started(c.mii, 82, d.cells[82])
                              else c.mii);
    }
  }

  lemma EnteredBank(bank: Bank, reg: Reg)
    requires bank == reg.bank || reg.bank == Common
    ensures !NeedsSwitch(bank, reg)
  {
  }

  /**
   Registers the chip changes itself: what is read in two steps is the whole value if it cannot change in between, that
   is MIRD while no management operation runs, and ERXWRPT while reception is off.
   */
  lemma ReadWhole(c: Chip, d: Chip, addr: int, ret: word)
    requires 0 <= addr < 0x1f && ReadInTwo(c, d, addr, ret) && Calm(c)
    ensures addr == 0x18 && Bsel(d) == 2 ==> ret == d.phyData == c.phyData
    ensures addr == 0x0e && Bsel(d) == 0 && !RxEnabled(c) ==> ret == d.rxWrite == c.rxWrite
  {
    var m: Chip :| Undisturbed(c, m) && Evolves(m, d) && Lo(ret) == Peek(m, addr) && Hi(ret) == Peek(d, addr + 1);
    hide Evolves, Undisturbed, Peek, Lo, Hi;
    CalmStays(c, m);
    EvolvesIsUndisturbed(m, d);
    UndisturbedValues(c, m);
    UndisturbedValues(m, d);
    JoinSplit(ret);
    JoinSplit(d.phyData);
    JoinSplit(d.rxWrite);
    PeekChipsOwn(m);
    PeekChipsOwn(d);
  }

  lemma UndisturbedValues(c: Chip, d: Chip)
    requires Undisturbed(c, d) && Calm(c)
    ensures d.phyData == c.phyData && (!RxEnabled(c) ==> d.rxWrite == c.rxWrite && !RxEnabled(d))
  {
    hide Ring, KeepsRing;
  }

  lemma PeekChipsOwn(c: Chip)
    ensures Bsel(c) == 2 ==> Peek(c, 0x18) == Lo(c.phyData) && Peek(c, 0x19) == Hi(c.phyData)
    ensures Bsel(c) == 0 ==> Peek(c, 0x0e) == Lo(c.rxWrite) && Peek(c, 0x0f) == Hi(c.rxWrite)
  {
  }
}
