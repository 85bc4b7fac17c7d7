/** User/enc28j60/interface/src/enc28j60.c: receiving and sending packets. */
module Interface {
  import opened Bytes
  import opened RegisterMap
  import opened ChipModel
  import opened RxRing
  import opened Environment
  import opened Quiescence
  import opened Port
  import opened Device
  import opened Registers
  import opened BufferAccess

  /** The driver is up: between two calls nothing is under way, and the ring starts at the driver's cursor. */
  ghost predicate Ready(dev: Enc28j60)
    reads dev, dev.io
  {
    && dev.io.chip.phase.Deselected? && dev.io.chip.violations == {}
    && Calm(dev.io.chip) && RxEnabled(dev.io.chip) && dev.io.chip.econ2.autoinc
    && dev.Coherent()
    && Ring(dev.io.chip, dev.nextRxPacketPtr, dev.taken, 0)
  }

  /** What receiving leaves alone: everything transmission depends on, and the frames logged before. */
  predicate TxSideKept(c: Chip, d: Chip) {
    && d.violations == c.violations && d.econ2 == c.econ2 && d.sent == c.sent && d.rom == c.rom
    && d.phy == c.phy && RxEnabled(d) == RxEnabled(c) && d.econ1.upper == c.econ1.upper && Calm(d)
    && c.log <= d.log && SameTxArea(c, d)
  }

  lemma UndisturbedKeeps(c: Chip, d: Chip)
    requires Undisturbed(c, d) && Calm(c) && RingConfigured(c)
    ensures TxSideKept(c, d) && RingConfigured(d)
  {
    hide Evolves, TxSideKept, RingConfigured;
    SameBounds(c, d);
    UndisturbedTxSide(c, d);
  }

  lemma UndisturbedTxSide(c: Chip, d: Chip)
    requires Undisturbed(c, d) && Calm(c) && RingConfigured(c)
    ensures TxSideKept(c, d)
  {
    hide Ring, KeepsRing, MiiEvolves, Pointer;
    CalmStays(c, d);
    IdleStays(c, Masked(d, c));
  }

  lemma IdleStays(c: Chip, d: Chip)
    requires MiiEvolves(c, d) && c.mii.Idle?
    ensures d.phy == c.phy && d.phyData == c.phyData
  {
  }

  lemma UndisturbedRing(c: Chip, d: Chip, head: int, taken: int, owed: int)
    requires Undisturbed(c, d) && !Transmitting(c) && Ring(c, head, taken, owed)
    ensures Ring(d, head, taken, owed) && c.log <= d.log
  {
    hide Ring, Evolves, RingConfigured;
    var x := Masked(d, c);
    EvolvesKeepsRing(c, x);
    SameBounds(x, d);
    SameRing(x, d);
  }

  /** A pointer register reads back as the pointer written. */
  lemma WrittenPointer(cells: Cells, reg: Reg, p: Addr)
    requires Mapped(reg) && reg.bank == Bank0 && reg.length == 2 && reg.addr in {0, 2, 4, 6, 8, 10, 12}
    ensures Pointer(Written(cells, reg, p), reg.addr) == p
    ensures forall k :: 0 <= k < 128 && k != reg.addr && k != reg.addr + 1 ==> Written(cells, reg, p)[k] == cells[k]
  {
    hide Pointer, Lo, Hi, Join;
    AddrSplit(p);
    assert Implemented(reg.addr, Lo(p)) == Lo(p) && Implemented(reg.addr + 1, Hi(p)) == Hi(p);
    assert Written(cells, reg, p) == SetPointer(cells, reg.addr, p);
    PointerSet(cells, reg.addr, p);
  }

  /** The header struct laid over six received bytes, little-endian. */
  function DecodeHeader(b: seq<byte>): RxHeader
    requires |b| == HEADER
  {
    RxHeader(Join(b[0], b[1]), Join(b[2], b[3]), Join(b[4], b[5]))
  }

  /** Six header bytes decode to the successor, the length and the status they were made of. */
  lemma HeaderDecodes(next: word, count: word, status: word)
    ensures |HeaderBytes(next, count, status)| == HEADER
    ensures DecodeHeader(HeaderBytes(next, count, status)) == RxHeader(next, count, status)
  {
    JoinSplit(next);
    JoinSplit(count);
    JoinSplit(status);
    hide Lo, Hi, Join;
  }

  // ---------- Receiving ----------

  /** enc28j60_read_rx_header. */
  method ReadRxHeader(dev: Enc28j60, ghost head: int, ghost taken: int)
    requires dev.io.Faithful()
    requires dev.io.chip.phase.Deselected? && Calm(dev.io.chip) && dev.io.chip.econ2.autoinc
    requires Ring(dev.io.chip, head, taken, 0) && taken < |dev.io.chip.log| && Pointer(dev.io.chip.cells, 0) == head
    modifies dev`header, dev.io
    ensures dev.io.Faithful()
    ensures dev.io.chip.phase.Deselected? && Undisturbed(old(dev.io.chip), dev.io.chip)
    ensures Bsel(dev.io.chip) == Bsel(old(dev.io.chip)) && 0 <= head && Wrap(head + HEADER) < MEM_SIZE
    ensures dev.io.chip.cells == PointedAt(old(dev.io.chip).cells, HEADER, Wrap(head + HEADER))
    ensures var f := old(dev.io.chip).log[taken];
            && |f.data| < 0x10000 && 0 <= After(head, f) < SIZE
            && dev.header == RxHeader(After(head, f), |f.data|, f.status)
  {
    hide Bus.Faithful, Ring, Undisturbed, ReadFrom, HeaderBytes, DecodeHeader, PointedAt, Stepped, Pointer, After;
    ghost var c := dev.io.chip;
    RingFacts(c, head, taken, 0);
    var bytes := new byte[HEADER];
    ghost var f := c.log[taken];
    ReadBuf(dev, bytes, HEADER);
    assert bytes[..HEADER] == bytes[..];
    HeaderRead(c, head, taken, bytes[..]);
    HeaderDecodes(After(head, f), |f.data|, f.status);
    dev.header := DecodeHeader(bytes[..]);
  }

  lemma FrameParts(f: Frame, next: Addr)
    ensures |FrameBytes(f, next)| == HEADER + |f.data|
    ensures FrameBytes(f, next)[..HEADER] == HeaderBytes(next, |f.data| % 0x10000, f.status)
    ensures FrameBytes(f, next)[HEADER..] == f.data
  {
  }

  lemma HeaderRead(c: Chip, head: int, taken: int, b: seq<byte>)
    requires Ring(c, head, taken, 0) && taken < |c.log| && 0 <= head < SIZE && ReadFrom(c, head, b) && |b| == HEADER
    ensures var f := c.log[taken];
            && |f.data| < 0x10000 && 0 <= After(head, f) < SIZE && Stepped(c, head, HEADER) == Wrap(head + HEADER)
            && b == HeaderBytes(After(head, f), |f.data|, f.status)
  {
    hide Ring, ReadFrom, FrameBytes, HeaderBytes, After, Stepped;
    RingFacts(c, head, taken, 0);
    ReadsFrame(c, head, taken, 0, head, b);
    HeaderPart(c.log[taken], After(head, c.log[taken]));
  }

  lemma HeaderPart(f: Frame, next: Addr)
    requires |f.data| < 0x10000
    ensures |FrameBytes(f, next)| == HEADER + |f.data|
    ensures FrameBytes(f, next)[0..HEADER] == HeaderBytes(next, |f.data|, f.status)
  {
    hide FrameBytes, HeaderBytes;
    FrameParts(f, next);
  }

  /** Moving ERXRDPT behind the oldest frame gives its bytes back to the chip: the ring now starts at the next frame. */
  lemma ReleaseRing(c: Chip, d: Chip, head: int, taken: int)
    requires Ring(c, head, taken, 0) && taken < |c.log|
    requires d == c.(rxGuard := Before(After(head, c.log[taken])), cells := d.cells, phase := d.phase)
    requires SameRxBounds(c, d)
    ensures Ring(d, After(head, c.log[taken]), taken + 1, 1)
  {
    hide Chain, FrameAt, RoomOf, RingConfigured, Wrap, After, Room, Before;
    var fs := c.log[taken..];
    assert fs[0] == c.log[taken] && fs[1..] == c.log[taken + 1..];
    ChainTail(c.mem, head, fs);
    AfterRoom(head, fs[0], RoomOf(fs[1..]));
    SameBounds(c, d);
  }

  lemma AfterRoom(p: int, f: Frame, r: nat)
    requires 0 <= p < SIZE && p % 2 == 0 && Room(f) + r < SIZE
    ensures 0 <= After(p, f) < SIZE && After(p, f) % 2 == 0
    ensures Wrap(After(p, f) + r) == Wrap(p + (Room(f) + r))
  {
  }

  lemma ChainTail(m: Mem, p: int, fs: seq<Frame>)
    requires fs != [] && Chain(m, p, fs)
    ensures 0 <= p < SIZE && Room(fs[0]) < SIZE && Chain(m, After(p, fs[0]), fs[1..])
    ensures RoomOf(fs) == Room(fs[0]) + RoomOf(fs[1..])
  {
  }

  lemma RingIgnores(c: Chip, d: Chip, head: int, taken: int, owed: int)
    requires Ring(c, head, taken, owed)
    requires d == c.(cells := d.cells, phase := d.phase) && SameRxBounds(c, d)
    ensures Ring(d, head, taken, owed)
  {
    hide Ring, RingConfigured;
    SameBounds(c, d);
    SameRing(c, d);
  }

  lemma GuardValue(cells: Cells, p: Addr)
    requires cells[0x0c] == Lo(p)
    ensures Pointer(Put(cells, 0x0d, Hi(p)), 0x0c) == p
  {
    HighByte(p);
    hide Lo, Hi, Pointer;
    assert Put(cells, 0x0d, Hi(p)) == SetPointer(cells, 0x0c, p);
    PointerSet(cells, 0x0c, p);
  }

  /** All five bits of a pointer's high byte exist. */
  lemma HighByte(p: Addr)
    ensures Implemented(0x0d, Hi(p)) == Hi(p)
  {
    hide Lo, Hi, Join;
    AddrSplit(p);
  }

  lemma StoreGuardLow(c: Chip, v: byte)
    requires Bsel(c) == 0
    ensures Stored(c, 0x0c, v) == c.(cells := c.cells[0x0c := v], phase := Deselected)
  {
  }

  lemma StoreGuardHigh(c: Chip, p: Addr)
    requires Bsel(c) == 0 && c.cells[0x0c] == Lo(p)
    ensures Stored(c, 0x0d, Hi(p)) == c.(cells := Put(c.cells, 0x0d, Hi(p)), rxGuard := p, phase := Deselected)
  {
    GuardValue(c.cells, p);
  }

  lemma EvolvesKeepsRing(c: Chip, d: Chip)
    requires Evolves(c, d) && !Transmitting(c)
    ensures KeepsRing(c, d) && c.log <= d.log && d.cells == c.cells
  {
    hide Ring, KeepsRing, MiiEvolves, MemoryKept;
  }

  lemma EvolvesRing(c: Chip, d: Chip, head: int, taken: int, owed: int)
    requires Evolves(c, d) && !Transmitting(c) && Ring(c, head, taken, owed)
    ensures Ring(d, head, taken, owed) && c.log <= d.log && d.cells == c.cells
  {
    hide Ring, Evolves;
    EvolvesKeepsRing(c, d);
  }

  /** ERXRDPT is latched when its high byte is written; until then the chip keeps off the oldest frame. */
  lemma GuardLatched(m1: Chip, m2: Chip, head: int, taken: int, next: int)
    requires Ring(m1, head, taken, 0) && taken < |m1.log| && next == After(head, m1.log[taken]) && 0 <= next < SIZE
    requires Bsel(m1) == 0 && Bsel(m2) == 0 && !Transmitting(m1)
    requires Evolves(Stored(m1, 0x0c, Lo(Before(next))), m2)
    ensures Ring(Stored(m2, 0x0d, Hi(Before(next))), next, taken + 1, 1)
    ensures m1.log <= m2.log
  {
    var p := Before(next);
    var e1 := Stored(m1, 0x0c, Lo(p));
    var e2 := Stored(m2, 0x0d, Hi(p));
    StoreGuardLow(m1, Lo(p));
    assert 0 <= taken;
    hide Ring, Stored, Evolves;
    RingIgnores(m1, e1, head, taken, 0);
    EvolvesRing(e1, m2, head, taken, 0);
    StoreGuardHigh(m2, p);
    ReleaseRing(m2, e2, head, taken);
  }

  predicate CellsKept(c: Chip, d: Chip, touched: set<int>) {
    forall k :: 0 <= k < 128 && k !in touched ==> d.cells[k] == c.cells[k]
  }

  lemma TxSideTransitive(c: Chip, d: Chip, e: Chip)
    requires TxSideKept(c, d) && TxSideKept(d, e)
    ensures TxSideKept(c, e)
  {
  }

  lemma GuardKeepsTxSide(m1: Chip, m2: Chip, p: Addr)
    requires RingConfigured(m1) && Bsel(m1) == 0 && Bsel(m2) == 0 && Calm(m1)
    requires Evolves(Stored(m1, 0x0c, Lo(p)), m2)
    ensures TxSideKept(m1, Stored(m2, 0x0d, Hi(p)))
    ensures CellsKept(m1, Stored(m2, 0x0d, Hi(p)), {12, 13})
  {
    var e1 := Stored(m1, 0x0c, Lo(p));
    StoreGuardLow(m1, Lo(p));
    hide Stored, Evolves, Undisturbed;
    SameBounds(m1, e1);
    EvolvesIsUndisturbed(e1, m2);
    UndisturbedKeeps(e1, m2);
    StoreGuardHigh(m2, p);
  }

  lemma SeekCells(c: Chip, d: Chip, p: Addr)
    requires d.cells == Written(c.cells, ERDPT, p)
    requires forall k :: 0 <= k < 128 && k != 0 && k != 1 ==> Written(c.cells, ERDPT, p)[k] == c.cells[k]
    ensures CellsKept(c, d, {0, 1})
  {
    hide Written;
  }

  /** Sets ERDPT; reading starts there. */
  method Seek(dev: Enc28j60, p: word, ghost head: int, ghost taken: int)
    requires dev.io.chip.phase.Deselected? && dev.Coherent() && Calm(dev.io.chip)
    requires Ring(dev.io.chip, head, taken, 0) && p < MEM_SIZE
    modifies dev`bank, dev.io
    ensures dev.io.chip.phase.Deselected? && dev.Coherent() && Undisturbed(old(dev.io.chip), dev.io.chip)
    ensures TxSideKept(old(dev.io.chip), dev.io.chip) && Calm(dev.io.chip)
    ensures dev.io.chip.econ2 == old(dev.io.chip).econ2
    ensures Ring(dev.io.chip, head, taken, 0) && old(dev.io.chip).log <= dev.io.chip.log
    ensures CellsKept(old(dev.io.chip), dev.io.chip, {0, 1}) && Pointer(dev.io.chip.cells, 0) == p
  {
    hide Bus.Faithful, Ring, Undisturbed, Evolves, Stored, Written, TxSideKept, CellsKept, Pointer;
    ghost var m1, m2 := WriteControlReg(dev, ERDPT, p);
    WrittenPointer(old(dev.io.chip).cells, ERDPT, p);
    SeekCells(old(dev.io.chip), dev.io.chip, p);
    UndisturbedReady(old(dev.io.chip), dev.io.chip, head, taken);
  }

  /** The cursor moves to the next frame, and the frame read is given back to the chip. */
  method ReleaseFrame(dev: Enc28j60)
    requires dev.io.chip.phase.Deselected? && dev.Coherent() && Calm(dev.io.chip)
    requires Ring(dev.io.chip, dev.nextRxPacketPtr, dev.taken, 0) && dev.taken < |dev.io.chip.log|
    requires dev.header.nextPacketPtr == After(dev.nextRxPacketPtr, dev.io.chip.log[dev.taken]) < SIZE
    modifies dev`bank, dev`nextRxPacketPtr, dev`taken, dev.io
    ensures dev.io.chip.phase.Deselected? && dev.Coherent()
    ensures dev.taken == old(dev.taken) + 1 && dev.nextRxPacketPtr == dev.header.nextPacketPtr
    ensures Ring(dev.io.chip, dev.nextRxPacketPtr, dev.taken, 1)
    ensures TxSideKept(old(dev.io.chip), dev.io.chip) && CellsKept(old(dev.io.chip), dev.io.chip, {0, 1, 12, 13})
    ensures Pointer(dev.io.chip.cells, 0) == dev.nextRxPacketPtr
  {
    hide Bus.Faithful, Ring, Undisturbed, Evolves, Stored, Written, TxSideKept, CellsKept, After, Pointer;
    ghost var c, head, taken := dev.io.chip, dev.nextRxPacketPtr, dev.taken;
    RingFacts(c, head, taken, 0);
    dev.nextRxPacketPtr := dev.header.nextPacketPtr;
    Seek(dev, dev.nextRxPacketPtr, head, taken);
    ghost var c1 := dev.io.chip;
    var guard := if dev.header.nextPacketPtr == RX_START then RX_END else dev.header.nextPacketPtr - 1;
    ghost var m1, m2 := WriteControlReg(dev, ERXRDPT, guard);
    UndisturbedReady(c1, m1, head, taken);
    RingFacts(m1, head, taken, 0);
    GuardLatched(m1, m2, head, taken, dev.nextRxPacketPtr);
    GuardKeepsTxSide(m1, m2, guard);
    TxSideTransitive(c1, m1, dev.io.chip);
    TxSideTransitive(c, c1, dev.io.chip);
    SameCellsKept(c1, m1, dev.io.chip);
    ReleasedCells(c, c1, dev.io.chip);
    dev.taken := dev.taken + 1;
  }

  lemma SameCellsKept(c: Chip, m: Chip, d: Chip)
    requires m.cells == c.cells && CellsKept(m, d, {12, 13})
    ensures CellsKept(c, d, {12, 13})
  {
  }

  lemma ReleasedCells(c: Chip, c1: Chip, d: Chip)
    requires CellsKept(c, c1, {0, 1}) && CellsKept(c1, d, {12, 13})
    ensures CellsKept(c, d, {0, 1, 12, 13}) && Pointer(d.cells, 0) == Pointer(c1.cells, 0)
  {
    PointerOf(c1.cells, d.cells, 0);
    hide Pointer;
  }

  lemma FrameFacts(m: Mem, p: int, f: Frame)
    requires FrameAt(m, p, f)
    ensures 0 <= After(p, f) < SIZE && |f.data| < 0x10000
  {
  }

  lemma RingFacts(c: Chip, head: int, taken: int, owed: int)
    requires Ring(c, head, taken, owed)
    ensures RingConfigured(c) && 0 <= head < SIZE && 0 <= taken <= |c.log| && c.packets == |c.log| - taken + owed
    ensures taken < |c.log| ==>
              && FrameAt(c.mem, head, c.log[taken]) && 0 <= After(head, c.log[taken]) < SIZE
              && |c.log[taken].data| < 0x10000
  {
    hide Chain, FrameAt, RoomOf, Wrap, Before, After;
    if taken < |c.log| {
      ChainHead(c.mem, head, c.log[taken..]);
      FrameFacts(c.mem, head, c.log[taken]);
    }
  }

  lemma PacketDecrementBits(e: Econ2)
    ensures var v := SetBit(Econ2Byte(e), 64);
            0 <= v < 0x100 && Econ2(Bit(v, 128), v / 8 % 8) == e && Bit(v, 64)
  {
    var b := Econ2Byte(e);
    var a := if e.autoinc then 1 else 0;
    assert b == 8 * e.middle + 128 * a;
    assert b / 64 == 2 * a;
    assert (b + 64) / 64 == 2 * a + 1;
    assert (b + 64) / 128 == a;
    assert (b + 64) / 8 == e.middle + 8 * (2 * a + 1);
  }

  /** Writing ECON2 back with PKTDEC set only decrements the packet counter. */
  lemma StorePacketDecrement(c: Chip)
    ensures 0 <= SetBit(Econ2Byte(c.econ2), 64) < 0x100
    ensures Stored(c, 0x1e, SetBit(Econ2Byte(c.econ2), 64))
            == c.(packets := if c.packets > 0 then c.packets - 1 else 0, phase := Deselected)
  {
    PacketDecrementBits(c.econ2);
    hide SetBit, Bit, Econ2Byte;
  }

  lemma PacketDecrementRing(c: Chip, head: int, taken: int)
    requires Ring(c, head, taken, 1)
    ensures Ring(Stored(c, 0x1e, SetBit(Econ2Byte(c.econ2), 64)), head, taken, 0)
    ensures Calm(c) ==> TxSideKept(c, Stored(c, 0x1e, SetBit(Econ2Byte(c.econ2), 64)))
    ensures Stored(c, 0x1e, SetBit(Econ2Byte(c.econ2), 64)).cells == c.cells
  {
    hide Stored, Chain, RoomOf, Wrap, Before, RingConfigured, SetBit, Econ2Byte;
    StorePacketDecrement(c);
    SameCells(c, Stored(c, 0x1e, SetBit(Econ2Byte(c.econ2), 64)));
  }

  lemma PeekEcon2(c: Chip)
    ensures Peek(c, 0x1e) == Econ2Byte(c.econ2)
  {
  }

  /** ECON2 is read, PKTDEC set in the copy, and the copy written back. */
  method DecrementCount(dev: Enc28j60)
    requires dev.io.chip.phase.Deselected? && dev.Coherent() && Calm(dev.io.chip)
    requires Ring(dev.io.chip, dev.nextRxPacketPtr, dev.taken, 1)
    modifies dev`bank, dev.io
    ensures dev.io.chip.phase.Deselected? && dev.Coherent()
    ensures Ring(dev.io.chip, dev.nextRxPacketPtr, dev.taken, 0)
    ensures TxSideKept(old(dev.io.chip), dev.io.chip) && dev.io.chip.cells == old(dev.io.chip).cells
    ensures dev.io.clocked == old(dev.io.clocked) + [0x1e, 0x00, 0x5e, Or(Peek(old(dev.io.chip), 0x1e), 64)]
  {
    hide Bus.Faithful, Ring, Undisturbed, Evolves, Stored, TxSideKept, SetBit, Econ2Byte, Peek, Or, SwitchBytes,
         ReadBytes, WriteBytes;
    ghost var c, head, taken, wire := dev.io.chip, dev.nextRxPacketPtr, dev.taken, dev.io.clocked;
    var regData := ReadControlReg(dev, ECON2);
    ghost var c1 := dev.io.chip;
    PeekEcon2(c1);
    StorePacketDecrement(c1);
    CalmStays(c, c1);
    PeekEcon2(c);
    AutoincStays(c, c1);
    OrSets(Econ2Byte(c.econ2));
    ghost var wire1 := dev.io.clocked;
    ghost var m1, m2 := WriteControlReg(dev, ECON2, SetBit(regData, 64));
    CopyBytes(c, c1, old(dev.bank), ECON2, SetBit(regData, 64), wire, wire1, dev.io.clocked);
    AutoincStays(c1, m1);
    EvolvesIsUndisturbed(c1, m1);
    UndisturbedTransitive(c, c1, m1);
    CountedOff(c, m1, dev.io.chip, head, taken);
  }

  /** PKTDEC written in the state `m`. */
  lemma CountedOff(c: Chip, m: Chip, e: Chip, head: int, taken: int)
    requires Ring(c, head, taken, 1) && Calm(c) && Undisturbed(c, m) && m.cells == c.cells
    requires 0 <= SetBit(Econ2Byte(m.econ2), 64) < 0x100 && e == Stored(m, 0x1e, SetBit(Econ2Byte(m.econ2), 64))
    ensures Ring(e, head, taken, 0) && TxSideKept(c, e) && e.cells == c.cells
  {
    hide Ring, Undisturbed, Stored, TxSideKept, SetBit, Econ2Byte, RingConfigured;
    RingFacts(c, head, taken, 1);
    UndisturbedKeeps(c, m);
    UndisturbedRing(c, m, head, taken, 1);
    CalmStays(c, m);
    PacketDecrementRing(m, head, taken);
    TxSideTransitive(c, m, e);
  }

  /** The part of a frame a receiver gets: without the CRC, if it is longer than one, and cut to `maxlen`. */
  function Delivered(f: Frame, maxlen: nat): seq<byte> {
    var len := if |f.data| > 4 then |f.data| - 4 else |f.data|;
    f.data[..if len > maxlen then maxlen else len]
  }

  /**
   The oldest frame as it lies in memory, cyclically: where the next one starts, how long it is, its status, each low
   byte first, and its data.
   */
  lemma FrameLayout(c: Chip, head: int, taken: int)
    requires Ring(c, head, taken, 0) && taken < |c.log|
    ensures 0 <= taken && 0 <= head < SIZE && 6 + |c.log[taken].data| < SIZE
    ensures var f, m := c.log[taken], c.mem;
            && At(m, head, 0) + 0x100 * (At(m, head, 1) as int) == Wrap(head + 6 + |f.data| + |f.data| % 2)
            && At(m, head, 2) + 0x100 * (At(m, head, 3) as int) == |f.data|
            && At(m, head, 4) + 0x100 * (At(m, head, 5) as int) == f.status
            && forall i :: 0 <= i < |f.data| ==> At(m, head, 6 + i) == f.data[i]
  {
    hide Ring, FrameBytes, HeaderBytes;
    RingFacts(c, head, taken, 0);
    var f := c.log[taken];
    FrameLength(c, head, taken);
    var bytes := FrameBytes(f, After(head, f));
    HeaderPart(f, After(head, f));
    FrameParts(f, After(head, f));
    forall k | 0 <= k < |bytes| ensures At(c.mem, head, k) == bytes[k] {
      FrameByte(c, head, taken, k);
    }
    HeaderValues(After(head, f), |f.data|, f.status);
    hide At, After;
    assert forall k :: 0 <= k < 6 ==> bytes[k] == bytes[0..6][k];
    forall i | 0 <= i < |f.data| ensures At(c.mem, head, 6 + i) == f.data[i] {
      assert bytes[6 + i] == bytes[6..][i];
    }
  }

  /** The ring has 0x1800 bytes. */
  lemma Cyclic(m: Mem, p: int, k: int)
    requires 0 <= p < 0x1800 && 0 <= k < 0x1800
    ensures Wrap(p + k) == (p + k) % 0x1800 && At(m, p, k) == m[(p + k) % 0x1800]
  {
  }

  lemma HeaderValues(next: word, count: word, status: word)
    ensures var b := HeaderBytes(next, count, status);
            && |b| == 6 && b[0] + 0x100 * (b[1] as int) == next && b[2] + 0x100 * (b[3] as int) == count
            && b[4] + 0x100 * (b[5] as int) == status
  {
    JoinSplit(next);
    JoinSplit(count);
    JoinSplit(status);
  }

  /** The four bytes behind a payload are the CRC, and are not delivered; shorter data is delivered as it is. */
  lemma DeliveredPayload(data: seq<byte>, status: word, maxlen: nat)
    ensures forall payload: seq<byte>, crc: seq<byte> :: payload != [] && |crc| == 4 && data == payload + crc ==>
              Delivered(Frame(data, status), maxlen) == if |payload| <= maxlen then payload else payload[..maxlen]
    ensures |data| <= 4 ==> Delivered(Frame(data, status), maxlen) == if |data| <= maxlen then data else data[..maxlen]
    ensures Delivered(Frame(data, status), maxlen) == [] <==> data == [] || maxlen == 0
  {
    forall payload: seq<byte>, crc: seq<byte> | payload != [] && |crc| == 4 && data == payload + crc
      ensures Delivered(Frame(data, status), maxlen) == if |payload| <= maxlen then payload else payload[..maxlen]
    {
      assert data[..|payload|] == payload;
    }
  }

  /** What is read behind the header of the oldest frame is its data. */
  lemma PayloadRead(c: Chip, head: int, taken: int, p: Addr, b: seq<byte>)
    requires Ring(c, head, taken, 0) && taken < |c.log| && ReadFrom(c, p, b) && p == Wrap(head + HEADER)
    requires |b| <= |c.log[taken].data|
    ensures b == c.log[taken].data[..|b|]
  {
    hide Ring, ReadFrom, FrameBytes, After, Stepped, Wrap;
    RingFacts(c, head, taken, 0);
    ReadsFrame(c, head, taken, HEADER, p, b);
    FrameParts(c.log[taken], After(head, c.log[taken]));
  }

  lemma PointedCells(cells: Cells, n: nat, q: Addr)
    ensures forall k :: 2 <= k < 128 ==> PointedAt(cells, n, q)[k] == cells[k]
    ensures n > 0 ==> Pointer(PointedAt(cells, n, q), 0) == q
  {
    PointerSet(cells, 0, q);
  }

  /** The read pointer is set to the cursor and the header read from there. */
  method OpenFrame(dev: Enc28j60)
    requires dev.io.chip.phase.Deselected? && dev.Coherent() && Calm(dev.io.chip) && dev.io.chip.econ2.autoinc
    requires Ring(dev.io.chip, dev.nextRxPacketPtr, dev.taken, 0) && dev.taken < |dev.io.chip.log|
    modifies dev`bank, dev`header, dev.io
    ensures dev.io.chip.phase.Deselected? && dev.Coherent() && Undisturbed(old(dev.io.chip), dev.io.chip)
    ensures CellsKept(old(dev.io.chip), dev.io.chip, {0, 1})
    ensures Pointer(dev.io.chip.cells, 0) == Wrap(dev.nextRxPacketPtr + HEADER)
    ensures var f := old(dev.io.chip).log[dev.taken];
            && |f.data| < 0x10000 && 0 <= After(dev.nextRxPacketPtr, f) < SIZE
            && dev.header == RxHeader(After(dev.nextRxPacketPtr, f), |f.data|, f.status)
  {
    hide Bus.Faithful, Ring, Undisturbed, Evolves, Stored, Written, TxSideKept, After, Pointer, PointedAt;
    ghost var c, head, taken := dev.io.chip, dev.nextRxPacketPtr, dev.taken;
    RingFacts(c, head, taken, 0);
    Seek(dev, dev.nextRxPacketPtr, head, taken);
    ghost var c1 := dev.io.chip;
    ReadRxHeader(dev, head, taken);
    UndisturbedTransitive(c, c1, dev.io.chip);
    PointedCells(c1.cells, HEADER, Wrap(head + HEADER));
  }

  lemma UndisturbedReady(c: Chip, d: Chip, head: int, taken: int)
    requires Undisturbed(c, d) && Calm(c) && Ring(c, head, taken, 0)
    ensures Ring(d, head, taken, 0) && TxSideKept(c, d) && Calm(d) && c.log <= d.log && d.econ2 == c.econ2
  {
    RingFacts(c, head, taken, 0);
    UndisturbedRing(c, d, head, taken, 0);
    UndisturbedKeeps(c, d);
    hide Undisturbed, Ring;
  }

  /** Header and payload of the oldest frame are read; the payload lands in `buf`. */
  method CopyFrame(dev: Enc28j60, buf: array<byte>, maxlen: word) returns (len: word)
    requires dev.io.chip.phase.Deselected? && dev.Coherent() && Calm(dev.io.chip) && dev.io.chip.econ2.autoinc
    requires Ring(dev.io.chip, dev.nextRxPacketPtr, dev.taken, 0) && dev.taken < |dev.io.chip.log|
    requires maxlen as int <= buf.Length
    modifies dev`bank, dev`header, dev.io, buf
    ensures dev.io.chip.phase.Deselected? && dev.Coherent() && Calm(dev.io.chip)
    ensures TxSideKept(old(dev.io.chip), dev.io.chip) && old(dev.io.chip).log <= dev.io.chip.log
    ensures Ring(dev.io.chip, dev.nextRxPacketPtr, dev.taken, 0)
    ensures CellsKept(old(dev.io.chip), dev.io.chip, {0, 1})
    ensures dev.header.nextPacketPtr == After(dev.nextRxPacketPtr, old(dev.io.chip).log[dev.taken]) < SIZE
    ensures len <= maxlen
    ensures buf[..len] == Delivered(old(dev.io.chip).log[dev.taken], maxlen)
    ensures forall i :: len as int <= i < buf.Length ==> buf[i] == old(buf[i])
  {
    hide Bus.Faithful, Ring, Undisturbed, Evolves, TxSideKept, ReadFrom, Stepped, Wrap, After, Pointer, PointedAt;
    ghost var c, head, taken := dev.io.chip, dev.nextRxPacketPtr, dev.taken;
    ghost var f := c.log[taken];
    RingFacts(c, head, taken, 0);
    OpenFrame(dev);
    ghost var c1 := dev.io.chip;
    UndisturbedReady(c, c1, head, taken);
    len := dev.header.byteCount;
    if len > 4 {
      len := len - 4;
    }
    if len > maxlen {
      len := maxlen;
    }
    ghost var p := Pointer(c1.cells, 0);
    ReadBuf(dev, buf, len);
    PointedCells(c1.cells, len, Stepped(c1, p, len));
    UndisturbedTransitive(c, c1, dev.io.chip);
    UndisturbedReady(c, dev.io.chip, head, taken);
    PayloadRead(c1, head, taken, p, buf[..len]);
  }

  lemma TxSideReady(c: Chip, d: Chip)
    requires TxSideKept(c, d)
    ensures Calm(d) && c.log <= d.log && d.violations == c.violations && d.econ2 == c.econ2
    ensures RxEnabled(d) == RxEnabled(c)
  {
  }

  /**
   enc28j60_receive_packet. If a frame is waiting the oldest one is consumed, and `buf` starts with its bytes,
   without the four bytes of CRC and cut to `maxlen`; otherwise nothing is. Transmission is left alone.
   */
  method ReceivePacket(dev: Enc28j60, buf: array<byte>, maxlen: word) returns (len: word)
    requires Ready(dev) && maxlen as int <= buf.Length
    modifies dev`bank, dev`header, dev`nextRxPacketPtr, dev`taken, dev.io, buf
    ensures len <= maxlen
    ensures Ready(dev)
    ensures TxSideKept(old(dev.io.chip), dev.io.chip) && CellsKept(old(dev.io.chip), dev.io.chip, {0, 1, 12, 13})
    ensures old(dev.io.chip).log <= dev.io.chip.log
    ensures dev.taken == old(dev.taken) || dev.taken == old(dev.taken) + 1
    ensures old(dev.taken) < |old(dev.io.chip).log| ==> dev.taken == old(dev.taken) + 1
    ensures dev.taken == old(dev.taken) ==> len == 0 && buf[..] == old(buf[..])
    ensures dev.taken == old(dev.taken) + 1 ==>
              && old(dev.taken) < |dev.io.chip.log| && Pointer(dev.io.chip.cells, 0) == dev.nextRxPacketPtr
              && buf[..len] == Delivered(dev.io.chip.log[old(dev.taken)], maxlen)
              && forall i :: len as int <= i < buf.Length ==> buf[i] == old(buf[i])
    ensures dev.taken == old(dev.taken) + 1 ==>
              var data := dev.io.chip.log[old(dev.taken)].data;
              && (|data| <= 4 ==> buf[..len] == if |data| <= maxlen as int then data else data[..maxlen])
              && forall payload: seq<byte>, crc: seq<byte> :: payload != [] && |crc| == 4 && data == payload + crc ==>
                   buf[..len] == if |payload| <= maxlen as int then payload else payload[..maxlen]
  {
    hide Bus.Faithful, Ring, Undisturbed, Evolves, TxSideKept, After, Delivered, Pointer;
    ghost var c, head, taken := dev.io.chip, dev.nextRxPacketPtr, dev.taken;
    var waiting := ReadControlReg(dev, EPKTCNT);
    ghost var c1 := dev.io.chip;
    UndisturbedReady(c, c1, head, taken);
    TxSideReady(c, c1);
    RingFacts(c1, head, taken, 0);
    len := 0;
    if waiting != 0 {
      ghost var f := c1.log[taken];
      DeliveredPayload(f.data, f.status, maxlen);
      len := CopyFrame(dev, buf, maxlen);
      ghost var c2 := dev.io.chip;
      TxSideTransitive(c, c1, c2);
      TxSideReady(c1, c2);
      ReleaseFrame(dev);
      ghost var c3 := dev.io.chip;
      TxSideTransitive(c, c2, c3);
      TxSideReady(c2, c3);
      DecrementCount(dev);
      TxSideTransitive(c, c3, dev.io.chip);
      TxSideReady(c3, dev.io.chip);
    }
    TxSideReady(c, dev.io.chip);
    RingFacts(c, head, taken, 0);
  }
}
