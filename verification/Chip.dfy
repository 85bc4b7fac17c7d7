/**
 The ENC28J60 as the driver sees it over SPI. A `Chip` is the whole state of the
 device; `Exchange`, `CsFall` and `CsRise` are its reactions to the pins, and
 `Elapse` is what it may do on its own meanwhile: receive, transmit, run the MII
 management interface, start its clock.
 */
module ChipModel {
  import opened Bytes
  import opened RegisterMap

  const MEM_SIZE := 0x2000
  const STATUS_VECTOR := 7
  const HEADER := 6

  type Addr = a: int | 0 <= a < MEM_SIZE
  type Mem = m: seq<byte> | |m| == MEM_SIZE witness seq(MEM_SIZE, _ => 0)
  type Cells = r: seq<byte> | |r| == 128 witness seq(128, _ => 0)
  type PhyCells = p: seq<word> | |p| == 32 witness seq(32, _ => 0)

  type BankSelect = b: int | 0 <= b < 4
  type Nibble = n: int | 0 <= n < 16
  type Octal = n: int | 0 <= n < 8

  /** A received frame: its bytes with the CRC, and the status word the chip stores with it. */
  datatype Frame = Frame(data: seq<byte>, status: word)

  datatype Phase =
    | Deselected
    | Selected
    | ReadingControl(addr: int, dummySent: bool)
    | WritingControl(addr: int)
    | ChangingBits(addr: int, setting: bool)
    | ReadingMemory
    | WritingMemory
    | Finished

  /** What a driver must never do. */
  datatype Violation =
    | ByteWhileDeselected
    | UnknownCommand
    | SecondCommandInWindow
    | CommandCutShort
    | BitFieldOnMacOrMii
    | Econ1WrittenDuringTransmit
    | BufferWrittenDuringTransmit
    | MiiStartedWhileBusy
    | PhyDataReadWhileBusy

  datatype Mii = Idle | Busy(writing: bool, wait: nat)

  /** ECON1: bank select, receive enable, transmit request, and the four upper bits. */
  datatype Econ1 = Econ1(bsel: BankSelect, rxen: bool, txrts: bool, upper: Nibble)

  /** ECON2: pointer auto-increment and the bits 3 to 5. PKTDEC and the bits 0 to 2 always read as 0. */
  datatype Econ2 = Econ2(autoinc: bool, middle: Octal)

  /** Reset values: unknown, but fixed for the device. */
  datatype Rom = Rom(cells: Cells, econ2: Econ2, phy: PhyCells)

  datatype Chip = Chip(
    phase: Phase, violations: set<Violation>,
    econ1: Econ1, econ2: Econ2, cells: Cells,
    rxWrite: Addr, rxGuard: int, packets: byte,
    mem: Mem, txWait: nat,
    mii: Mii, phy: PhyCells, phyData: word,
    clockWait: nat, latency: nat, noise: byte,
    log: seq<Frame>, sent: seq<seq<byte>>, rom: Rom)

  // ---------- Registers ----------

  predicate RxEnabled(c: Chip) { c.econ1.rxen }

  predicate Transmitting(c: Chip) { c.econ1.txrts }

  function Bsel(c: Chip): BankSelect { c.econ1.bsel }

  function Econ1Byte(e: Econ1): byte {
    e.bsel + (if e.rxen then 4 else 0) + (if e.txrts then 8 else 0) + 16 * e.upper
  }

  function Econ1Of(b: byte): Econ1 {
    Econ1(b % 4, Bit(b, 4), Bit(b, 8), b / 16)
  }

  function Econ2Byte(e: Econ2): byte {
    8 * e.middle + (if e.autoinc then 128 else 0)
  }

  lemma FieldsOf(b: int, low: int, third: bool, fourth: bool, upper: int)
    requires b == low + (if third then 4 else 0) + (if fourth then 8 else 0) + 16 * upper && 0 <= low < 4
    ensures b % 4 == low && b / 16 == upper && (b / 4) % 2 == Num(third) && (b / 8) % 2 == Num(fourth)
  {
    assert b / 4 == Num(third) + 2 * (Num(fourth) + 2 * upper);
    assert b / 8 == Num(fourth) + 2 * upper;
  }

  /** The places of the fields of ECON1: BSEL lowest, then RXEN, TXRTS, and the four others. */
  lemma Econ1Layout(e: Econ1)
    ensures var b := Econ1Byte(e);
            b % 4 == e.bsel && Bit(b, 4) == e.rxen && Bit(b, 8) == e.txrts && b / 16 == e.upper
  {
    FieldsOf(Econ1Byte(e), e.bsel, e.rxen, e.txrts, e.upper);
    hide Econ1Byte;
  }

  lemma Econ1RoundTrip(e: Econ1)
    ensures Econ1Of(Econ1Byte(e)) == e && Econ1Byte(e) % 4 == e.bsel
  {
    hide Econ1Byte, Bit;
    Econ1Layout(e);
  }

  /** Setting a field in the copy of ECON1 is setting its bit in the byte. */
  lemma Econ1Sets(e: Econ1)
    ensures Econ1Byte(e.(rxen := true)) == Or(Econ1Byte(e), 4)
    ensures Econ1Byte(e.(txrts := true)) == Or(Econ1Byte(e), 8)
  {
    hide Or, Bit;
    OrSets(Econ1Byte(e));
    Econ1Layout(e);
  }

  /** The places of the fields of ECON2: AUTOINC highest; PKTDEC and the lowest three bits read as 0. */
  lemma Econ2Layout(e: Econ2)
    ensures var b := Econ2Byte(e); Bit(b, 128) == e.autoinc && !Bit(b, 64) && b / 8 % 8 == e.middle && b % 8 == 0
  {
    var b := Econ2Byte(e);
    var a := if e.autoinc then 1 else 0;
    assert b / 8 == e.middle + 16 * a;
    assert b / 64 == 2 * a;
    assert b / 128 == a;
  }

  /** Place of a banked register in the flat register file; 0x1b to 0x1f are common to all banks. */
  function Cell(bank: int, addr: int): (k: int)
    requires 0 <= bank < 4 && 0 <= addr < 0x20
    ensures 0 <= k < 128
  {
    if addr >= 0x1b then addr else 0x20 * bank + addr
  }

  function Pointer(cells: Cells, k: int): Addr
    requires 0 <= k < 127
  {
    Join(cells[k], cells[k + 1]) % 0x2000
  }

  /** A pointer register depends on its own two cells. */
  lemma PointerOf(a: Cells, b: Cells, k: int)
    requires 0 <= k < 127 && a[k] == b[k] && a[k + 1] == b[k + 1]
    ensures Pointer(a, k) == Pointer(b, k)
  {
  }

  lemma HighOfAddr(p: Addr)
    ensures Hi(p) < 0x20
  {
  }

  lemma AddrCut(p: Addr)
    ensures p % 0x2000 == p
  {
  }

  /** An address fits thirteen bits, so nothing of it is lost in a pointer register. */
  lemma AddrSplit(p: Addr)
    ensures Hi(p) < 0x20 && Join(Lo(p), Hi(p)) % 0x2000 == p
  {
    hide Lo, Hi, Join;
    JoinSplit(p);
    HighOfAddr(p);
    AddrCut(p);
  }

  /** `n` bytes on from `p`, cyclically in the whole memory. */
  function Forward(p: Addr, n: nat): Addr
    requires n <= MEM_SIZE
  {
    if p + n < MEM_SIZE then p + n else p + n - MEM_SIZE
  }

  /** Buffer pointers hold thirteen bits and the PHY address five; the other bits are not there. */
  function Implemented(k: int, v: byte): byte {
    if k in {1, 3, 5, 7, 9, 11, 13, 17, 19, 21, 84} then v % 0x20 else v
  }

  /** Cells whose value is the chip's alone: the driver's writes do not reach them. */
  predicate ReadOnly(k: int) {
    k in {0x0e, 0x0f, 0x1d, 57, 88, 89, 106, 114}
  }

  /** MAC and MII registers send a dummy byte before their value. */
  predicate SendsDummy(bank: int, addr: int) {
    addr < 0x1b && (bank == 2 || (bank == 3 && (addr <= 0x05 || addr == 0x0a)))
  }

  function Peek(c: Chip, addr: int): byte
    requires 0 <= addr < 0x20
  {
    var k := Cell(Bsel(c), addr);
    if k == 0x1f then Econ1Byte(c.econ1)
    else if k == 0x1e then Econ2Byte(c.econ2)
    else if k == 0x1d then c.cells[k] - c.cells[k] % 2 + (if c.clockWait == 0 then 1 else 0)
    else if k == 0x0e then Lo(c.rxWrite)
    else if k == 0x0f then Hi(c.rxWrite)
    else if k == 57 then c.packets
    else if k == 88 then Lo(c.phyData)
    else if k == 89 then Hi(c.phyData)
    else if k == 106 then (if c.mii.Busy? then 1 else 0)
    else c.cells[k]
  }

  function TxBytes(c: Chip): seq<byte> {
    var first, last := Pointer(c.cells, 4), Pointer(c.cells, 6);
    if first <= last then c.mem[first..last + 1] else []
  }

  function StoreEcon1(c: Chip, v: byte): Chip {
    var c' := c.(econ1 := Econ1Of(v),
                 violations := if Transmitting(c) then c.violations + {Econ1WrittenDuringTransmit} else c.violations);
    if !Transmitting(c) && Transmitting(c') then
      c'.(txWait := c.latency, sent := c.sent + [TxBytes(c)])
    else
      c'
  }

  function StoreEcon2(c: Chip, v: byte): Chip {
    c.(econ2 := Econ2(Bit(v, 128), v / 8 % 8),
       packets := if Bit(v, 64) && c.packets > 0 then c.packets - 1 else c.packets)
  }

  function StartMii(c: Chip, writing: bool): Chip {
    c.(mii := Busy(writing, c.latency),
       violations := if c.mii.Busy? then c.violations + {MiiStartedWhileBusy} else c.violations)
  }

  function Put(cells: Cells, k: int, v: byte): Cells
    requires 0 <= k < 128
  {
    cells[k := Implemented(k, v)]
  }

  /** The effect of a control-register write in the bank selected now. */
  function Store(c: Chip, addr: int, v: byte): Chip
    requires 0 <= addr < 0x20
  {
    var k := Cell(Bsel(c), addr);
    if k == 0x1f then StoreEcon1(c, v)
    else if k == 0x1e then StoreEcon2(c, v)
    else if ReadOnly(k) then c
    else
      var d := c.(cells := Put(c.cells, k, v));
      if k == 0x08 || k == 0x09 then d.(rxWrite := Pointer(d.cells, 0x08))
      else if k == 0x0d then d.(rxGuard := Pointer(d.cells, 0x0c))
      else if k == 82 && Bit(v, 1) then StartMii(d, false)
      else if k == 87 then StartMii(d, true)
      else d
  }

  /**
   Some bits of an ETH register set or cleared, in one step of the chip. In ECON1 that is allowed during a transmission
   unless it clears TXRTS.
   */
  function ChangeBits(c: Chip, addr: int, mask: byte, setting: bool): Chip
    requires 0 <= addr < 0x20
  {
    var v := if setting then Or(Peek(c, addr), mask) else AndNot(Peek(c, addr), mask);
    if SendsDummy(Bsel(c), addr) then c.(violations := c.violations + {BitFieldOnMacOrMii})
    else if Cell(Bsel(c), addr) == 0x1f && Transmitting(c) && Econ1Of(v).txrts then c.(econ1 := Econ1Of(v))
    else Store(c, addr, v)
  }

  function Reset(c: Chip): Chip {
    c.(econ1 := Econ1(0, false, false, 0), econ2 := c.rom.econ2, cells := c.rom.cells,
       rxWrite := Pointer(c.rom.cells, 0x08),
       rxGuard := Pointer(c.rom.cells, 0x0c), packets := 0, mii := Idle, phy := c.rom.phy, txWait := 0,
       clockWait := c.latency)
  }

  // ---------- Serial interface ----------

  function CsFall(c: Chip): Chip {
    if c.phase.Deselected? then c.(phase := Selected) else c
  }

  function CsRise(c: Chip): Chip {
    var d := c.(phase := Deselected);
    if c.phase.ReadingControl? || c.phase.WritingControl? || c.phase.ChangingBits? then Fault(d, CommandCutShort) else d
  }

  function Fault(c: Chip, v: Violation): Chip {
    c.(violations := c.violations + {v})
  }

  function Command(c: Chip, b: byte): Chip {
    var arg := b % 0x20;
    match b / 0x20
    case 0 => c.(phase := ReadingControl(arg, false))
    case 1 => if arg == BUFFER_MEMORY_ARG then c.(phase := ReadingMemory) else Fault(c, UnknownCommand)
    case 2 => c.(phase := WritingControl(arg))
    case 3 => if arg == BUFFER_MEMORY_ARG then c.(phase := WritingMemory) else Fault(c, UnknownCommand)
    case 4 => c.(phase := ChangingBits(arg, true))
    case 5 => c.(phase := ChangingBits(arg, false))
    case 7 => if arg == SOFT_RESET_ARG then Reset(c).(phase := Finished) else Fault(c, UnknownCommand)
    case _ => Fault(c, UnknownCommand)
  }

  function RxSuccessor(c: Chip, p: Addr): Addr {
    if p == Pointer(c.cells, 0x0a) then Pointer(c.cells, 0x08) else Forward(p, 1)
  }

  function SetPointer(cells: Cells, k: int, p: Addr): Cells
    requires 0 <= k < 127
  {
    cells[k := Lo(p)][k + 1 := Hi(p)]
  }

  function ReadMemory(c: Chip): (Chip, byte) {
    var p := Pointer(c.cells, 0);
    (if c.econ2.autoinc then c.(cells := SetPointer(c.cells, 0, RxSuccessor(c, p))) else c, c.mem[p])
  }

  function WriteMemory(c: Chip, b: byte): Chip {
    var p := Pointer(c.cells, 2);
    c.(mem := c.mem[p := b],
       cells := if c.econ2.autoinc then SetPointer(c.cells, 2, Forward(p, 1)) else c.cells,
       violations := if Transmitting(c) then c.violations + {BufferWrittenDuringTransmit} else c.violations)
  }

  /** Sends the control register `addr`, or first the dummy byte if the register has one. */
  function ReadControl(c: Chip, addr: int, dummySent: bool): (Chip, byte)
    requires 0 <= addr < 0x20
  {
    if SendsDummy(Bsel(c), addr) && !dummySent then (c.(phase := ReadingControl(addr, true)), c.noise)
    else if Cell(Bsel(c), addr) in {88, 89} && c.mii.Busy? then
      (Fault(c, PhyDataReadWhileBusy).(phase := Finished), c.noise)
    else (c.(phase := Finished), Peek(c, addr))
  }

  /** One byte each way: the new state and the byte the chip shifts out. */
  function Exchange(c: Chip, b: byte): (Chip, byte) {
    match c.phase
    case Deselected => (Fault(c, ByteWhileDeselected), c.noise)
    case Selected => (Command(c, b), c.noise)
    case ReadingControl(addr, dummySent) =>
      if 0 <= addr < 0x20 then ReadControl(c, addr, dummySent) else (Fault(c, UnknownCommand), c.noise)
    case WritingControl(addr) =>
      if 0 <= addr < 0x20 then (Store(c, addr, b).(phase := Finished), c.noise) else (Fault(c, UnknownCommand), c.noise)
    case ChangingBits(addr, setting) =>
      if 0 <= addr < 0x20 then (ChangeBits(c, addr, b, setting).(phase := Finished), c.noise)
      else (Fault(c, UnknownCommand), c.noise)
    case ReadingMemory => ReadMemory(c)
    case WritingMemory => (WriteMemory(c, b), c.noise)
    case Finished => (Fault(c, SecondCommandInWindow), c.noise)
  }

  // ---------- What the chip does on its own ----------

  /** Bytes of a frame that is still arriving, and possibly never completes; or a complete frame. */
  datatype Arrival = Fragment(bytes: seq<byte>) | Complete(frame: Frame)

  /** The environment's choices for one step of time. */
  datatype Slot = Slot(arrivals: seq<Arrival>, status: seq<byte>, latency: nat, noise: byte)

  /** Ring distance from `p` forward to `i` in the ring [first..last]. */
  function Offset(first: int, last: int, p: int, i: int): int {
    if i >= p then i - p else i - p + (last - first + 1)
  }

  function RingPut(m: Mem, first: int, last: int, p: int, bytes: seq<byte>): Mem {
    seq(MEM_SIZE, i requires 0 <= i < MEM_SIZE =>
      if first <= i <= last && 0 <= Offset(first, last, p, i) < |bytes| then bytes[Offset(first, last, p, i)] else m[i])
  }

  /** Space a frame takes in the ring: header, data, and padding to an even length. */
  function Room(f: Frame): nat {
    HEADER + |f.data| + |f.data| % 2
  }

  function HeaderBytes(next: word, count: word, status: word): seq<byte> {
    [Lo(next), Hi(next), Lo(count), Hi(count), Lo(status), Hi(status)]
  }

  function FrameBytes(f: Frame, next: Addr): seq<byte> {
    HeaderBytes(next, |f.data| % 0x10000, f.status) + f.data
  }

  /** A frame is stored only if it would not reach the byte ERXRDPT points to, and the count does not overflow. */
  function Receive(c: Chip, a: Arrival): Chip {
    var first, last := Pointer(c.cells, 0x08), Pointer(c.cells, 0x0a);
    if !(first <= c.rxWrite <= last && first <= c.rxGuard <= last) then c
    else
      var space := Offset(first, last, c.rxWrite, c.rxGuard);
      match a
      case Fragment(bytes) =>
        if |bytes| <= space then c.(mem := RingPut(c.mem, first, last, c.rxWrite, bytes)) else c
      case Complete(f) =>
        if Room(f) <= space && c.packets < 255 then
          var behind := c.rxWrite + Room(f);
          var next := if behind > last then behind - (last - first + 1) else behind;
          c.(mem := RingPut(c.mem, first, last, c.rxWrite, FrameBytes(f, next)),
             rxWrite := next, packets := c.packets + 1, log := c.log + [f])
        else c
  }

  function ReceiveAll(c: Chip, arrivals: seq<Arrival>): Chip
    decreases |arrivals|
  {
    if arrivals == [] || !RxEnabled(c) then c else ReceiveAll(Receive(c, arrivals[0]), arrivals[1..])
  }

  /** The transmit status vector follows the frame. */
  function PutStatus(m: Mem, p: int, status: seq<byte>): Mem
    requires 0 <= p <= MEM_SIZE
  {
    seq(MEM_SIZE, i requires 0 <= i < MEM_SIZE =>
      var k := if i >= p then i - p else i - p + MEM_SIZE;
      if k < STATUS_VECTOR && k < |status| then status[k] else m[i])
  }

  function Transmit(c: Chip, status: seq<byte>): Chip {
    if !Transmitting(c) then c
    else if c.txWait > 0 then c.(txWait := c.txWait - 1)
    else c.(econ1 := c.econ1.(txrts := false), mem := PutStatus(c.mem, Pointer(c.cells, 6) + 1, status))
  }

  function RunMii(c: Chip): Chip {
    match c.mii
    case Idle => c
    case Busy(writing, wait) =>
      var k := c.cells[84] % 0x20;
      if wait > 0 then c.(mii := Busy(writing, wait - 1))
      else if writing then c.(mii := Idle, phy := c.phy[k := Join(c.cells[86], c.cells[87])])
      else c.(mii := Idle, phyData := c.phy[k])
  }

  function RunClock(c: Chip): Chip {
    c.(clockWait := if c.clockWait > 0 then c.clockWait - 1 else 0)
  }

  function Elapse(c: Chip, s: Slot): Chip {
    RunClock(RunMii(Transmit(ReceiveAll(c.(latency := s.latency, noise := s.noise), s.arrivals), s.status)))
  }
}
