/** User/enc28j60/interface/src/enc28j60.c: sending packets, at once or piece by piece. */
module Transmission {
  import opened Bytes
  import opened RegisterMap
  import opened ChipModel
  import opened RxRing
  import opened Environment
  import opened Quiescence
  import opened Port
  import opened Device
  import opened Registers
  import opened BufferAccess
  import opened Interface

  /** Room for `n` bytes and the status vector behind them in the transmit area. */
  predicate FitsTxArea(n: int) {
    0 <= n && TX_START + n + STATUS_VECTOR <= MEM_SIZE
  }

  /** What transmitting leaves alone. */
  predicate RxSideKept(c: Chip, d: Chip) {
    && d.violations == c.violations && d.econ2 == c.econ2 && d.rom == c.rom && d.phy == c.phy
    && RxEnabled(d) == RxEnabled(c) && d.econ1.upper == c.econ1.upper && Calm(d) && c.log <= d.log
  }

  lemma RxSideTransitive(c: Chip, d: Chip, e: Chip)
    requires RxSideKept(c, d) && RxSideKept(d, e)
    ensures RxSideKept(c, e)
  {
  }

  lemma UndisturbedRxSide(c: Chip, d: Chip, head: int, taken: int)
    requires Undisturbed(c, d) && Calm(c) && Ring(c, head, taken, 0)
    ensures Ring(d, head, taken, 0) && RxSideKept(c, d) && SameTxArea(c, d) && d.sent == c.sent
    ensures RingConfigured(d)
  {
    RingFacts(c, head, taken, 0);
    UndisturbedKeeps(c, d);
    UndisturbedRing(c, d, head, taken, 0);
    hide Undisturbed, Ring, RingConfigured;
  }

  lemma KeptRing(c: Chip, d: Chip, head: int, taken: int, owed: int)
    requires KeepsRing(c, d) && Ring(c, head, taken, owed)
    ensures Ring(d, head, taken, owed)
  {
    hide Ring;
  }

  lemma FilledRxSide(c: Chip, d: Chip, p: int, n: int, head: int, taken: int)
    requires Filled(c, d, p, n) && Calm(c) && Ring(c, head, taken, 0) && p >= TX_START
    ensures Ring(d, head, taken, 0) && RxSideKept(c, d) && d.sent == c.sent
    ensures forall i :: TX_START <= i < MEM_SIZE && !(p <= i < p + n) ==> d.mem[i] == c.mem[i]
  {
    hide Undisturbed, Ring, KeepsRing, Restored, RingConfigured;
    var d' := WithMem(d, Restored(d.mem, c.mem, p, p + n));
    UndisturbedRxSide(c, d', head, taken);
    RestoredSameRing(d, c.mem, p, p + n);
    KeptRing(d', d, head, taken, 0);
    RestoredOutside(d.mem, c.mem, p, p + n);
    forall i | TX_START <= i < MEM_SIZE && !(p <= i < p + n) ensures d.mem[i] == c.mem[i] {
      assert d'.mem[i] == d.mem[i];
    }
  }

  /** The write pointer is set and the bytes written behind it. */
  method WriteAt(dev: Enc28j60, p: word, buf: seq<byte>)
    requires Ready(dev) && |buf| < 0x8000 && TX_START <= p && p + |buf| <= MEM_SIZE && p < MEM_SIZE
    modifies dev`bank, dev.io
    ensures Ready(dev)
    ensures RxSideKept(old(dev.io.chip), dev.io.chip) && dev.io.chip.sent == old(dev.io.chip).sent
    ensures dev.io.chip.mem[p..p + |buf|] == buf
    ensures forall i :: TX_START <= i < MEM_SIZE && !(p <= i < p + |buf|) ==>
                          dev.io.chip.mem[i] == old(dev.io.chip).mem[i]
    ensures CellsKept(old(dev.io.chip), dev.io.chip, {2, 3}) && Pointer(dev.io.chip.cells, 2) == Forward(p, |buf|)
  {
    hide Bus.Faithful, Ring, Undisturbed, Evolves, Stored, Written, Pointer, RxSideKept, Filled, Advanced, WrittenFrom;
    ghost var c, head, taken := dev.io.chip, dev.nextRxPacketPtr, dev.taken;
    ghost var m1, m2 := WriteControlReg(dev, EWRPT, p);
    ghost var c1 := dev.io.chip;
    WrittenPointer(c.cells, EWRPT, p);
    UndisturbedRxSide(c, c1, head, taken);
    RxSideFacts(c, c1);
    WriteBuf(dev, buf);
    InTxArea(c1, p);
    WrittenFits(c1, dev.io.chip, p, buf);
    FilledRxSide(c1, dev.io.chip, p, |buf|, head, taken);
    RxSideFacts(c1, dev.io.chip);
    RxSideTransitive(c, c1, dev.io.chip);
    AdvancedCells(c1.cells, p, |buf|);
  }

  lemma RxSideFacts(c: Chip, d: Chip)
    requires RxSideKept(c, d)
    ensures Calm(d) && d.econ2 == c.econ2 && d.violations == c.violations && RxEnabled(d) == RxEnabled(c)
    ensures c.log <= d.log
  {
  }

  /** The chip never writes to the transmit area by itself while nothing is sent. */
  lemma InTxArea(c: Chip, p: Addr)
    requires Calm(c) && RingConfigured(c) && TX_START <= p
    ensures OutOfReach(c, p)
  {
  }

  lemma AdvancedCells(cells: Cells, p: Addr, n: nat)
    requires p == Pointer(cells, 2) && n <= MEM_SIZE
    ensures Pointer(Advanced(cells, 2, p, n), 2) == Forward(p, n)
    ensures forall k :: 0 <= k < 128 && k != 2 && k != 3 ==> Advanced(cells, 2, p, n)[k] == cells[k]
  {
    hide Pointer, Around;
    AroundStep(p, n);
    if n > 0 {
      PointerSet(cells, 2, Around(p, n));
    }
  }

  lemma TxGetsCloser(c: Chip, d: Chip)
    requires Evolves(c, d)
    ensures Transmitting(c) ==> TxLeft(d) < TxLeft(c)
  {
  }

  /** Polls ECON1 until TXRTS is clear. Only reads: ECON1 is not written while the chip may clear TXRTS. */
  method AwaitTransmitter(dev: Enc28j60)
    requires dev.io.chip.phase.Deselected? && dev.Coherent()
    modifies dev`bank, dev.io
    ensures dev.io.chip.phase.Deselected? && dev.Coherent()
    ensures Evolves(old(dev.io.chip), dev.io.chip) && !Transmitting(dev.io.chip)
  {
    hide Bus.Faithful, Evolves, Undisturbed, Econ1Byte, Econ1Of, Peek, TxLeft, Lo;
    ghost var c := dev.io.chip;
    var tmp := ReadControlReg(dev, ECON1);
    LowByte(tmp);
    PeekEcon1(dev.io.chip);
    while Econ1Of(Lo(tmp)).txrts
      invariant dev.io.chip.phase.Deselected? && dev.Coherent()
      invariant Evolves(c, dev.io.chip) && Econ1Of(Lo(tmp)) == dev.io.chip.econ1
      decreases TxLeft(dev.io.chip)
    {
      ghost var d := dev.io.chip;
      tmp := ReadControlReg(dev, ECON1);
      LowByte(tmp);
      PeekEcon1(dev.io.chip);
      TxGetsCloser(d, dev.io.chip);
      EvolvesTransitive(c, d, dev.io.chip);
    }
  }

  /** Setting TXRTS starts exactly one transmission, of the bytes from ETXST to ETXND. */
  lemma StoreStart(m: Chip, v: byte)
    requires !Transmitting(m) && Econ1Of(v) == m.econ1.(txrts := true)
    ensures Stored(m, 0x1f, v)
            == m.(econ1 := m.econ1.(txrts := true), txWait := m.latency, sent := m.sent + [TxBytes(m)],
                  phase := Deselected)
  {
    hide TxBytes, Econ1Of;
  }

  lemma StartKeepsRing(m: Chip, s: Chip, head: int, taken: int)
    requires Ring(m, head, taken, 0)
    requires s == m.(econ1 := s.econ1, txWait := s.txWait, sent := s.sent, phase := s.phase)
    ensures Ring(s, head, taken, 0)
  {
    hide Ring;
    SameRing(m, s);
  }

  /** From the start of a transmission to its end: the packet is intact, and reception went on. */
  lemma TransmissionEnds(m: Chip, s: Chip, d: Chip, head: int, taken: int)
    requires Ring(m, head, taken, 0) && Calm(m) && TxInBounds(m)
    requires s == m.(econ1 := m.econ1.(txrts := true), txWait := s.txWait, sent := s.sent, phase := s.phase)
    requires Evolves(s, d) && !Transmitting(d)
    ensures Ring(d, head, taken, 0) && RxSideKept(m, d) && d.sent == s.sent && d.cells == m.cells
    ensures Bsel(d) == Bsel(m) && forall i :: TX_START <= i <= Pointer(m.cells, 6) ==> d.mem[i] == m.mem[i]
  {
    hide Ring, RingConfigured;
    StartKeepsRing(m, s, head, taken);
    RingFacts(s, head, taken, 0);
    assert KeepsRing(s, d);
    assert SameTxFrame(s, d);
  }

  lemma LaunchPointers(c: Chip, c1: Chip, c2: Chip, last: Addr)
    requires c1.cells == Written(c.cells, ETXND, last) && c2.cells == Written(c1.cells, ETXST, TX_START)
    ensures Pointer(c2.cells, 4) == TX_START && Pointer(c2.cells, 6) == last && CellsKept(c, c2, {4, 5, 6, 7})
  {
    WrittenPointer(c.cells, ETXND, last);
    WrittenPointer(c1.cells, ETXST, TX_START);
    hide Written;
  }

  /** ETXND and ETXST are set. */
  method SetFrame(dev: Enc28j60, last: word)
    requires Ready(dev) && TX_START <= last < MEM_SIZE
    modifies dev`bank, dev.io
    ensures Ready(dev)
    ensures RxSideKept(old(dev.io.chip), dev.io.chip) && dev.io.chip.sent == old(dev.io.chip).sent
    ensures SameTxArea(old(dev.io.chip), dev.io.chip) && CellsKept(old(dev.io.chip), dev.io.chip, {4, 5, 6, 7})
    ensures Pointer(dev.io.chip.cells, 4) == TX_START && Pointer(dev.io.chip.cells, 6) == last
  {
    hide Bus.Faithful, SwitchBytes, WriteBytes, Ring, Undisturbed, Evolves, Stored, Written, Pointer, RxSideKept,
         CellsKept;
    ghost var c, head, taken := dev.io.chip, dev.nextRxPacketPtr, dev.taken;
    ghost var m1, m2 := WriteControlReg(dev, ETXND, last);
    ghost var c1 := dev.io.chip;
    UndisturbedRxSide(c, c1, head, taken);
    RxSideFacts(c, c1);
    m1, m2 := WriteControlReg(dev, ETXST, TX_START);
    ghost var c2 := dev.io.chip;
    UndisturbedRxSide(c1, c2, head, taken);
    RxSideFacts(c1, c2);
    RxSideTransitive(c, c1, c2);
    LaunchPointers(c, c1, c2, last);
  }

  /** The bytes of the transmit area up to `last`. */
  function TxUpTo(c: Chip, last: int): seq<byte>
    requires TX_START <= last < MEM_SIZE
  {
    c.mem[TX_START..last + 1]
  }

  lemma SameUpTo(c: Chip, d: Chip, last: int)
    requires TX_START <= last < MEM_SIZE && forall i :: TX_START <= i <= last ==> d.mem[i] == c.mem[i]
    ensures TxUpTo(d, last) == TxUpTo(c, last)
  {
  }

  /** Sets TXRTS in a copy of ECON1 and writes it back; it takes effect in the state `m`. */
  method Trigger(dev: Enc28j60) returns (ghost m: Chip)
    requires dev.io.chip.phase.Deselected? && dev.Coherent() && Calm(dev.io.chip)
    modifies dev`bank, dev.io
    ensures dev.io.chip.phase.Deselected? && dev.Coherent()
    ensures var c := old(dev.io.chip);
            && Undisturbed(c, m) && m.cells == c.cells && m.econ1 == c.econ1
            && dev.io.chip == m.(econ1 := m.econ1.(txrts := true), txWait := m.latency, sent := m.sent + [TxBytes(m)],
                                 phase := Deselected)
    ensures dev.io.clocked == old(dev.io.clocked) + [0x1f, 0x00, 0x5f, Or(Peek(old(dev.io.chip), 0x1f), 8)]
  {
    hide Bus.Faithful, Undisturbed, Evolves, Stored, Econ1Byte, Econ1Of, Peek, TxBytes, Lo, Or, SwitchBytes, ReadBytes,
         WriteBytes;
    ghost var c, wire := dev.io.chip, dev.io.clocked;
    var tmp := ReadControlReg(dev, ECON1);
    LowByte(tmp);
    ghost var c1 := dev.io.chip;
    PeekEcon1(c1);
    EvolvesKeepsEcon1(c, c1);
    tmp := Econ1Byte(Econ1Of(Lo(tmp)).(txrts := true));
    Econ1RoundTrip(c1.econ1.(txrts := true));
    LowByte(tmp);
    ghost var m2;
    Econ1Sets(c.econ1);
    PeekEcon1(c);
    ghost var wire1 := dev.io.clocked;
    m, m2 := WriteControlReg(dev, ECON1, tmp);
    CopyBytes(c, c1, old(dev.bank), ECON1, tmp, wire, wire1, dev.io.clocked);
    EvolvesKeepsEcon1(c1, m);
    EvolvesTransitive(c, c1, m);
    EvolvesIsUndisturbed(c, m);
    StoreStart(m, tmp);
  }

  lemma NamedFrame(c: Chip, last: Addr)
    requires Pointer(c.cells, 4) == TX_START <= Pointer(c.cells, 6) == last
    ensures TxBytes(c) == TxUpTo(c, last)
  {
    hide Pointer;
  }

  /** Sets TXRTS in a copy of ECON1, writes it back, and waits for the chip to clear it: one packet is sent. */
  method Fire(dev: Enc28j60)
    requires Ready(dev) && TxInBounds(dev.io.chip)
    requires Pointer(dev.io.chip.cells, 4) == TX_START <= Pointer(dev.io.chip.cells, 6)
    modifies dev`bank, dev.io
    ensures Ready(dev)
    ensures RxSideKept(old(dev.io.chip), dev.io.chip) && dev.io.chip.cells == old(dev.io.chip).cells
    ensures var last := Pointer(old(dev.io.chip).cells, 6);
            && dev.io.chip.sent == old(dev.io.chip).sent + [TxUpTo(old(dev.io.chip), last)]
            && TxUpTo(dev.io.chip, last) == TxUpTo(old(dev.io.chip), last)
  {
    hide Bus.Faithful, Ring, Undisturbed, Evolves, Stored, Pointer, RxSideKept, TxUpTo, TxBytes;
    ghost var c, head, taken := dev.io.chip, dev.nextRxPacketPtr, dev.taken;
    ghost var m := Trigger(dev);
    ghost var s := dev.io.chip;
    AwaitTransmitter(dev);
    UndisturbedRxSide(c, m, head, taken);
    RxSideFacts(c, m);
    NamedFrame(m, Pointer(c.cells, 6));
    TransmissionEnds(m, s, dev.io.chip, head, taken);
    RxSideTransitive(c, m, dev.io.chip);
    SameUpTo(c, m, Pointer(c.cells, 6));
    SameUpTo(m, dev.io.chip, Pointer(c.cells, 6));
    RxSideFacts(c, dev.io.chip);
  }

  /** The part both ways of sending share: wait, name the frame, fire, wait again. */
  method Launch(dev: Enc28j60, last: word)
    requires Ready(dev) && TX_START <= last && FitsTxArea(last + 1 - TX_START)
    modifies dev`bank, dev.io
    ensures Ready(dev)
    ensures RxSideKept(old(dev.io.chip), dev.io.chip)
    ensures dev.io.chip.sent == old(dev.io.chip).sent + [TxUpTo(old(dev.io.chip), last)]
    ensures TxUpTo(dev.io.chip, last) == TxUpTo(old(dev.io.chip), last)
    ensures Pointer(dev.io.chip.cells, 4) == TX_START && Pointer(dev.io.chip.cells, 6) == last
    ensures CellsKept(old(dev.io.chip), dev.io.chip, {4, 5, 6, 7})
  {
    hide Bus.Faithful, Ring, Undisturbed, Evolves, Pointer, RxSideKept, TxUpTo;
    ghost var c, head, taken := dev.io.chip, dev.nextRxPacketPtr, dev.taken;
    AwaitTransmitter(dev);
    ghost var c1 := dev.io.chip;
    EvolvesIsUndisturbed(c, c1);
    UndisturbedRxSide(c, c1, head, taken);
    RxSideFacts(c, c1);
    SetFrame(dev, last);
    ghost var c2 := dev.io.chip;
    RxSideTransitive(c, c1, c2);
    SameUpTo(c, c2, last);
    Fire(dev);
    RxSideTransitive(c, c2, dev.io.chip);
  }

  /** How a chip looks after `packet` was sent, and nothing else, since the state `c`. */
  predicate Transmitted(c: Chip, d: Chip, packet: seq<byte>)
    requires 0 < |packet| && FitsTxArea(|packet|)
  {
    && d.sent == c.sent + [packet] && d.mem[TX_START..TX_START + |packet|] == packet
    && Pointer(d.cells, 4) == TX_START && Pointer(d.cells, 6) == TX_START + |packet| - 1
    && Pointer(d.cells, 2) == TX_START + |packet|
    && CellsKept(c, d, {2, 3, 4, 5, 6, 7})
  }

  /** Two ways of sending the same packet from the same state leave the same bytes, pointers and registers. */
  lemma SameOutcome(c: Chip, d: Chip, e: Chip, packet: seq<byte>)
    requires 0 < |packet| && FitsTxArea(|packet|) && Transmitted(c, d, packet) && Transmitted(c, e, packet)
    ensures d.sent == e.sent && d.mem[TX_START..TX_START + |packet|] == e.mem[TX_START..TX_START + |packet|]
    ensures forall k :: k in {2, 4, 6} ==> Pointer(d.cells, k) == Pointer(e.cells, k)
    ensures CellsKept(d, e, {2, 3, 4, 5, 6, 7})
  {
    hide Pointer;
    forall k | 0 <= k < 128 && k !in {2, 3, 4, 5, 6, 7} ensures e.cells[k] == d.cells[k] {
      assert d.cells[k] == c.cells[k];
    }
  }

  lemma TransmittedBy(c: Chip, c1: Chip, d: Chip, packet: seq<byte>)
    requires 0 < |packet| && FitsTxArea(|packet|)
    requires c1.sent == c.sent && c1.mem[TX_START..TX_START + |packet|] == packet
    requires Pointer(c1.cells, 2) == TX_START + |packet|
    requires CellsKept(c, c1, {2, 3}) && CellsKept(c1, d, {4, 5, 6, 7})
    requires var last := TX_START + |packet| - 1;
             && d.sent == c1.sent + [TxUpTo(c1, last)] && TxUpTo(d, last) == TxUpTo(c1, last)
             && Pointer(d.cells, 4) == TX_START && Pointer(d.cells, 6) == last
    ensures Transmitted(c, d, packet)
  {
    assert d.cells[2] == c1.cells[2] && d.cells[3] == c1.cells[3];
  }

  /**
   enc28j60_send_packet. Exactly the given packet is sent, once; frames waiting in the ring and frames arriving
   meanwhile are kept.
   */
  method SendPacket(dev: Enc28j60, buf: seq<byte>)
    requires Ready(dev) && 0 < |buf| && FitsTxArea(|buf|)
    modifies dev`bank, dev.io
    ensures Ready(dev)
    ensures RxSideKept(old(dev.io.chip), dev.io.chip)
    ensures Transmitted(old(dev.io.chip), dev.io.chip, buf)
  {
    hide Bus.Faithful, Ring, Evolves, Pointer, RxSideKept, TxUpTo, Transmitted, CellsKept;
    ghost var c := dev.io.chip;
    WriteAt(dev, TX_START, buf);
    ghost var c1 := dev.io.chip;
    Launch(dev, TX_START + |buf| - 1);
    RxSideTransitive(c, c1, dev.io.chip);
    TransmittedBy(c, c1, dev.io.chip, buf);
  }

  // ---------- Piece by piece ----------

  /** The pieces written so far: the transmit area holds them from its start to the cursor. */
  predicate Collected(dev: Enc28j60, pieces: seq<byte>)
    reads dev, dev.io
  {
    && dev.txBuffPtr == TX_START + |pieces| && FitsTxArea(|pieces|)
    && dev.io.chip.mem[TX_START..TX_START + |pieces|] == pieces
  }

  /** enc28j60_prepare_to_tx. */
  method PrepareToTx(dev: Enc28j60)
    modifies dev`txBuffPtr
    ensures Collected(dev, []) && (old(Ready(dev)) ==> Ready(dev))
  {
    dev.txBuffPtr := TX_START;
  }

  /** enc28j60_write_to_tx: a piece is added behind the others. */
  method WriteToTx(dev: Enc28j60, buf: seq<byte>, ghost pieces: seq<byte>)
    requires Ready(dev) && Collected(dev, pieces) && FitsTxArea(|pieces| + |buf|)
    modifies dev`bank, dev`txBuffPtr, dev.io
    ensures Ready(dev) && Collected(dev, pieces + buf)
    ensures RxSideKept(old(dev.io.chip), dev.io.chip) && dev.io.chip.sent == old(dev.io.chip).sent
    ensures CellsKept(old(dev.io.chip), dev.io.chip, {2, 3})
    ensures Pointer(dev.io.chip.cells, 2) == TX_START + |pieces| + |buf|
  {
    hide Bus.Faithful, Ring, Pointer, RxSideKept, CellsKept;
    ghost var c := dev.io.chip;
    WriteAt(dev, dev.txBuffPtr, buf);
    Joined(c.mem, dev.io.chip.mem, pieces, buf);
    dev.txBuffPtr := dev.txBuffPtr + |buf|;
  }

  lemma Joined(m: Mem, m': Mem, pieces: seq<byte>, buf: seq<byte>)
    requires FitsTxArea(|pieces| + |buf|) && m[TX_START..TX_START + |pieces|] == pieces
    requires m'[TX_START + |pieces|..TX_START + |pieces| + |buf|] == buf
    requires forall i :: TX_START <= i < TX_START + |pieces| ==> m'[i] == m[i]
    ensures m'[TX_START..TX_START + |pieces| + |buf|] == pieces + buf
  {
    assert m'[TX_START..TX_START + |pieces|] == pieces;
  }

  /** enc28j60_ready_to_send: the collected pieces are sent as one packet. */
  method ReadyToSend(dev: Enc28j60, ghost pieces: seq<byte>)
    requires Ready(dev) && Collected(dev, pieces) && 0 < |pieces|
    modifies dev`bank, dev`txBuffPtr, dev.io
    ensures Ready(dev) && dev.txBuffPtr == TX_START
    ensures RxSideKept(old(dev.io.chip), dev.io.chip)
    ensures var last := TX_START + |pieces| - 1;
            && dev.io.chip.sent == old(dev.io.chip).sent + [pieces] && TxUpTo(dev.io.chip, last) == pieces
            && Pointer(dev.io.chip.cells, 4) == TX_START && Pointer(dev.io.chip.cells, 6) == last
    ensures CellsKept(old(dev.io.chip), dev.io.chip, {4, 5, 6, 7})
  {
    hide Bus.Faithful, Ring, Pointer, RxSideKept, CellsKept;
    Launch(dev, dev.txBuffPtr - 1);
    dev.txBuffPtr := TX_START;
  }
}
