/**
 What a driver can rely on while the chip runs by itself. `Evolves(c, d)` is closed under
 composition and holds between a state and any state the chip moves to on its own, whatever
 arrives and however long transmissions take.
 */
module Environment {
  import opened Bytes
  import opened RegisterMap
  import opened ChipModel
  import opened RxRing

  /** Steps until the transmission ends, the management operation ends, the clock is ready. */
  function TxLeft(c: Chip): nat { if Transmitting(c) then c.txWait + 1 else 0 }

  function MiiLeft(c: Chip): nat { if c.mii.Busy? then c.mii.wait + 1 else 0 }

  predicate Sooner(before: nat, now: nat) {
    if before == 0 then now == 0 else now < before
  }

  ghost predicate KeepsRing(c: Chip, d: Chip) {
    forall head, taken, owed :: Ring(c, head, taken, owed) ==> Ring(d, head, taken, owed)
  }

  /** The ring depends on this part of the chip only. */
  lemma SameRing(c: Chip, d: Chip)
    requires RingConfigured(d) == RingConfigured(c) && d.log == c.log && d.packets == c.packets && d.mem == c.mem
    requires d.rxGuard == c.rxGuard && d.rxWrite == c.rxWrite
    ensures KeepsRing(c, d) && KeepsRing(d, c)
  {
    hide Chain, RingConfigured, RoomOf, Wrap, Before;
  }

  /** The frame in transmission and its status vector lie in the transmit area. */
  predicate TxInBounds(c: Chip) {
    TX_START <= Pointer(c.cells, 6) + 1 && Pointer(c.cells, 6) + 1 + STATUS_VECTOR <= MEM_SIZE
  }

  predicate SameTxArea(c: Chip, d: Chip) {
    forall i :: TX_START <= i < MEM_SIZE ==> d.mem[i] == c.mem[i]
  }

  /** The frame being transmitted is what it was. */
  predicate SameTxFrame(c: Chip, d: Chip) {
    forall i :: TX_START <= i <= Pointer(c.cells, 6) ==> d.mem[i] == c.mem[i]
  }

  /** Everything but the receiver's own state is as it was. */
  predicate OnlyReceiverMoved(c: Chip, d: Chip) {
    && d == c.(mem := d.mem, rxWrite := d.rxWrite, packets := d.packets, log := d.log)
    && c.log <= d.log
  }

  ghost predicate MiiEvolves(c: Chip, d: Chip) {
    && Sooner(MiiLeft(c), MiiLeft(d))
    && match c.mii {
      case Idle => d.phy == c.phy && d.phyData == c.phyData
      case Busy(false, _) =>
        && d.phy == c.phy
        && if d.mii.Idle? then d.phyData == c.phy[c.cells[84] % 0x20] else !d.mii.writing && d.phyData == c.phyData
      case Busy(true, _) =>
        && d.phyData == c.phyData
        && if d.mii.Idle? then d.phy == c.phy[c.cells[84] % 0x20 := Join(c.cells[86], c.cells[87])]
        else d.mii.writing && d.phy == c.phy
    }
  }

  /** Driver-owned state stays; the log only grows; TXRTS only falls; every wait gets shorter. */
  predicate SteadyAndSooner(c: Chip, d: Chip) {
    && d.violations == c.violations && d.cells == c.cells && d.econ2 == c.econ2
    && d.rxGuard == c.rxGuard && d.sent == c.sent && d.rom == c.rom
    && c.log <= d.log
    && (d.econ1 == c.econ1 || (Transmitting(c) && d.econ1 == c.econ1.(txrts := false)))
    && Sooner(TxLeft(c), TxLeft(d)) && Sooner(c.clockWait, d.clockWait)
  }

  predicate MemoryKept(c: Chip, d: Chip) {
    && (!RxEnabled(c) ==> d.log == c.log && d.packets == c.packets && d.rxWrite == c.rxWrite)
    && (!RxEnabled(c) && !Transmitting(c) ==> d.mem == c.mem)
    && (RingConfigured(c) && !Transmitting(c) ==> SameTxArea(c, d))
    && (RingConfigured(c) && Transmitting(c) && TxInBounds(c) ==> SameTxFrame(c, d))
  }

  ghost predicate Evolves(c: Chip, d: Chip) {
    && SteadyAndSooner(c, d)
    && MiiEvolves(c, d)
    && ((Transmitting(c) ==> TxInBounds(c)) ==> KeepsRing(c, d))
    && MemoryKept(c, d)
  }

  lemma MiiTransitive(c: Chip, d: Chip, e: Chip)
    requires MiiEvolves(c, d) && MiiEvolves(d, e) && d.cells == c.cells
    ensures MiiEvolves(c, e)
  {
  }

  lemma EvolvesTransitive(c: Chip, d: Chip, e: Chip)
    requires Evolves(c, d) && Evolves(d, e)
    ensures Evolves(c, e)
  {
    hide Ring;
    assert SteadyAndSooner(c, e);
    MiiTransitive(c, d, e);
    assert MemoryKept(c, e);
  }

  // ---------- Receiving ----------

  lemma ReceiveStaysInRing(c: Chip, a: Arrival)
    requires RingConfigured(c)
    ensures SameTxArea(c, Receive(c, a))
  {
  }

  lemma {:induction false} ReceiveAllEvolves(c: Chip, arrivals: seq<Arrival>)
    ensures var d := ReceiveAll(c, arrivals);
            && OnlyReceiverMoved(c, d) && KeepsRing(c, d)
            && (RingConfigured(c) ==> SameTxArea(c, d))
            && (!RxEnabled(c) ==> d == c)
    decreases |arrivals|
  {
    if arrivals != [] && RxEnabled(c) {
      var d := Receive(c, arrivals[0]);
      assert OnlyReceiverMoved(c, d);
      forall head, taken, owed | Ring(c, head, taken, owed) ensures Ring(d, head, taken, owed) {
        ReceiveKeepsRing(c, arrivals[0], head, taken, owed);
      }
      if RingConfigured(c) {
        ReceiveStaysInRing(c, arrivals[0]);
      }
      ReceiveAllEvolves(d, arrivals[1..]);
    }
  }

  // ---------- Transmitting ----------

  lemma PutStatusKeeps(m: Mem, p: int, status: seq<byte>, i: int)
    requires 0 <= p && p + STATUS_VECTOR <= MEM_SIZE && 0 <= i < MEM_SIZE && (i < p || i >= p + STATUS_VECTOR)
    ensures PutStatus(m, p, status)[i] == m[i]
  {
  }

  lemma StatusKeepsChain(m: Mem, p: int, status: seq<byte>, head: int, fs: seq<Frame>, m': Mem)
    requires TX_START <= p && p + STATUS_VECTOR <= MEM_SIZE && m' == PutStatus(m, p, status)
    requires 0 <= head < SIZE && RoomOf(fs) < SIZE && Chain(m, head, fs)
    ensures Chain(m', head, fs)
  {
    forall k | 0 <= k < RoomOf(fs) ensures At(m', head, k) == At(m, head, k) {
      PutStatusKeeps(m, p, status, Wrap(head + k));
    }
    ChainStable(m, m', head, fs);
  }

  lemma TransmitKeepsRing(c: Chip, status: seq<byte>, head: int, taken: int, owed: int)
    requires Transmitting(c) && TxInBounds(c) && Ring(c, head, taken, owed)
    ensures Ring(Transmit(c, status), head, taken, owed)
  {
    hide Chain, RoomOf, Wrap, Before, PutStatus, Pointer, RingConfigured;
    var d := Transmit(c, status);
    SameCells(c, d);
    if c.txWait == 0 {
      StatusKeepsChain(c.mem, Pointer(c.cells, 6) + 1, status, head, c.log[taken..], d.mem);
    }
  }

  /** The transmitter moves only its own countdown, and at the end TXRTS and the status vector. */
  lemma TransmitEvolves(c: Chip, status: seq<byte>)
    ensures var d := Transmit(c, status);
            && d == c.(econ1 := d.econ1, mem := d.mem, txWait := d.txWait)
            && (d.econ1 == c.econ1 || (Transmitting(c) && d.econ1 == c.econ1.(txrts := false)))
            && Sooner(TxLeft(c), TxLeft(d)) && (!Transmitting(c) ==> d == c)
            && (TxInBounds(c) ==> SameTxFrame(c, d))
  {
  }

  // ---------- One step of time ----------

  /** Management and clock move nothing else. */
  lemma RestEvolves(c: Chip)
    ensures var d := RunClock(RunMii(c));
            && d == c.(mii := d.mii, phy := d.phy, phyData := d.phyData, clockWait := d.clockWait)
            && MiiEvolves(c, d) && Sooner(c.clockWait, d.clockWait) && KeepsRing(c, d)
  {
  }

  lemma KeepsRingTransitive(c: Chip, d: Chip, e: Chip)
    requires KeepsRing(c, d) && KeepsRing(d, e)
    ensures KeepsRing(c, e)
  {
  }

  /** Whatever arrives and whatever is under way, one step of the chip's own time is within `Evolves`. */
  lemma ElapseEvolves(c: Chip, s: Slot)
    ensures Evolves(c, Elapse(c, s)) && Elapse(c, s).phase == c.phase
  {
    var c0 := c.(latency := s.latency, noise := s.noise);
    assert KeepsRing(c, c0);
    hide Ring, ReceiveAll, Transmit, RunMii, RunClock;
    var c1 := ReceiveAll(c0, s.arrivals);
    ReceiveAllEvolves(c0, s.arrivals);
    KeepsRingTransitive(c, c0, c1);
    var c2 := Transmit(c1, s.status);
    TransmitEvolves(c1, s.status);
    var d := RunClock(RunMii(c2));
    RestEvolves(c2);
    assert MiiEvolves(c, d);
    if Transmitting(c) ==> TxInBounds(c) {
      forall head, taken, owed | Ring(c1, head, taken, owed) ensures Ring(c2, head, taken, owed) {
        if Transmitting(c) {
          TransmitKeepsRing(c1, s.status, head, taken, owed);
        }
      }
      KeepsRingTransitive(c, c1, c2);
      KeepsRingTransitive(c, c2, d);
    }
  }
}
