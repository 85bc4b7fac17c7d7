/** User/enc28j60/lowlayer/src/enc28j60_ll.c: reading and writing the buffer memory. */
module BufferAccess {
  import opened Bytes
  import opened RegisterMap
  import opened ChipModel
  import opened RxRing
  import opened Environment
  import opened Quiescence
  import opened Port
  import opened Device
  import opened Registers

  newtype int16 = i: int | -0x8000 <= i < 0x8000

  // ---------- Writing ----------

  /** `m` with the bytes `lo` to `hi` as they are in `x`. */
  function Restored(m: Mem, x: Mem, lo: int, hi: int): Mem
    requires 0 <= lo <= hi <= MEM_SIZE
  {
    m[..lo] + x[lo..hi] + m[hi..]
  }

  function WithMem(c: Chip, m: Mem): Chip {
    c.(mem := m)
  }

  /** Bytes the chip never touches on its own: the transmit area, or any byte while reception is off. */
  predicate OutOfReach(c: Chip, lo: int) {
    !Transmitting(c) && if RingConfigured(c) then lo >= TX_START else !RxEnabled(c)
  }

  lemma RestoredAbove(m: Mem, x: Mem, lo: int, hi: int, head: int, k: int)
    requires TX_START <= lo <= hi <= MEM_SIZE && 0 <= head < SIZE && 0 <= k < SIZE
    ensures At(Restored(m, x, lo, hi), head, k) == At(m, head, k)
  {
  }

  lemma RestoredKeepsRing(c: Chip, x: Mem, lo: int, hi: int, head: int, taken: int, owed: int)
    requires TX_START <= lo <= hi <= MEM_SIZE && Ring(c, head, taken, owed)
    ensures Ring(WithMem(c, Restored(c.mem, x, lo, hi)), head, taken, owed)
  {
    hide Chain, FrameAt, RoomOf, RingConfigured, Wrap, Before;
    var m := Restored(c.mem, x, lo, hi);
    SameCells(c, WithMem(c, m));
    forall k | 0 <= k < RoomOf(c.log[taken..]) ensures At(m, head, k) == At(c.mem, head, k) {
      RestoredAbove(c.mem, x, lo, hi, head, k);
    }
    ChainStable(c.mem, m, head, c.log[taken..]);
  }

  lemma RestoredTwice(m: Mem, x: Mem, lo: int, hi: int)
    requires 0 <= lo <= hi <= MEM_SIZE
    ensures Restored(Restored(m, x, lo, hi), m, lo, hi) == m
  {
  }

  /** Neither makes nor breaks it a ring. */
  lemma RestoredSameRing(c: Chip, x: Mem, lo: int, hi: int)
    requires TX_START <= lo <= hi <= MEM_SIZE
    ensures KeepsRing(c, WithMem(c, Restored(c.mem, x, lo, hi))) && KeepsRing(WithMem(c, Restored(c.mem, x, lo, hi)), c)
  {
    hide Ring, Restored;
    var d := WithMem(c, Restored(c.mem, x, lo, hi));
    RestoredTwice(c.mem, x, lo, hi);
    forall head, taken, owed | Ring(c, head, taken, owed) ensures Ring(d, head, taken, owed) {
      RestoredKeepsRing(c, x, lo, hi, head, taken, owed);
    }
    forall head, taken, owed | Ring(d, head, taken, owed) ensures Ring(c, head, taken, owed) {
      RestoredKeepsRing(d, c.mem, lo, hi, head, taken, owed);
    }
  }

  lemma NoRing(c: Chip, d: Chip)
    requires !RingConfigured(c)
    ensures KeepsRing(c, d)
  {
    hide Chain, RingConfigured, RoomOf;
  }

  lemma EvolvesRestored(c: Chip, d: Chip, x: Mem, lo: int, hi: int)
    requires 0 <= lo <= hi <= MEM_SIZE
    requires Evolves(c, d) && OutOfReach(c, lo)
    ensures Evolves(WithMem(c, Restored(c.mem, x, lo, hi)), WithMem(d, Restored(d.mem, x, lo, hi)))
    ensures d.mem[lo..hi] == c.mem[lo..hi]
  {
    hide Ring, KeepsRing, Restored, RingConfigured, Pointer;
    var c', d' := WithMem(c, Restored(c.mem, x, lo, hi)), WithMem(d, Restored(d.mem, x, lo, hi));
    RestoredOutside(c.mem, x, lo, hi);
    RestoredOutside(d.mem, x, lo, hi);
    RestoredInside(c.mem, x, lo, hi);
    RestoredInside(d.mem, x, lo, hi);
    SameCells(c, c');
    if RingConfigured(c) {
      RestoredSameRing(c, x, lo, hi);
      RestoredSameRing(d, x, lo, hi);
      KeepsRingTransitive(c', c, d);
      KeepsRingTransitive(c', d, d');
    } else {
      NoRing(c', d');
    }
    assert SteadyAndSooner(c', d') && MiiEvolves(c', d') && MemoryKept(c', d');
  }

  lemma RestoredInside(m: Mem, x: Mem, lo: int, hi: int)
    requires 0 <= lo <= hi <= MEM_SIZE
    ensures forall i :: lo <= i < hi ==> Restored(m, x, lo, hi)[i] == x[i]
  {
  }

  /** From `c` to `d` the driver wrote the bytes `p` to `p + n`, and apart from that nothing was disturbed. */
  ghost predicate Filled(c: Chip, d: Chip, p: int, n: int) {
    0 <= p <= p + n <= MEM_SIZE && Undisturbed(c, WithMem(d, Restored(d.mem, c.mem, p, p + n)))
  }

  /** `n` bytes on from `p`, any number of times around the memory. */
  function Around(p: Addr, n: nat): Addr {
    (p + n) % MEM_SIZE
  }

  lemma AroundStep(p: Addr, n: nat)
    ensures Forward(Around(p, n), 1) == Around(p, n + 1)
    ensures n < MEM_SIZE ==> Around(p, n) == Forward(p, n)
    ensures n == MEM_SIZE ==> Around(p, n) == p
  {
  }

  /** The write pointer after `n` bytes from `p`. */
  function Advanced(cells: Cells, k: int, p: Addr, n: nat): Cells
    requires 0 <= k < 127
  {
    if n == 0 then cells else SetPointer(cells, k, Around(p, n))
  }

  /** The bytes stay within memory and away from what the chip writes. */
  predicate Fits(c: Chip, p: Addr, n: nat) {
    OutOfReach(c, p) && p + n <= MEM_SIZE
  }

  /** Memory after the bytes are written one behind the other from `p` on, around its end if need be. */
  function Laid(m: Mem, p: Addr, bytes: seq<byte>): Mem {
    if bytes == [] then m
    else
      var n := |bytes| - 1;
      Laid(m, p, bytes[..n])[Around(p, n) := bytes[n]]
  }

  lemma UndisturbedOutOfReach(c: Chip, d: Chip, p: int)
    requires Undisturbed(c, d) && OutOfReach(c, p)
    ensures OutOfReach(d, p) && d.econ2 == c.econ2 && d.violations == c.violations
    ensures (c.mii.Idle? ==> d.mii.Idle?)
    ensures forall i :: p <= i < MEM_SIZE && 0 <= i ==> d.mem[i] == c.mem[i]
  {
    hide Ring, KeepsRing, RingConfigured, MiiEvolves, Pointer;
    CalmStays(c, d);
    SameBounds(c, d);
    SameBounds(c, Masked(d, c));
  }

  lemma MemoryNoMatter(c: Chip, d: Chip, p: int)
    requires d == WithMem(c, d.mem)
    ensures OutOfReach(d, p) == OutOfReach(c, p)
  {
    hide Pointer;
  }

  lemma RestoredOutside(m: Mem, x: Mem, lo: int, hi: int)
    requires 0 <= lo <= hi <= MEM_SIZE
    ensures forall i :: 0 <= i < MEM_SIZE && !(lo <= i < hi) ==> Restored(m, x, lo, hi)[i] == m[i]
  {
  }

  lemma FillPasses(c: Chip, d: Chip, m: Chip, p: int, n: int)
    requires Filled(c, d, p, n) && OutOfReach(c, p) && c.mii.Idle? && Evolves(d, m)
    ensures Filled(c, m, p, n) && m.mem[p..p + n] == d.mem[p..p + n] && m.cells == d.cells
    ensures OutOfReach(m, p) && m.econ2 == c.econ2 && Bsel(m) == Bsel(d)
    ensures forall i :: p + n <= i < MEM_SIZE ==> m.mem[i] == c.mem[i]
  {
    hide Evolves, Undisturbed, Restored, RingConfigured;
    var d', m' := WithMem(d, Restored(d.mem, c.mem, p, p + n)), WithMem(m, Restored(m.mem, c.mem, p, p + n));
    UndisturbedOutOfReach(c, d', p);
    MemoryNoMatter(d, d', p);
    EvolvesRestored(d, m, c.mem, p, p + n);
    EvolvesIsUndisturbed(d', m');
    EvolvesIsUndisturbed(d, m);
    UndisturbedTransitive(c, d', m');
    UndisturbedOutOfReach(c, m', p);
    MemoryNoMatter(m, m', p);
    RestoredOutside(m.mem, c.mem, p, p + n);
    forall i | p + n <= i < MEM_SIZE ensures m.mem[i] == c.mem[i] {
      assert m'.mem[i] == m.mem[i];
    }
  }

  lemma PointerSet(cells: Cells, k: int, p: Addr)
    requires 0 <= k < 127
    ensures Pointer(SetPointer(cells, k, p), k) == p
  {
    hide Lo, Hi, Join;
    AddrSplit(p);
    assert SetPointer(cells, k, p)[k] == Lo(p) && SetPointer(cells, k, p)[k + 1] == Hi(p);
  }

  lemma PointerAdvanced(cells: Cells, k: int, p: Addr, n: nat)
    requires 0 <= k < 127 && p == Pointer(cells, k)
    ensures Pointer(Advanced(cells, k, p, n), k) == Around(p, n)
    ensures SetPointer(Advanced(cells, k, p, n), k, Around(p, n + 1)) == Advanced(cells, k, p, n + 1)
  {
    hide Lo, Hi, Pointer, Around;
    if n > 0 {
      PointerSet(cells, k, Around(p, n));
    } else {
      AroundNothing(p);
    }
  }

  lemma AroundNothing(p: Addr)
    ensures Around(p, 0) == p
  {
  }

  lemma RestoredGrows(m: Mem, x: Mem, p: int, n: nat, b: byte)
    requires 0 <= p && p + n < MEM_SIZE && m[p + n] == x[p + n]
    ensures Restored(m[p + n := b], x, p, p + n + 1) == Restored(m, x, p, p + n)
    ensures m[p + n := b][p..p + n + 1] == m[p..p + n] + [b]
  {
  }

  /** One byte written behind the bytes written so far. */
  lemma FillStep(c: Chip, m: Chip, e: Chip, p: Addr, n: nat, b: byte)
    requires Filled(c, m, p, n) && OutOfReach(c, p) && c.mii.Idle? && p + n < MEM_SIZE
    requires OutOfReach(m, p) && m.econ2.autoinc
    requires forall i :: p + n <= i < MEM_SIZE ==> m.mem[i] == c.mem[i]
    requires p == Pointer(c.cells, 2) && m.cells == Advanced(c.cells, 2, p, n)
    requires e == WriteMemory(m, b).(phase := e.phase)
    ensures Filled(c, e, p, n + 1) && e.cells == Advanced(c.cells, 2, p, n + 1)
    ensures e.mem[p..p + n + 1] == m.mem[p..p + n] + [b] && e.econ2 == m.econ2 && Bsel(e) == Bsel(m)
  {
    hide Undisturbed, Advanced, Restored, Pointer, WriteMemory, RingConfigured, Around;
    ByteWritten(c.cells, m, p, n, b);
    AroundWithin(p, n);
    RestoredGrows(m.mem, c.mem, p, n, b);
    DriverStep(c, WithMem(m, Restored(m.mem, c.mem, p, p + n)), WithMem(e, Restored(e.mem, c.mem, p, p + n + 1)));
  }

  lemma AroundWithin(p: Addr, n: nat)
    requires p + n < MEM_SIZE
    ensures Around(p, n) == p + n
  {
  }

  lemma ByteWritten(cells: Cells, m: Chip, p: Addr, n: nat, b: byte)
    requires p == Pointer(cells, 2) && m.cells == Advanced(cells, 2, p, n)
    requires !Transmitting(m) && m.econ2.autoinc
    ensures WriteMemory(m, b) == m.(mem := m.mem[Around(p, n) := b], cells := Advanced(cells, 2, p, n + 1))
    ensures SameRxBounds(m, WriteMemory(m, b))
  {
    hide Pointer, Lo, Hi, Around;
    PointerAdvanced(cells, 2, p, n);
    AroundStep(p, n);
  }

  /** One byte written, wherever it goes: the pointer moves by one. */
  lemma WriteStep(cells: Cells, d: Chip, m: Chip, e: Chip, p: Addr, n: nat, b: byte)
    requires p == Pointer(cells, 2) && d.cells == Advanced(cells, 2, p, n) && Evolves(d, m)
    requires !Transmitting(d) && d.econ2.autoinc && e == WriteMemory(m, b).(phase := e.phase)
    ensures e.cells == Advanced(cells, 2, p, n + 1) && e.econ2.autoinc && !Transmitting(e) && Bsel(e) == Bsel(d)
  {
    hide Evolves, Undisturbed, WriteMemory, Advanced, Pointer, Around;
    EvolvesIsUndisturbed(d, m);
    EvolvesKeepsEcon1(d, m);
    AutoincStays(d, m);
    ByteWritten(cells, m, p, n, b);
  }

  /** While nothing can arrive, time leaves the whole memory alone, whatever is in it. */
  lemma EvolvesWithMem(d: Chip, m: Chip, x: Mem)
    requires Evolves(d, m) && !RxEnabled(d) && !Transmitting(d)
    ensures m.mem == d.mem && Evolves(WithMem(d, x), WithMem(m, x))
  {
    hide Ring;
    var d', m' := WithMem(d, x), WithMem(m, x);
    assert SteadyAndSooner(d', m') && MiiEvolves(d', m') && MemoryKept(d', m');
    SameRing(d', m');
  }

  /** One byte written while nothing can arrive: memory aside, nothing is disturbed. */
  lemma QuietStep(c: Chip, d: Chip, m: Chip, e: Chip, p: Addr, n: nat, b: byte)
    requires Calm(c) && !RxEnabled(c) && Undisturbed(c, WithMem(d, c.mem)) && Evolves(d, m) && d.econ2.autoinc
    requires p == Pointer(c.cells, 2) && d.cells == Advanced(c.cells, 2, p, n)
    requires e == WriteMemory(m, b).(phase := e.phase)
    ensures Undisturbed(c, WithMem(e, c.mem)) && e.mem == d.mem[Around(p, n) := b]
  {
    hide Evolves, Undisturbed, WriteMemory, Advanced, Pointer, Around;
    var d', m', e' := WithMem(d, c.mem), WithMem(m, c.mem), WithMem(e, c.mem);
    QuietStays(c, d');
    EvolvesWithMem(d, m, c.mem);
    EvolvesIsUndisturbed(d, m);
    EvolvesIsUndisturbed(d', m');
    EvolvesKeepsEcon1(d, m);
    AutoincStays(d, m);
    UndisturbedTransitive(c, d', m');
    ByteWritten(c.cells, m, p, n, b);
    DriverStep(c, m', e');
  }

  lemma QuietStays(c: Chip, d: Chip)
    requires Undisturbed(c, d) && Calm(c) && !RxEnabled(c)
    ensures Calm(d) && !RxEnabled(d) && d.mem == c.mem
  {
    hide Ring, KeepsRing;
  }

  lemma LaidNext(m: Mem, p: Addr, buf: seq<byte>, i: nat)
    requires i < |buf|
    ensures Laid(m, p, buf[..i + 1]) == Laid(m, p, buf[..i])[Around(p, i) := buf[i]]
  {
    assert buf[..i + 1][..i] == buf[..i];
  }

  /** The index of enc28j60_write_buf after `k` turns of its loop: sixteen bits, signed, so it wraps. */
  function IndexAfter(k: nat): int16 {
    if k == 0 then 0 else if IndexAfter(k - 1) == 0x7fff then -0x8000 else IndexAfter(k - 1) + 1
  }

  lemma {:induction false} IndexCounts(k: nat)
    requires k < 0x8000
    ensures IndexAfter(k) as int == k
  {
    if k > 0 {
      IndexCounts(k - 1);
    }
  }

  /** The loop of enc28j60_write_buf reaches its end for buffers shorter than 0x8000 bytes, and for no others. */
  lemma LoopEndsIffShort(length: nat)
    ensures (exists k: nat :: IndexAfter(k) as int >= length) <==> length < 0x8000
  {
    if length < 0x8000 {
      IndexCounts(length);
    }
  }

  /** Distances less than once around lead to different places. */
  lemma AroundApart(p: Addr, i: nat, n: nat)
    requires i < n < i + MEM_SIZE
    ensures Around(p, i) != Around(p, n)
  {
  }

  /** Each byte lies where the pointer was, unless a later one came around to the same place. */
  lemma {:induction false} LaidMeaning(m: Mem, p: Addr, bytes: seq<byte>, i: nat)
    requires |bytes| - MEM_SIZE <= i < |bytes|
    ensures Laid(m, p, bytes)[Around(p, i)] == bytes[i]
    decreases |bytes|
  {
    hide Around;
    var n := |bytes| - 1;
    if i < n {
      LaidMeaning(m, p, bytes[..n], i);
      AroundApart(p, i, n);
    }
  }

  /** Every other byte is as it was. */
  lemma {:induction false} LaidElsewhere(m: Mem, p: Addr, bytes: seq<byte>, a: Addr)
    requires forall i: nat :: i < |bytes| ==> Around(p, i) != a
    ensures Laid(m, p, bytes)[a] == m[a]
    decreases |bytes|
  {
    hide Around;
    if bytes != [] {
      LaidElsewhere(m, p, bytes[..|bytes| - 1], a);
    }
  }

  /** The state `d` after the bytes of `buf` were written from `p` on, since the state `c`. */
  ghost predicate WrittenFrom(c: Chip, d: Chip, p: Addr, buf: seq<byte>) {
    && d.cells == Advanced(c.cells, 2, p, |buf|) && d.econ2.autoinc && !Transmitting(d) && Bsel(d) == Bsel(c)
    && (Fits(c, p, |buf|) ==> Filled(c, d, p, |buf|) && d.mem[p..p + |buf|] == buf)
    && (!RxEnabled(c) ==> Undisturbed(c, WithMem(d, c.mem)) && d.mem == Laid(c.mem, p, buf))
  }

  lemma WrittenNext(c: Chip, d: Chip, m: Chip, e: Chip, p: Addr, buf: seq<byte>, i: nat)
    requires i < |buf| && Calm(c) && p == Pointer(c.cells, 2) && WrittenFrom(c, d, p, buf[..i])
    requires Evolves(d, m) && e == WriteMemory(m, buf[i]).(phase := e.phase)
    ensures WrittenFrom(c, e, p, buf[..i + 1])
  {
    hide Evolves, Filled, Advanced, Undisturbed, OutOfReach, Laid, Around, WriteMemory, Pointer;
    WriteStep(c.cells, d, m, e, p, i, buf[i]);
    AutoincStays(d, m);
    if Fits(c, p, i + 1) {
      FillPasses(c, d, m, p, i);
      FillStep(c, m, e, p, i, buf[i]);
    }
    if !RxEnabled(c) {
      QuietStep(c, d, m, e, p, i, buf[i]);
      LaidNext(c.mem, p, buf, i);
    }
  }

  lemma WrittenFits(c: Chip, d: Chip, p: Addr, buf: seq<byte>)
    requires WrittenFrom(c, d, p, buf) && OutOfReach(c, p) && p + |buf| <= MEM_SIZE
    ensures Filled(c, d, p, |buf|) && d.mem[p..p + |buf|] == buf
    ensures d.cells == Advanced(c.cells, 2, p, |buf|) && Bsel(d) == Bsel(c)
  {
    hide Filled, Advanced, Undisturbed, OutOfReach, Laid;
  }

  lemma WrittenEnd(c: Chip, d: Chip, e: Chip, p: Addr, buf: seq<byte>)
    requires WrittenFrom(c, d, p, buf) && e == d.(phase := e.phase) && Calm(c)
    ensures WrittenFrom(c, e, p, buf)
  {
    hide Evolves, Filled, Advanced, Undisturbed, OutOfReach, Laid;
    if Fits(c, p, |buf|) {
      FillEnds(c, d, e, p, |buf|);
    }
    if !RxEnabled(c) {
      DriverStep(c, WithMem(d, c.mem), WithMem(e, c.mem));
    }
  }

  /**
   enc28j60_write_buf. The index is sixteen bits wide, so the loop ends only for buffers shorter than 0x8000. Bytes that
   fit disturb nothing else; while nothing can arrive they may go around the end of the memory.
   */
  method WriteBuf(dev: Enc28j60, buf: seq<byte>)
    requires dev.io.Faithful()
    requires |buf| < 0x8000 && dev.io.chip.phase.Deselected?
    requires Calm(dev.io.chip) && dev.io.chip.econ2.autoinc
    modifies dev.io
    ensures dev.io.Faithful()
    ensures dev.io.chip.phase.Deselected?
    ensures WrittenFrom(old(dev.io.chip), dev.io.chip, Pointer(old(dev.io.chip).cells, 2), buf)
    ensures dev.io.clocked == old(dev.io.clocked) + ([0x7a] + buf)
  {
    hide Bus.Faithful, Evolves, WrittenFrom;
    ghost var c := dev.io.chip;
    ghost var p := Pointer(c.cells, 2);
    dev.io.CsLow();
    ghost var c1 := dev.io.chip;
    var answer;
    ghost var m;
    answer, m := dev.io.SendShortCmd(WRITE_BUFFER + BUFFER_MEMORY_ARG);
    EvolvesTransitive(c, c1, m);
    FillStarts(c, m, dev.io.chip, p);
    var i: int16 := 0;
    while i as int < |buf|
      invariant 0 <= i as int <= |buf| && dev.io.chip.phase.WritingMemory? && dev.io.Faithful()
      invariant WrittenFrom(c, dev.io.chip, p, buf[..i])
      invariant dev.io.clocked == old(dev.io.clocked) + ([0x7a] + buf[..i])
      decreases |buf| - i as int
    {
      ghost var d := dev.io.chip;
      answer, m := dev.io.SendShortCmd(buf[i]);
      WrittenNext(c, d, m, dev.io.chip, p, buf, i as int);
      i := i + 1;
    }
    assert buf[..i] == buf;
    ghost var d := dev.io.chip;
    dev.io.CsHigh();
    WrittenEnd(c, d, dev.io.chip, p, buf);
  }

  lemma FillStarts(c: Chip, m: Chip, d: Chip, p: Addr)
    requires Evolves(c, m) && d == m.(phase := d.phase) && Calm(c) && c.econ2.autoinc
    ensures WrittenFrom(c, d, p, [])
  {
    hide Evolves, Undisturbed;
    EvolvesIsUndisturbed(c, m);
    EvolvesKeepsEcon1(c, m);
    AutoincStays(c, m);
    DriverStep(c, m, d);
    assert Restored(d.mem, c.mem, p, p) == d.mem;
    if !RxEnabled(c) {
      QuietStays(c, d);
      assert WithMem(d, c.mem) == d;
    }
  }

  lemma FillEnds(c: Chip, d: Chip, e: Chip, p: int, n: int)
    requires Filled(c, d, p, n) && e == d.(phase := e.phase) && !Transmitting(c)
    ensures Filled(c, e, p, n)
  {
    hide Undisturbed;
    DriverStep(c, WithMem(d, Restored(d.mem, c.mem, p, p + n)), WithMem(e, Restored(e.mem, c.mem, p, p + n)));
  }

  // ---------- Reading ----------

  /** The read pointer `n` bytes on from `p`: it goes from ERXND to ERXST, and otherwise on through the memory. */
  function Stepped(c: Chip, p: Addr, n: nat): Addr {
    if n == 0 then p else RxSuccessor(c, Stepped(c, p, n - 1))
  }

  lemma SameSuccessor(c: Chip, d: Chip, p: Addr)
    requires SameRxBounds(c, d)
    ensures RxSuccessor(d, p) == RxSuccessor(c, p)
  {
    hide Pointer, Forward;
    PointerOf(c.cells, d.cells, 0x08);
    PointerOf(c.cells, d.cells, 0x0a);
  }

  /** `a` is a byte, header or data, of one of the frames stored one after another from `p` on. */
  ghost predicate InChain(p: int, fs: seq<Frame>, a: int)
    decreases |fs|
  {
    && fs != [] && 0 <= a < SIZE
    && (Offset(RX_START, RX_END, p, a) < HEADER + |fs[0].data| || InChain(After(p, fs[0]), fs[1..], a))
  }

  lemma {:induction false} ChainBytes(m: Mem, m': Mem, p: int, fs: seq<Frame>, a: Addr)
    requires Chain(m, p, fs) && Chain(m', p, fs) && InChain(p, fs, a)
    ensures m'[a] == m[a]
    decreases |fs|
  {
    hide FrameBytes, After;
    var k := Offset(RX_START, RX_END, p, a);
    if k < HEADER + |fs[0].data| {
      assert At(m, p, k) == At(m', p, k) && Wrap(p + k) == a;
    } else {
      ChainBytes(m, m', After(p, fs[0]), fs[1..], a);
    }
  }

  lemma {:induction false} ChainPrefix(m: Mem, p: int, fs: seq<Frame>, more: seq<Frame>)
    requires Chain(m, p, fs + more)
    ensures Chain(m, p, fs)
    decreases |fs|
  {
    hide FrameAt, After;
    if fs != [] {
      assert (fs + more)[1..] == fs[1..] + more;
      ChainPrefix(m, After(p, fs[0]), fs[1..], more);
    }
  }

  lemma ChainHead(m: Mem, p: int, fs: seq<Frame>)
    requires Chain(m, p, fs) && fs != []
    ensures FrameAt(m, p, fs[0])
  {
  }

  /** The byte at `a` belongs to a frame the driver has not taken yet. */
  ghost predicate InUnread(c: Chip, head: int, taken: int, owed: int, a: int) {
    Ring(c, head, taken, owed) && InChain(head, c.log[taken..], a)
  }

  /** A byte the chip leaves alone: nothing can arrive, or it is in the transmit area, or in an unread frame. */
  ghost predicate Steady(c: Chip, a: Addr) {
    || !RxEnabled(c)
    || (RingConfigured(c) && a >= TX_START)
    || exists head, taken, owed :: InUnread(c, head, taken, owed, a)
  }

  lemma UnreadStays(c: Chip, d: Chip, head: int, taken: int, owed: int, a: Addr)
    requires Undisturbed(c, d) && !Transmitting(c) && InUnread(c, head, taken, owed, a)
    ensures d.mem[a] == c.mem[a]
  {
    hide Chain, InChain, RoomOf, Wrap, Before, RingConfigured, MiiEvolves;
    var x := Masked(d, c);
    assert Ring(x, head, taken, owed);
    assert d.log[taken..] == c.log[taken..] + d.log[|c.log|..];
    ChainPrefix(d.mem, head, c.log[taken..], d.log[|c.log|..]);
    ChainBytes(c.mem, d.mem, head, c.log[taken..], a);
  }

  lemma SteadyStays(c: Chip, d: Chip, a: Addr)
    requires Undisturbed(c, d) && Calm(c) && Steady(c, a)
    ensures d.mem[a] == c.mem[a]
  {
    hide Undisturbed, InUnread, RingConfigured;
    if !RxEnabled(c) {
      QuietStays(c, d);
    } else if RingConfigured(c) && a >= TX_START {
      UndisturbedOutOfReach(c, d, a);
    } else {
      var head, taken, owed :| InUnread(c, head, taken, owed, a);
      UnreadStays(c, d, head, taken, owed, a);
    }
  }

  /** The read pointer, once a byte has been read, is at `q`. */
  function PointedAt(cells: Cells, n: nat, q: Addr): Cells {
    if n == 0 then cells else SetPointer(cells, 0, q)
  }

  lemma PointedTwice(cells: Cells, n: nat, q: Addr, r: Addr)
    requires n == 0 ==> Pointer(cells, 0) == q
    ensures Pointer(PointedAt(cells, n, q), 0) == q
    ensures SetPointer(PointedAt(cells, n, q), 0, r) == PointedAt(cells, n + 1, r)
  {
    hide Lo, Hi, Pointer;
    if n > 0 {
      PointerSet(cells, 0, q);
    }
  }

  /** These bytes were read from `p` on, beginning in the state `c`: steady ones are what they were in `c`. */
  ghost predicate ReadFrom(c: Chip, p: Addr, bytes: seq<byte>) {
    forall i :: 0 <= i < |bytes| && Steady(c, Stepped(c, p, i)) ==> bytes[i] == c.mem[Stepped(c, p, i)]
  }

  lemma ReadFromNext(c: Chip, p: Addr, bytes: seq<byte>, b: byte)
    requires ReadFrom(c, p, bytes)
    requires var q := Stepped(c, p, |bytes|); Steady(c, q) ==> b == c.mem[q]
    ensures ReadFrom(c, p, bytes + [b])
  {
    hide Steady, Stepped;
  }

  /** One byte clocked out: the pointer makes one step, and a steady byte is what it was when reading began. */
  lemma ReadStep(c: Chip, d: Chip, m: Chip, p: Addr, k: nat)
    requires Calm(c) && m.econ2.autoinc && p == Pointer(c.cells, 0)
    requires Undisturbed(c, d) && Evolves(d, m) && d.cells == PointedAt(c.cells, k, Stepped(c, p, k))
    ensures var (e, b) := ReadMemory(m);
            && Undisturbed(c, e) && (Steady(c, Stepped(c, p, k)) ==> b == c.mem[Stepped(c, p, k)])
            && e.cells == PointedAt(c.cells, k + 1, Stepped(c, p, k + 1))
            && e.econ2 == m.econ2 && Bsel(e) == Bsel(d)
  {
    hide Undisturbed, Evolves, Steady, Pointer, RxSuccessor, PointedAt;
    var q := Stepped(c, p, k);
    EvolvesIsUndisturbed(d, m);
    UndisturbedTransitive(c, d, m);
    PointedTwice(c.cells, k, q, Stepped(c, p, k + 1));
    PointedBounds(c, m, k, q);
    SameSuccessor(c, m, q);
    var (e, b) := ReadMemory(m);
    PointedBounds(c, e, k + 1, Stepped(c, p, k + 1));
    DriverStep(c, m, e);
    if Steady(c, q) {
      SteadyStays(c, m, q);
    }
  }

  lemma PointedBounds(c: Chip, d: Chip, n: nat, q: Addr)
    requires d.cells == PointedAt(c.cells, n, q)
    ensures SameRxBounds(c, d)
  {
    hide Lo, Hi;
  }

  lemma AutoincStays(c: Chip, d: Chip)
    requires Evolves(c, d)
    ensures d.econ2 == c.econ2
  {
  }

  /**
   enc28j60_read_buf. The pointer makes one ring step a byte, and bytes the chip leaves alone come as they lie, whatever
   arrives in between.
   */
  method ReadBuf(dev: Enc28j60, buf: array<byte>, length: word)
    requires dev.io.Faithful()
    requires length <= buf.Length && dev.io.chip.phase.Deselected?
    requires Calm(dev.io.chip) && dev.io.chip.econ2.autoinc
    modifies dev.io, buf
    ensures dev.io.Faithful()
    ensures dev.io.chip.phase.Deselected? && Undisturbed(old(dev.io.chip), dev.io.chip)
    ensures Bsel(dev.io.chip) == Bsel(old(dev.io.chip))
    ensures var c := old(dev.io.chip);
            var p := Pointer(c.cells, 0);
            && dev.io.chip.cells == PointedAt(c.cells, length, Stepped(c, p, length))
            && ReadFrom(c, p, buf[..length])
    ensures forall i :: length <= i < buf.Length ==> buf[i] == old(buf[i])
    ensures dev.io.clocked == old(dev.io.clocked) + ([0x3a] + seq(length, _ => 0xff))
  {
    hide Bus.Faithful, Evolves, Undisturbed, PointedAt, ReadFrom, Steady, Stepped, Pointer;
    ghost var c := dev.io.chip;
    ghost var p := Pointer(c.cells, 0);
    dev.io.CsLow();
    ghost var c1 := dev.io.chip;
    ghost var m;
    var answer;
    answer, m := dev.io.SendShortCmd(READ_BUFFER + BUFFER_MEMORY_ARG);
    EvolvesTransitive(c, c1, m);
    ReadStarts(c, m, dev.io.chip, p);
    for i := 0 to length
      invariant dev.io.chip.phase.ReadingMemory? && Undisturbed(c, dev.io.chip) && dev.io.Faithful()
      invariant dev.io.chip.cells == PointedAt(c.cells, i, Stepped(c, p, i))
      invariant dev.io.chip.econ2.autoinc && Bsel(dev.io.chip) == Bsel(c)
      invariant ReadFrom(c, p, buf[..i])
      invariant dev.io.clocked == old(dev.io.clocked) + ([0x3a] + seq(i, _ => 0xff))
      invariant forall j :: i <= j < buf.Length ==> buf[j] == old(buf[j])
    {
      ghost var d := dev.io.chip;
      answer, m := dev.io.SendShortCmd(0xff);
      AutoincStays(d, m);
      ReadStep(c, d, m, p, i);
      ReadFromNext(c, p, buf[..i], answer);
      buf[i] := answer;
      assert buf[..i + 1] == buf[..i] + [answer];
    }
    ghost var d := dev.io.chip;
    dev.io.CsHigh();
    DriverStep(c, d, dev.io.chip);
  }

  lemma ReadStarts(c: Chip, m: Chip, d: Chip, p: Addr)
    requires Evolves(c, m) && d == m.(phase := d.phase) && !Transmitting(c)
    ensures Undisturbed(c, d) && d.cells == PointedAt(c.cells, 0, Stepped(c, p, 0)) && d.econ2 == c.econ2
    ensures Bsel(d) == Bsel(c) && ReadFrom(c, p, [])
  {
    EvolvesIsUndisturbed(c, m);
    DriverStep(c, m, d);
  }

  // ---------- What is read ----------

  /** Within the ring `n` steps are ring distance `n`. */
  lemma {:induction false} RingSteps(c: Chip, p: Addr, n: nat)
    requires RingConfigured(c) && p < SIZE && n < SIZE
    ensures Stepped(c, p, n) == Wrap(p + n)
  {
    hide Pointer;
    if n > 0 {
      RingSteps(c, p, n - 1);
    }
  }

  /** Short of ERXND `n` steps are `n` bytes. */
  lemma {:induction false} StraightSteps(c: Chip, p: Addr, n: nat)
    requires p + n < MEM_SIZE && !(p <= Pointer(c.cells, 0x0a) < p + n)
    ensures Stepped(c, p, n) == p + n
  {
    hide Pointer;
    if n > 0 {
      StraightSteps(c, p, n - 1);
    }
  }

  lemma FrameByte(c: Chip, head: int, taken: int, k: nat)
    requires Ring(c, head, taken, 0) && taken < |c.log| && k < HEADER + |c.log[taken].data|
    ensures k < SIZE && 0 <= After(head, c.log[taken]) < SIZE && Steady(c, Wrap(head + k))
    ensures k < |FrameBytes(c.log[taken], After(head, c.log[taken]))|
    ensures c.mem[Wrap(head + k)] == FrameBytes(c.log[taken], After(head, c.log[taken]))[k]
  {
    hide RoomOf, Before, RingConfigured, RxEnabled, Lo, Hi;
    var fs := c.log[taken..];
    assert fs[0] == c.log[taken];
    assert At(c.mem, head, k) == c.mem[Wrap(head + k)];
    assert InUnread(c, head, taken, 0, Wrap(head + k));
  }

  /** What is read from the oldest frame on, or from inside it, is that part of the frame, wherever the ring wraps. */
  lemma ReadsFrame(c: Chip, head: int, taken: int, offset: nat, p: Addr, b: seq<byte>)
    requires Ring(c, head, taken, 0) && taken < |c.log| && ReadFrom(c, p, b) && p == Wrap(head + offset)
    requires offset + |b| <= HEADER + |c.log[taken].data|
    ensures Stepped(c, p, |b|) == Wrap(head + offset + |b|) && 0 <= After(head, c.log[taken]) < SIZE
    ensures var bytes := FrameBytes(c.log[taken], After(head, c.log[taken]));
            offset + |b| <= |bytes| && b == bytes[offset..offset + |b|]
  {
    hide Ring, RingConfigured, FrameBytes, Steady, Stepped, After;
    FrameByte(c, head, taken, 0);
    FrameLength(c, head, taken);
    RingSteps(c, p, |b|);
    forall i | 0 <= i < |b|
      ensures b[i] == FrameBytes(c.log[taken], After(head, c.log[taken]))[offset + i]
    {
      FrameByte(c, head, taken, offset + i);
      RingSteps(c, p, i);
      assert Wrap(p + i) == Wrap(head + (offset + i));
    }
  }

  lemma FrameLength(c: Chip, head: int, taken: int)
    requires Ring(c, head, taken, 0) && taken < |c.log| && 0 <= After(head, c.log[taken]) < SIZE
    ensures RingConfigured(c) && 0 <= taken && HEADER + |c.log[taken].data| < SIZE && 0 <= head < SIZE
    ensures |FrameBytes(c.log[taken], After(head, c.log[taken]))| == HEADER + |c.log[taken].data|
  {
    hide RoomOf, Before, RingConfigured;
    ChainHead(c.mem, head, c.log[taken..]);
  }
}
