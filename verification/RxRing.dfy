/**
 The receive ring as a queue. `Ring(c, head, taken, owed)` says that the frames the
 driver has not taken yet lie one after another from `head` to ERXWRPT, and that the
 chip cannot reach them. Everything the chip does on its own preserves it.
 */
module RxRing {
  import opened Bytes
  import opened RegisterMap
  import opened ChipModel

  const SIZE := RX_END + 1

  function Wrap(p: int): int {
    if p >= SIZE then p - SIZE else p
  }

  /** The last byte before `p`, cyclically: what ERXRDPT holds while `p` is the next frame. */
  function Before(p: int): int {
    if p == RX_START then RX_END else p - 1
  }

  /** The byte at ring distance `k` from `p`. */
  function At(m: Mem, p: int, k: int): byte
    requires 0 <= p < SIZE && 0 <= k < SIZE
  {
    m[Wrap(p + k)]
  }

  function RoomOf(fs: seq<Frame>): nat {
    if fs == [] then 0 else Room(fs[0]) + RoomOf(fs[1..])
  }

  function After(p: int, f: Frame): int {
    Wrap(p + Room(f))
  }

  /** The frame `f`, header and data, is stored at ring position `p`, and its header points behind it. */
  ghost predicate FrameAt(m: Mem, p: int, f: Frame) {
    && 0 <= p < SIZE && Room(f) < SIZE
    && forall k :: 0 <= k < HEADER + |f.data| ==> At(m, p, k) == FrameBytes(f, After(p, f))[k]
  }

  ghost predicate Chain(m: Mem, p: int, fs: seq<Frame>)
    decreases |fs|
  {
    fs != [] ==> FrameAt(m, p, fs[0]) && Chain(m, After(p, fs[0]), fs[1..])
  }

  predicate RingConfigured(c: Chip) {
    Pointer(c.cells, 0x08) == RX_START && Pointer(c.cells, 0x0a) == RX_END
  }

  /**
   The frames `c.log[taken..]` are stored from `head` on. `owed` is 1 while the driver has released a frame
   but not yet decremented the packet counter, and 0 otherwise.
   */
  ghost predicate Ring(c: Chip, head: int, taken: int, owed: int) {
    && RingConfigured(c)
    && 0 <= head < SIZE && head % 2 == 0
    && 0 <= taken <= |c.log|
    && c.packets == |c.log| - taken + owed
    && c.rxGuard == Before(head)
    && RoomOf(c.log[taken..]) < SIZE
    && c.rxWrite == Wrap(head + RoomOf(c.log[taken..]))
    && Chain(c.mem, head, c.log[taken..])
  }

  // ---------- Chains ----------

  lemma {:induction false} RoomIsEven(fs: seq<Frame>)
    ensures RoomOf(fs) % 2 == 0
  {
    if fs != [] {
      RoomIsEven(fs[1..]);
    }
  }

  lemma {:induction false} RoomAppend(fs: seq<Frame>, f: Frame)
    ensures RoomOf(fs + [f]) == RoomOf(fs) + Room(f)
  {
    if fs == [] {
    } else {
      assert (fs + [f])[1..] == fs[1..] + [f];
      RoomAppend(fs[1..], f);
    }
  }

  /** A chain depends on its own bytes only. */
  lemma {:induction false} ChainStable(m: Mem, m': Mem, p: int, fs: seq<Frame>)
    requires 0 <= p < SIZE && RoomOf(fs) < SIZE && Chain(m, p, fs)
    requires forall k :: 0 <= k < RoomOf(fs) ==> At(m', p, k) == At(m, p, k)
    ensures Chain(m', p, fs)
    decreases |fs|
  {
    if fs != [] {
      var f := fs[0];
      forall k | 0 <= k < RoomOf(fs[1..])
        ensures At(m', After(p, f), k) == At(m, After(p, f), k)
      {
        assert At(m', p, Room(f) + k) == At(m, p, Room(f) + k);
      }
      forall k | 0 <= k < HEADER + |f.data|
        ensures At(m', p, k) == FrameBytes(f, After(p, f))[k]
      {
        assert At(m', p, k) == At(m, p, k);
      }
      ChainStable(m, m', After(p, f), fs[1..]);
    }
  }

  lemma {:induction false} ChainAppend(m: Mem, p: int, fs: seq<Frame>, f: Frame, w: int)
    requires 0 <= p < SIZE && RoomOf(fs) + Room(f) < SIZE && w == Wrap(p + RoomOf(fs))
    requires Chain(m, p, fs) && FrameAt(m, w, f)
    ensures Chain(m, p, fs + [f])
    decreases |fs|
  {
    if fs == [] {
      assert fs + [f] == [f];
    } else {
      assert (fs + [f])[1..] == fs[1..] + [f];
      ChainAppend(m, After(p, fs[0]), fs[1..], f, w);
    }
  }

  // ---------- The chip receiving ----------

  /** Bytes put at ring distance `u` from `p` leave the `u` bytes from `p` on as they were. */
  lemma RingPutKeeps(m: Mem, p: int, u: int, bytes: seq<byte>, k: int)
    requires 0 <= p < SIZE && 0 <= u && u + |bytes| < SIZE && 0 <= k < u
    ensures At(RingPut(m, 0, RX_END, Wrap(p + u), bytes), p, k) == At(m, p, k)
  {
  }

  lemma RingPutFrame(m: Mem, p: int, f: Frame)
    requires 0 <= p < SIZE && Room(f) < SIZE
    ensures FrameAt(RingPut(m, 0, RX_END, p, FrameBytes(f, After(p, f))), p, f)
  {
    var bytes := FrameBytes(f, After(p, f));
    forall k | 0 <= k < HEADER + |f.data|
      ensures At(RingPut(m, 0, RX_END, p, bytes), p, k) == bytes[k]
    {
      assert Offset(0, RX_END, p, Wrap(p + k)) == k;
    }
  }

  lemma PutKeepsChain(m: Mem, p: int, fs: seq<Frame>, bytes: seq<byte>, m': Mem, w: int)
    requires 0 <= p < SIZE && RoomOf(fs) + |bytes| < SIZE && Chain(m, p, fs)
    requires w == Wrap(p + RoomOf(fs)) && m' == RingPut(m, 0, RX_END, w, bytes)
    ensures Chain(m', p, fs)
  {
    forall k | 0 <= k < RoomOf(fs) ensures At(m', p, k) == At(m, p, k) {
      RingPutKeeps(m, p, RoomOf(fs), bytes, k);
    }
    ChainStable(m, m', p, fs);
  }

  lemma PutExtendsChain(m: Mem, p: int, fs: seq<Frame>, f: Frame, m': Mem, w: int)
    requires 0 <= p < SIZE && RoomOf(fs) + Room(f) < SIZE && Chain(m, p, fs)
    requires w == Wrap(p + RoomOf(fs)) && m' == RingPut(m, 0, RX_END, w, FrameBytes(f, After(w, f)))
    ensures Chain(m', p, fs + [f])
  {
    assert FrameAt(m', w, f) by {
      RingPutFrame(m, w, f);
    }
    assert Chain(m', p, fs) by {
      PutKeepsChain(m, p, fs, FrameBytes(f, After(w, f)), m', w);
    }
    ChainAppend(m', p, fs, f, w);
  }

  /** The free space the chip computes never includes a byte of an unread frame. */
  lemma FreeSpace(head: int, used: int)
    requires 0 <= head < SIZE && 0 <= used < SIZE && head % 2 == 0 && used % 2 == 0
    ensures Offset(0, RX_END, Wrap(head + used), Before(head)) == SIZE - 1 - used
  {
  }

  lemma BeforeIsOdd(p: int)
    requires 0 <= p < SIZE && p % 2 == 0
    ensures Before(p) % 2 == 1 && RX_START <= Before(p) <= RX_END
  {
  }

  /** ERXRDPT is odd whenever the ring is in order, as the hardware demands. */
  lemma GuardIsOdd(c: Chip, head: int, taken: int, owed: int)
    requires Ring(c, head, taken, owed)
    ensures c.rxGuard % 2 == 1 && RX_START <= c.rxGuard <= RX_END
  {
    hide Chain, RoomOf, Wrap, Before, RingConfigured;
    BeforeIsOdd(head);
  }

  /** The space the chip computes when the ring is in order. */
  lemma SpaceLeft(c: Chip, head: int, taken: int, owed: int)
    requires Ring(c, head, taken, owed)
    ensures Offset(0, RX_END, c.rxWrite, c.rxGuard) == SIZE - 1 - RoomOf(c.log[taken..])
  {
    hide Chain, RingConfigured, RoomOf;
    RoomIsEven(c.log[taken..]);
    FreeSpace(head, RoomOf(c.log[taken..]));
  }

  lemma RingEnds(c: Chip, head: int, taken: int, owed: int)
    requires Ring(c, head, taken, owed)
    ensures RingConfigured(c) && c.rxWrite < SIZE && RX_START <= c.rxGuard <= RX_END
  {
    hide Chain, RingConfigured, RoomOf;
  }

  lemma WrapTwice(p: int, u: int, v: int)
    requires 0 <= p < SIZE && 0 <= u && 0 <= v && u + v < SIZE
    ensures Wrap(Wrap(p + u) + v) == Wrap(p + (u + v))
  {
  }

  lemma FragmentStored(c: Chip, bytes: seq<byte>)
    requires RingConfigured(c) && c.rxWrite < SIZE && RX_START <= c.rxGuard <= RX_END
    ensures Receive(c, Fragment(bytes)) ==
              if |bytes| <= Offset(0, RX_END, c.rxWrite, c.rxGuard) then
                c.(mem := RingPut(c.mem, 0, RX_END, c.rxWrite, bytes))
              else c
  {
    hide RingPut, Pointer;
  }

  /** What the chip does with a complete frame when the ring is in order. */
  lemma CompleteStored(c: Chip, f: Frame)
    requires RingConfigured(c) && c.rxWrite < SIZE && RX_START <= c.rxGuard <= RX_END
    ensures var w := After(c.rxWrite, f);
            Receive(c, Complete(f)) ==
              if Room(f) <= Offset(0, RX_END, c.rxWrite, c.rxGuard) && c.packets < 255 then
                c.(mem := RingPut(c.mem, 0, RX_END, c.rxWrite, FrameBytes(f, w)), rxWrite := w,
                   packets := c.packets + 1, log := c.log + [f])
              else c
  {
    hide RingPut, FrameBytes, Room, Pointer;
  }

  lemma SameCells(c: Chip, d: Chip)
    ensures d.cells == c.cells ==> RingConfigured(d) == RingConfigured(c)
  {
  }

  /** An arriving frame, complete or not, never touches an unread one, and joins the end of the queue. */
  lemma ReceiveKeepsRing(c: Chip, a: Arrival, head: int, taken: int, owed: int)
    requires Ring(c, head, taken, owed)
    ensures Ring(Receive(c, a), head, taken, owed)
  {
    hide Chain, RingPut, Receive, FrameBytes, Room, RoomOf, RingConfigured, Pointer, Wrap, Before;
    var fs, d := c.log[taken..], Receive(c, a);
    SpaceLeft(c, head, taken, owed);
    RingEnds(c, head, taken, owed);
    SameCells(c, d);
    match a
    case Fragment(bytes) =>
      FragmentStored(c, bytes);
      if d != c {
        PutKeepsChain(c.mem, head, fs, bytes, d.mem, c.rxWrite);
      }
    case Complete(f) =>
      CompleteStored(c, f);
      if d != c {
        PutExtendsChain(c.mem, head, fs, f, d.mem, c.rxWrite);
        RoomAppend(fs, f);
        assert d.log[taken..] == fs + [f];
        WrapTwice(head, RoomOf(fs), Room(f));
      }
  }
}
