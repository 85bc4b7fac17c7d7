/** CMSIS/core_cm3.h: interrupt priorities of the Cortex-M3, with __NVIC_PRIO_BITS = 4. */
module Nvic {
  const PRIO_BITS: bv32 := 4

  /** A priority as the software sees it: the field that decides preemption, and the one that decides among equals. */
  datatype Priority = Priority(preempt: bv32, sub: bv32)

  function PreemptBits(group: bv32): bv32 {
    var g := group & 7;
    if 7 - g > PRIO_BITS then PRIO_BITS else 7 - g
  }

  function SubBits(group: bv32): bv32 {
    var g := group & 7;
    if g + PRIO_BITS < 7 then 0 else g - 7 + PRIO_BITS
  }

  /** The low `bits` bits. */
  function Mask(bits: bv32): bv32
    requires bits < 32
  {
    (1 << bits) - 1
  }

  /** Whatever the group, the two fields share the four implemented bits. */
  lemma WidthsSum(group: bv32)
    ensures PreemptBits(group) <= PRIO_BITS && SubBits(group) <= PRIO_BITS
    ensures PreemptBits(group) + SubBits(group) == PRIO_BITS
  {
    GroupCases(group);
  }

  lemma GroupCases(group: bv32)
    ensures (group & 7) in {0, 1, 2, 3, 4, 5, 6, 7}
    ensures (PreemptBits(group), SubBits(group)) in {(4, 0), (3, 1), (2, 2), (1, 3), (0, 4)}
  {
    var g := group & 7;
    assert g <= 7;
    assert g == 0 || g == 1 || g == 2 || g == 3 || g == 4 || g == 5 || g == 6 || g == 7;
  }

  /** NVIC_EncodePriority. */
  function Encode(group: bv32, p: Priority): bv32 {
    WidthsSum(group);
    ((p.preempt & Mask(PreemptBits(group))) << SubBits(group)) | (p.sub & Mask(SubBits(group)))
  }

  /** NVIC_DecodePriority. */
  function Decode(group: bv32, code: bv32): Priority {
    WidthsSum(group);
    Priority((code >> SubBits(group)) & Mask(PreemptBits(group)), code & Mask(SubBits(group)))
  }

  /** `p` cut to the fields' widths. */
  function Cut(group: bv32, p: Priority): Priority {
    WidthsSum(group);
    Priority(p.preempt & Mask(PreemptBits(group)), p.sub & Mask(SubBits(group)))
  }

  /** Decoding an encoded priority gives it back, cut to the widths; the code fits the implemented bits. */
  lemma DecodeEncode(group: bv32, p: Priority)
    ensures Decode(group, Encode(group, p)) == Cut(group, p) && Encode(group, p) < 16
  {
    GroupCases(group);
  }

  /** Encoding a decoded priority gives its implemented bits back. */
  lemma EncodeDecode(group: bv32, code: bv32)
    ensures Encode(group, Decode(group, code)) == code & 0xf
  {
    GroupCases(group);
  }

  /**
   In the stored byte, of which the upper half is implemented, group `g` has the preemption field above bit `g` and the
   subpriority below it: the fields of the code are those of the byte.
   */
  lemma FieldsOfByte(group: bv32, p: Priority)
    ensures var stored, split := Encode(group, p) << 4, (group & 7) + 1;
            && stored >> (if split < 4 then 4 else split)
               == p.preempt & ((1 << (8 - (if split < 4 then 4 else split))) - 1)
            && (stored & ((1 << split) - 1)) >> 4 == p.sub & ((1 << (if split < 4 then 0 else split - 4)) - 1)
  {
    GroupCases(group);
  }

  /** `p` is more urgent than `q`: first by preemption, then by subpriority; smaller is more urgent. */
  predicate Before(p: Priority, q: Priority) {
    p.preempt < q.preempt || (p.preempt == q.preempt && p.sub < q.sub)
  }

  /** Codes are ordered as the priorities that fit are, and different priorities have different codes. */
  lemma OrderKept(group: bv32, p: Priority, q: Priority)
    requires Cut(group, p) == p && Cut(group, q) == q
    ensures Before(p, q) <==> Encode(group, p) < Encode(group, q)
    ensures p == q <==> Encode(group, p) == Encode(group, q)
  {
    GroupCases(group);
    DecodeEncode(group, p);
    DecodeEncode(group, q);
  }

  /** Interrupts whose priority can be set: core interrupts from -12 on, and 240 external ones. */
  type Irq = n: int | -12 <= n < 240

  /** The priority registers: IP of the NVIC and SHP of the system control block. */
  class Registers {
    const ip: array<bv8>
    const shp: array<bv8>

    ghost predicate Valid() {
      ip.Length == 240 && shp.Length == 12 && ip != shp
    }

    constructor ()
      ensures Valid() && fresh(ip) && fresh(shp)
    {
      ip, shp := new bv8[240], new bv8[12];
    }

    /** The stored byte of an interrupt. */
    function Stored(irq: Irq): bv8
      requires Valid()
      reads ip, shp
    {
      if irq < 0 then shp[irq % 16 - 4] else ip[irq]
    }

    /** NVIC_SetPriority: the four implemented bits are stored, and no other interrupt's priority changes. */
    method SetPriority(irq: Irq, priority: bv32)
      requires Valid()
      modifies ip, shp
      ensures Stored(irq) == ((priority & 0xf) << 4) as bv8
      ensures forall other: Irq :: other != irq ==> Stored(other) == old(Stored(other))
      ensures if irq < 0 then shp[..] == old(shp[..])[irq + 12 := ((priority & 0xf) << 4) as bv8]
              else ip[..] == old(ip[..])[irq := ((priority & 0xf) << 4) as bv8]
      ensures if irq < 0 then ip[..] == old(ip[..]) else shp[..] == old(shp[..])
    {
      var code := ((priority << (8 - PRIO_BITS)) & 0xff) as bv8;
      if irq < 0 {
        shp[irq % 16 - 4] := code;
      } else {
        ip[irq] := code;
      }
    }

    /** NVIC_GetPriority: the upper half of the stored byte. */
    method GetPriority(irq: Irq) returns (priority: bv32)
      requires Valid()
      ensures priority < 16 && (priority << 4) as bv8 | (Stored(irq) & 0xf) == Stored(irq)
      ensures priority == (if irq < 0 then shp[irq + 12] else ip[irq]) as bv32 >> 4
    {
      if irq < 0 {
        priority := (shp[irq % 16 - 4] as bv32) >> (8 - PRIO_BITS);
      } else {
        priority := (ip[irq] as bv32) >> (8 - PRIO_BITS);
      }
    }
  }

  /** Two interrupts' priorities set one after the other and fetched again: each is its own, cut to four bits. */
  method SetThenGet(r: Registers, irq: Irq, p: bv32, other: Irq, q: bv32) returns (first: bv32, second: bv32)
    requires r.Valid() && irq != other
    modifies r.ip, r.shp
    ensures first == p & 0xf && second == q & 0xf
  {
    r.SetPriority(irq, p);
    r.SetPriority(other, q);
    first := r.GetPriority(irq);
    second := r.GetPriority(other);
  }

  /** A priority encoded, stored, fetched and decoded is the one it was, cut to the widths. */
  method StoreAndFetch(r: Registers, group: bv32, irq: Irq, p: Priority, other: Irq, q: bv32)
    returns (fetched: Priority)
    requires r.Valid() && irq != other
    modifies r.ip, r.shp
    ensures fetched == Cut(group, p)
  {
    var code, unused := SetThenGet(r, irq, Encode(group, p), other, q);
    CodeFits(group, p);
    fetched := Decode(group, code);
  }

  lemma CodeFits(group: bv32, p: Priority)
    ensures Decode(group, Encode(group, p) & 0xf) == Cut(group, p)
  {
    DecodeEncode(group, p);
    assert Encode(group, p) & 0xf == Encode(group, p);
    hide Encode, Decode, Cut;
  }
}
