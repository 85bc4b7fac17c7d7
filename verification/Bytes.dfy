/** Eight- and sixteen-bit values as integers, with the bit operations the driver performs on them. */
module Bytes {
  type byte = x: int | 0 <= x < 0x100
  type word = x: int | 0 <= x < 0x10000

  function Lo(w: word): byte {
    w % 0x100
  }

  function Hi(w: word): byte {
    w / 0x100
  }

  function Join(lo: byte, hi: byte): word {
    lo + 0x100 * hi
  }

  lemma JoinSplit(w: word)
    ensures Join(Lo(w), Hi(w)) == w
  {
  }

  lemma LowByte(b: byte)
    ensures Lo(b) == b
  {
  }

  /** The bit of `b` whose weight is `weight` (1, 2, 4, ...). */
  predicate Bit(b: int, weight: int)
    requires weight > 0
  {
    (b / weight) % 2 == 1
  }

  /** `b` with the bit of weight `weight` set. */
  function SetBit(b: int, weight: int): int
    requires weight > 0
  {
    if Bit(b, weight) then b else b + weight
  }

  /** `b` with the bit of weight `weight` cleared. */
  function ClearBit(b: int, weight: int): int
    requires weight > 0
  {
    if Bit(b, weight) then b - weight else b
  }

  function Num(b: bool): int {
    if b then 1 else 0
  }

  function Twice(b: bool, n: int): int {
    Num(b) + 2 * n
  }

  /** A byte from its eight bits, the lowest first. */
  function Pack(b0: bool, b1: bool, b2: bool, b3: bool, b4: bool, b5: bool, b6: bool, b7: bool): byte {
    Twice(b0, Twice(b1, Twice(b2, Twice(b3, Twice(b4, Twice(b5, Twice(b6, Num(b7))))))))
  }

  /** `a | b`. */
  function Or(a: byte, b: byte): byte {
    Pack(Bit(a, 1) || Bit(b, 1), Bit(a, 2) || Bit(b, 2), Bit(a, 4) || Bit(b, 4), Bit(a, 8) || Bit(b, 8),
         Bit(a, 16) || Bit(b, 16), Bit(a, 32) || Bit(b, 32), Bit(a, 64) || Bit(b, 64), Bit(a, 128) || Bit(b, 128))
  }

  /** `a & ~b`. */
  function AndNot(a: byte, b: byte): byte {
    Pack(Bit(a, 1) && !Bit(b, 1), Bit(a, 2) && !Bit(b, 2), Bit(a, 4) && !Bit(b, 4), Bit(a, 8) && !Bit(b, 8),
         Bit(a, 16) && !Bit(b, 16), Bit(a, 32) && !Bit(b, 32), Bit(a, 64) && !Bit(b, 64), Bit(a, 128) && !Bit(b, 128))
  }

  lemma SetBit1(b: byte)
    ensures SetBit(b, 1) == 2 * (b / 2) + 1 < 0x100
  {
  }

  lemma SetBit2(b: byte)
    ensures SetBit(b, 2) == 4 * (b / 4) + 2 + b % 2 < 0x100
  {
  }

  lemma SetBit4(b: byte)
    ensures SetBit(b, 4) == 8 * (b / 8) + 4 + b % 4 < 0x100
  {
  }

  lemma SetBit8(b: byte)
    ensures SetBit(b, 8) == 16 * (b / 16) + 8 + b % 8 < 0x100
  {
  }

  lemma SetBit16(b: byte)
    ensures SetBit(b, 16) == 32 * (b / 32) + 16 + b % 16 < 0x100
  {
  }

  lemma SetBit32(b: byte)
    ensures SetBit(b, 32) == 64 * (b / 64) + 32 + b % 32 < 0x100
  {
  }

  lemma ConcatAssociates<T>(a: seq<T>, b: seq<T>, c: seq<T>)
    ensures (a + b) + c == a + (b + c)
  {
  }

  // ---------- Bits ----------

  lemma Quotients(v: byte)
    ensures v / 4 == v / 2 / 2 && v / 8 == v / 4 / 2 && v / 16 == v / 8 / 2
    ensures v / 32 == v / 16 / 2 && v / 64 == v / 32 / 2 && v / 128 == v / 64 / 2
  {
  }

  lemma Half(v: int, b: bool, n: int)
    requires v == Twice(b, n)
    ensures v / 2 == n && (v % 2 == 1) == b
  {
  }

  lemma Doubled(v: int)
    requires 0 <= v
    ensures v == Twice(v % 2 == 1, v / 2) && (v < 2 ==> v == Num(v % 2 == 1))
  {
  }

  lemma PackedBits(b0: bool, b1: bool, b2: bool, b3: bool, b4: bool, b5: bool, b6: bool, b7: bool)
    ensures var v := Pack(b0, b1, b2, b3, b4, b5, b6, b7);
            && Bit(v, 1) == b0 && Bit(v, 2) == b1 && Bit(v, 4) == b2 && Bit(v, 8) == b3
            && Bit(v, 16) == b4 && Bit(v, 32) == b5 && Bit(v, 64) == b6 && Bit(v, 128) == b7
  {
    var n7 := Num(b7);
    var n6 := Twice(b6, n7);
    var n5 := Twice(b5, n6);
    var n4 := Twice(b4, n5);
    var n3 := Twice(b3, n4);
    var n2 := Twice(b2, n3);
    var n1 := Twice(b1, n2);
    var v := Pack(b0, b1, b2, b3, b4, b5, b6, b7);
    assert n7 == Twice(b7, 0);
    Half(v, b0, n1);
    Half(n1, b1, n2);
    Half(n2, b2, n3);
    Half(n3, b3, n4);
    Half(n4, b4, n5);
    Half(n5, b5, n6);
    Half(n6, b6, n7);
    Half(n7, b7, 0);
    hide Twice, Num, Pack;
    Quotients(v);
  }

  lemma PackedHalves(a: int, q1: int, q2: int, q3: int, q4: int, q5: int, q6: int, q7: int)
    requires a >= 0 && q1 == a / 2 && q2 == q1 / 2 && q3 == q2 / 2 && q4 == q3 / 2
    requires q5 == q4 / 2 && q6 == q5 / 2 && q7 == q6 / 2 && q7 < 2
    ensures a == Twice(a % 2 == 1, Twice(q1 % 2 == 1, Twice(q2 % 2 == 1, Twice(q3 % 2 == 1, Twice(q4 % 2 == 1,
                 Twice(q5 % 2 == 1, Twice(q6 % 2 == 1, Num(q7 % 2 == 1))))))))
  {
    hide Twice, Num;
    Doubled(a);
    Doubled(q1);
    Doubled(q2);
    Doubled(q3);
    Doubled(q4);
    Doubled(q5);
    Doubled(q6);
    Doubled(q7);
  }

  lemma Unpacked(a: byte)
    ensures a == Pack(Bit(a, 1), Bit(a, 2), Bit(a, 4), Bit(a, 8), Bit(a, 16), Bit(a, 32), Bit(a, 64), Bit(a, 128))
  {
    hide Twice, Num;
    Quotients(a);
    PackedHalves(a, a / 2, a / 4, a / 8, a / 16, a / 32, a / 64, a / 128);
  }

  /** The bits of `r` are those of either operand. */
  predicate EitherBits(r: byte, a: byte, b: byte) {
    && Bit(r, 1) == (Bit(a, 1) || Bit(b, 1)) && Bit(r, 2) == (Bit(a, 2) || Bit(b, 2))
    && Bit(r, 4) == (Bit(a, 4) || Bit(b, 4)) && Bit(r, 8) == (Bit(a, 8) || Bit(b, 8))
    && Bit(r, 16) == (Bit(a, 16) || Bit(b, 16)) && Bit(r, 32) == (Bit(a, 32) || Bit(b, 32))
    && Bit(r, 64) == (Bit(a, 64) || Bit(b, 64)) && Bit(r, 128) == (Bit(a, 128) || Bit(b, 128))
  }

  /** The bits of `r` are those of the first operand that the second does not have. */
  predicate OtherBits(r: byte, a: byte, b: byte) {
    && Bit(r, 1) == (Bit(a, 1) && !Bit(b, 1)) && Bit(r, 2) == (Bit(a, 2) && !Bit(b, 2))
    && Bit(r, 4) == (Bit(a, 4) && !Bit(b, 4)) && Bit(r, 8) == (Bit(a, 8) && !Bit(b, 8))
    && Bit(r, 16) == (Bit(a, 16) && !Bit(b, 16)) && Bit(r, 32) == (Bit(a, 32) && !Bit(b, 32))
    && Bit(r, 64) == (Bit(a, 64) && !Bit(b, 64)) && Bit(r, 128) == (Bit(a, 128) && !Bit(b, 128))
  }

  predicate SameBits(a: byte, b: byte) {
    && Bit(a, 1) == Bit(b, 1) && Bit(a, 2) == Bit(b, 2)
    && Bit(a, 4) == Bit(b, 4) && Bit(a, 8) == Bit(b, 8)
    && Bit(a, 16) == Bit(b, 16) && Bit(a, 32) == Bit(b, 32)
    && Bit(a, 64) == Bit(b, 64) && Bit(a, 128) == Bit(b, 128)
  }

  lemma OrBits(a: byte, b: byte)
    ensures EitherBits(Or(a, b), a, b)
  {
    hide Bit, Pack;
    PackedBits(Bit(a, 1) || Bit(b, 1), Bit(a, 2) || Bit(b, 2), Bit(a, 4) || Bit(b, 4), Bit(a, 8) || Bit(b, 8),
               Bit(a, 16) || Bit(b, 16), Bit(a, 32) || Bit(b, 32), Bit(a, 64) || Bit(b, 64),
               Bit(a, 128) || Bit(b, 128));
  }

  lemma AndNotBits(a: byte, b: byte)
    ensures OtherBits(AndNot(a, b), a, b)
  {
    hide Bit, Pack;
    PackedBits(Bit(a, 1) && !Bit(b, 1), Bit(a, 2) && !Bit(b, 2), Bit(a, 4) && !Bit(b, 4), Bit(a, 8) && !Bit(b, 8),
               Bit(a, 16) && !Bit(b, 16), Bit(a, 32) && !Bit(b, 32), Bit(a, 64) && !Bit(b, 64),
               Bit(a, 128) && !Bit(b, 128));
  }

  lemma SameBitsSame(a: byte, b: byte)
    requires SameBits(a, b)
    ensures a == b
  {
    hide Bit, Pack;
    Unpacked(a);
    Unpacked(b);
  }

  /** Clearing bits after setting them leaves what was outside the mask, and the other way round. */
  lemma ClearAfterSet(a: byte, mask: byte)
    ensures AndNot(Or(a, mask), mask) == AndNot(a, mask) && Or(AndNot(a, mask), mask) == Or(a, mask)
  {
    hide Or, AndNot, Bit;
    OrBits(a, mask);
    AndNotBits(a, mask);
    AndNotBits(Or(a, mask), mask);
    OrBits(AndNot(a, mask), mask);
    SameBitsSame(AndNot(Or(a, mask), mask), AndNot(a, mask));
    SameBitsSame(Or(AndNot(a, mask), mask), Or(a, mask));
  }

  lemma ThirdBit(b0: bool, b1: bool, b3: bool, b4: bool, b5: bool, b6: bool, b7: bool)
    ensures Pack(b0, b1, true, b3, b4, b5, b6, b7) == Pack(b0, b1, false, b3, b4, b5, b6, b7) + 4
  {
  }

  lemma FourthBit(b0: bool, b1: bool, b2: bool, b4: bool, b5: bool, b6: bool, b7: bool)
    ensures Pack(b0, b1, b2, true, b4, b5, b6, b7) == Pack(b0, b1, b2, false, b4, b5, b6, b7) + 8
  {
  }

  lemma SeventhBit(b0: bool, b1: bool, b2: bool, b3: bool, b4: bool, b5: bool, b7: bool)
    ensures Pack(b0, b1, b2, b3, b4, b5, true, b7) == Pack(b0, b1, b2, b3, b4, b5, false, b7) + 64
  {
  }

  lemma EighthBit(b0: bool, b1: bool, b2: bool, b3: bool, b4: bool, b5: bool, b6: bool)
    ensures Pack(b0, b1, b2, b3, b4, b5, b6, true) == Pack(b0, b1, b2, b3, b4, b5, b6, false) + 128
  {
  }

  lemma SingleBits()
    ensures !Bit(4, 1) && !Bit(4, 2) && Bit(4, 4) && !Bit(4, 8) && !Bit(4, 16) && !Bit(4, 32) && !Bit(4, 64)
    ensures !Bit(8, 1) && !Bit(8, 2) && !Bit(8, 4) && Bit(8, 8) && !Bit(8, 16) && !Bit(8, 32) && !Bit(8, 64)
    ensures !Bit(64, 1) && !Bit(64, 2) && !Bit(64, 4) && !Bit(64, 8) && !Bit(64, 16) && !Bit(64, 32) && Bit(64, 64)
    ensures !Bit(128, 1) && !Bit(128, 2) && !Bit(128, 4) && !Bit(128, 8) && !Bit(128, 16) && !Bit(128, 32)
    ensures !Bit(128, 64) && !Bit(4, 128) && !Bit(8, 128) && !Bit(64, 128) && Bit(128, 128)
  {
  }

  /** `|` with a single bit sets that bit. */
  lemma OrSets(a: byte)
    ensures Or(a, 4) == SetBit(a, 4) && Or(a, 8) == SetBit(a, 8) && Or(a, 64) == SetBit(a, 64)
    ensures Or(a, 128) == SetBit(a, 128)
  {
    hide Bit, Pack;
    SingleBits();
    Unpacked(a);
    ThirdBit(Bit(a, 1), Bit(a, 2), Bit(a, 8), Bit(a, 16), Bit(a, 32), Bit(a, 64), Bit(a, 128));
    FourthBit(Bit(a, 1), Bit(a, 2), Bit(a, 4), Bit(a, 16), Bit(a, 32), Bit(a, 64), Bit(a, 128));
    SeventhBit(Bit(a, 1), Bit(a, 2), Bit(a, 4), Bit(a, 8), Bit(a, 16), Bit(a, 32), Bit(a, 128));
    EighthBit(Bit(a, 1), Bit(a, 2), Bit(a, 4), Bit(a, 8), Bit(a, 16), Bit(a, 32), Bit(a, 64));
  }
}
