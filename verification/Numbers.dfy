/** User/lwip/src/core/def.c: lwip_itoa. */
module Numbers {
  import opened Bytes
  import opened Options
  import opened Strings

  const ZERO := 0x30
  const MINUS := 0x2d

  /** The decimal digits of `n`, none for 0. */
  function Digits(n: nat): seq<byte> {
    if n == 0 then [] else Digits(n / 10) + [ZERO + n % 10]
  }

  /** The decimal text of a number. */
  function Decimal(number: int): seq<byte> {
    if number == 0 then [ZERO] else if number < 0 then [MINUS] + Digits(-number) else Digits(number)
  }

  // ---------- Reading a number back ----------

  function ParseDigits(t: seq<byte>): (r: Option<int>)
    ensures r.Some? ==> r.value >= 0
  {
    if t == [] then Some(0)
    else
      var c := t[|t| - 1];
      match ParseDigits(t[..|t| - 1])
      case None => None
      case Some(n) => if ZERO <= c < ZERO + 10 then Some(10 * n + c - ZERO) else None
  }

  /** The number a text denotes: at least one digit, after an optional minus sign. */
  function Parse(t: seq<byte>): Option<int> {
    if t == [] || t == [MINUS] then None
    else if t[0] == MINUS then
      match ParseDigits(t[1..])
      case None => None
      case Some(n) => Some(-n)
    else
      ParseDigits(t)
  }

  lemma {:induction false} ParseDigitsBack(n: nat)
    ensures ParseDigits(Digits(n)) == Some(n)
    ensures n > 0 ==> Digits(n) != [] && Digits(n)[0] > ZERO
    ensures forall c :: c in Digits(n) ==> ZERO <= c < ZERO + 10
  {
    if n > 0 {
      ParseDigitsBack(n / 10);
      assert Digits(n)[..|Digits(n)| - 1] == Digits(n / 10);
    }
  }

  /** The text of a number reads back as that number; it holds no NUL. */
  lemma DecimalParses(number: int)
    ensures Parse(Decimal(number)) == Some(number) && 0 !in Decimal(number) && Decimal(number) != []
  {
    var n := if number < 0 then -number else number;
    ParseDigitsBack(n);
    if number < 0 {
      assert Decimal(number)[1..] == Digits(n);
    }
  }

  /** A text without superfluous zeros. */
  predicate Canonical(t: seq<byte>) {
    t == [ZERO] || (t != [] && if t[0] == MINUS then |t| > 1 && t[1] != ZERO else t[0] != ZERO)
  }

  lemma {:induction false} DigitsOfParsed(t: seq<byte>)
    requires ParseDigits(t).Some? && (t != [] ==> t[0] != ZERO)
    ensures Digits(ParseDigits(t).value) == t
    ensures t != [] ==> ParseDigits(t).value > 0
  {
    if t != [] {
      var u := t[..|t| - 1];
      DigitsOfParsed(u);
      assert u != [] ==> u[0] == t[0];
      assert t == u + [t[|t| - 1]];
    }
  }

  /** Each canonical text of a number is the one Decimal gives. */
  lemma ParsedIsDecimal(t: seq<byte>)
    requires Parse(t).Some? && Canonical(t)
    ensures Decimal(Parse(t).value) == t
  {
    if t[0] == MINUS {
      DigitsOfParsed(t[1..]);
      assert t == [MINUS] + t[1..];
    } else if t == [ZERO] {
      assert t[..0] == [];
      assert ParseDigits(t) == Some(0);
    } else {
      DigitsOfParsed(t);
    }
  }

  // ---------- What the text is ----------

  function Power(k: nat): nat {
    if k == 0 then 1 else 10 * Power(k - 1)
  }

  /** Digits weighted with powers of ten, the last with one. */
  function Weighted(ds: seq<nat>): nat {
    if ds == [] then 0 else ds[0] * Power(|ds| - 1) + Weighted(ds[1..])
  }

  /** The character at place `i` is the numeral for `ds[i]`. */
  predicate Numerals(t: seq<byte>, ds: seq<nat>) {
    |t| == |ds| && forall i :: 0 <= i < |ds| ==> ds[i] < 10 && t[i] == "0123456789"[ds[i]] as int
  }

  /** `t` writes `n` with ten numerals, without superfluous zeros. */
  ghost predicate Spells(t: seq<byte>, n: nat) {
    exists ds: seq<nat> :: Numerals(t, ds) && Weighted(ds) == n && t != [] && (|ds| > 1 ==> ds[0] != 0)
  }

  /** A negative number has a minus sign in front. */
  ghost predicate Writes(t: seq<byte>, number: int) {
    if number < 0 then t != [] && t[0] == '-' as int && Spells(t[1..], -number) else Spells(t, number)
  }

  lemma {:induction false} WeightedAppend(ds: seq<nat>, d: nat)
    ensures Weighted(ds + [d]) == 10 * Weighted(ds) + d
  {
    if ds == [] {
      assert Weighted([d]) == d * Power(0) + Weighted([]);
    } else {
      assert (ds + [d])[1..] == ds[1..] + [d];
      WeightedAppend(ds[1..], d);
      Tenfold(ds[0], Power(|ds| - 1));
    }
  }

  lemma Tenfold(d: nat, w: nat)
    ensures d * (10 * w) == 10 * (d * w)
  {
  }

  lemma Numeral(d: nat)
    requires d < 10
    ensures "0123456789"[d] as int == ZERO + d
  {
  }

  lemma {:induction false} DigitsSpelled(n: nat) returns (ds: seq<nat>)
    ensures Numerals(Digits(n), ds) && Weighted(ds) == n && (n > 0 ==> ds != [] && ds[0] != 0)
  {
    ds := [];
    if n > 0 {
      var us := DigitsSpelled(n / 10);
      ds := us + [n % 10];
      WeightedAppend(us, n % 10);
      Numeral(n % 10);
    }
  }

  /**
   The text printed for a number: decimal numerals, weighted with powers of ten, and a minus sign in front of those of a
   negative number.
   */
  lemma DecimalWrites(number: int)
    ensures Writes(Decimal(number), number)
    ensures Power(0) == 1 && forall k: nat :: Power(k + 1) == 10 * Power(k)
  {
    var n := if number < 0 then -number else number;
    var ds := DigitsSpelled(n);
    if n == 0 {
      Numeral(0);
      assert Weighted([0]) == 0 * Power(0) + Weighted([]);
      assert Numerals(Decimal(0), [0]);
    } else {
      assert Digits(n) != [];
      assert number < 0 ==> Decimal(number)[1..] == Digits(n);
    }
  }

  // ---------- Printing ----------

  /** The NUL-terminated text `t` lies at the start of the buffer. */
  predicate Holds(m: seq<byte>, t: seq<byte>) {
    |t| < |m| && m[..|t|] == t && m[|t|] == 0
  }

  lemma DigitsStep(n: nat, suffix: seq<byte>, whole: seq<byte>)
    requires n > 0 && whole == Digits(n) + suffix
    ensures whole == Digits(n / 10) + ([ZERO + n % 10] + suffix)
  {
  }

  /** The number of bytes the sign takes. */
  function SignLength(number: int): nat {
    if number < 0 then 1 else 0
  }

  lemma DecimalLength(number: int, n: nat)
    requires n == (if number < 0 then -number else number) && n > 0
    ensures |Decimal(number)| == SignLength(number) + |Digits(n)| && |Digits(n)| > 0
  {
  }

  /** The digits behind the sign, and a NUL behind the digits: the decimal text. */
  lemma Printed(m: seq<byte>, number: int, n: nat)
    requires n == (if number < 0 then -number else number) && n > 0
    requires var sign := SignLength(number);
             && sign + |Digits(n)| < |m| && m[sign..sign + |Digits(n)|] == Digits(n) && m[sign + |Digits(n)|] == 0
             && (number < 0 ==> m[0] == MINUS)
    ensures Holds(m, Decimal(number))
  {
    DecimalLength(number, n);
    if number < 0 {
      assert m[..1 + |Digits(n)|] == [MINUS] + m[1..1 + |Digits(n)|];
    }
  }

  /** The loop ended with digits left over, or with all of them in the buffer. */
  lemma LoopEnd(number: int, n0: nat, n: nat, written: seq<byte>, bufsize: nat)
    requires n0 == (if number < 0 then -number else number) && Digits(n0) == Digits(n) + written
    requires bufsize >= 2 && |written| <= bufsize - 1 - SignLength(number)
    ensures n != 0 && |written| == bufsize - 1 - SignLength(number) ==> |Decimal(number)| >= bufsize
    ensures n == 0 ==> written == Digits(n0) && (n0 > 0 ==> |Decimal(number)| < bufsize && written != [])
    ensures n == 0 && n0 == 0 ==> written == [] && Decimal(number) == [ZERO]
  {
    if n0 > 0 {
      DecimalLength(number, n0);
    }
    if n > 0 {
      assert |Digits(n)| > 0;
    }
  }

  /** From `before` to `after`, `length` bytes moved from one place to another, and nothing else changed outside. */
  ghost predicate Shifted(before: seq<byte>, after: seq<byte>, to: nat, from: nat, length: nat)
    requires to <= from && from + length <= |before| == |after|
  {
    && (forall i :: to <= i < to + length ==> after[i] == before[i - to + from])
    && (forall i :: 0 <= i < to || from + length <= i < |before| ==> after[i] == before[i])
  }

  /** Moving the written bytes to the front, all at once, as memmove does. */
  method Move(result: array<byte>, to: nat, from: nat, length: nat)
    requires to <= from && from + length <= result.Length
    modifies result
    ensures Shifted(old(result[..]), result[..], to, from, length)
  {
    forall i | to <= i < to + length {
      result[i] := result[i - to + from];
    }
  }

  /** The loop of lwip_itoa: digits from the last backwards, until none is left or the buffer is full. */
  method PutDigits(result: array<byte>, res: nat, bufsize: nat, number: nat) returns (tmp: nat, n: nat)
    requires res < bufsize <= result.Length
    modifies result
    ensures res <= tmp < bufsize && (n == 0 || tmp == res)
    ensures result[bufsize - 1] == 0 && (result[tmp] == 0 <==> tmp == bufsize - 1)
    ensures Digits(number) == Digits(n) + result[tmp..bufsize - 1]
    ensures forall i :: 0 <= i < res || bufsize <= i < result.Length ==> result[i] == old(result[i])
  {
    hide Digits;
    n, tmp := number, bufsize - 1;
    result[tmp] := 0;
    NoDigits(n, result[tmp..bufsize - 1]);
    while n != 0 && tmp > res
      invariant res <= tmp <= bufsize - 1 && result[bufsize - 1] == 0
      invariant Digits(number) == Digits(n) + result[tmp..bufsize - 1]
      invariant result[tmp] == 0 <==> tmp == bufsize - 1
      invariant forall i :: 0 <= i < res || bufsize <= i < result.Length ==> result[i] == old(result[i])
    {
      ghost var suffix := result[tmp..bufsize - 1];
      DigitsStep(n, suffix, Digits(number));
      var val := ZERO + n % 10;
      tmp := tmp - 1;
      result[tmp] := val;
      assert result[tmp..bufsize - 1] == [val] + suffix;
      n := n / 10;
    }
  }

  /** The rest of lwip_itoa: give up, print a zero, or move the digits to the front. */
  method Finish(result: array<byte>, bufsize: nat, res: nat, tmp: nat, n: nat, ghost number: int, ghost n0: nat)
    requires 2 <= bufsize <= result.Length && res <= tmp < bufsize && (n == 0 || tmp == res)
    requires n0 == (if number < 0 then -number else number) && res == SignLength(number)
    requires result[bufsize - 1] == 0 && (result[tmp] == 0 <==> tmp == bufsize - 1)
    requires Digits(n0) == Digits(n) + result[tmp..bufsize - 1] && (number < 0 ==> result[0] == MINUS)
    modifies result
    ensures forall i :: bufsize <= i < result.Length ==> result[i] == old(result[i])
    ensures Holds(result[..bufsize], if |Decimal(number)| < bufsize then Decimal(number) else [])
  {
    hide Digits, Decimal, Holds;
    LoopEnd(number, n0, n, result[tmp..bufsize - 1], bufsize);
    if n != 0 {
      result[0] := 0;
      HeldSimply(result[..bufsize]);
      return;
    }
    if result[tmp] == 0 {
      result[res] := ZERO;
      result[res + 1] := 0;
      HeldSimply(result[..bufsize]);
      return;
    }
    ghost var before := result[..];
    Move(result, res, tmp, bufsize - tmp);
    ghost var after := result[..];
    Moved(before, after, bufsize, tmp, number, n0);
    assert result[..bufsize] == after[..bufsize];
  }

  /**
   lwip_itoa. Nothing outside the first `bufsize` bytes is written; these start with the decimal text of the number and
   a NUL if both fit, and with a NUL, the empty string, if they do not.
   */
  method Itoa(result: array<byte>, bufsize: nat, number: int)
    requires bufsize <= result.Length && -0x80000000 < number < 0x80000000
    modifies result
    ensures forall i :: bufsize <= i < result.Length ==> result[i] == old(result[i])
    ensures bufsize > 0 ==> Holds(result[..bufsize], if |Decimal(number)| < bufsize then Decimal(number) else [])
    ensures bufsize > 0 ==>
              exists t :: Writes(t, number) && Holds(result[..bufsize], if |t| < bufsize then t else [])
  {
    hide Digits, Decimal, Holds, Writes;
    DecimalWrites(number);
    DecimalParses(number);
    var n := if number >= 0 then number else -number;
    if bufsize < 2 {
      if bufsize == 1 {
        result[0] := 0;
        HeldSimply(result[..bufsize]);
      }
      return;
    }
    var res := 0;
    if number < 0 {
      result[res] := MINUS;
      res := res + 1;
    }
    var tmp, left := PutDigits(result, res, bufsize, n);
    Finish(result, bufsize, res, tmp, left, number, n);
  }

  lemma Moved(before: seq<byte>, after: seq<byte>, bufsize: nat, tmp: nat, number: int, n: nat)
    requires n == (if number < 0 then -number else number) && n > 0
    requires var sign := SignLength(number);
             && sign <= tmp < bufsize <= |before| == |after|
             && Shifted(before, after, sign, tmp, bufsize - tmp)
    requires before[tmp..bufsize - 1] == Digits(n) && before[bufsize - 1] == 0 && (number < 0 ==> before[0] == MINUS)
    ensures Holds(after[..bufsize], Decimal(number))
  {
    hide Digits, Decimal, Holds;
    var sign, k := SignLength(number), bufsize - 1 - tmp;
    assert |Digits(n)| == k;
    assert after[..bufsize][sign..sign + k] == before[tmp..bufsize - 1];
    Printed(after[..bufsize], number, n);
  }

  /** The empty string, and the text of 0. */
  lemma HeldSimply(m: seq<byte>)
    requires m != []
    ensures m[0] == 0 ==> Holds(m, [])
    ensures |m| > 1 && m[0] == ZERO && m[1] == 0 ==> Holds(m, [ZERO])
  {
  }

  lemma NoDigits(n: nat, empty: seq<byte>)
    requires empty == []
    ensures Digits(n) == Digits(n) + empty
  {
  }

  lemma {:induction false} StringAt(m: seq<byte>, i: nat, t: seq<byte>)
    requires i + |t| < |m| && m[i..i + |t|] == t && m[i + |t|] == 0 && 0 !in t
    ensures Terminated(m, i) && Text(m, i) == t
    decreases |t|
  {
    if t != [] {
      assert m[i] == t[0] && t[0] in t;
      assert m[i + 1..i + 1 + |t[1..]|] == t[1..];
      StringAt(m, i + 1, t[1..]);
    }
  }

  /** A buffer filled by lwip_itoa is a string; read back, it is the number if the text fitted, and empty otherwise. */
  lemma PrintedReadsBack(m: seq<byte>, number: int)
    requires m != [] && Holds(m, if |Decimal(number)| < |m| then Decimal(number) else [])
    ensures Terminated(m, 0)
    ensures if |Decimal(number)| < |m| then Parse(Text(m, 0)) == Some(number) else Text(m, 0) == []
  {
    DecimalParses(number);
    StringAt(m, 0, if |Decimal(number)| < |m| then Decimal(number) else []);
  }
}
