/** User/lwip/src/core/def.c: string search and comparison. */
module Strings {
  import opened Bytes
  import opened Options

  /** A NUL-terminated string in memory, from index `i` on; what follows the NUL does not matter. */
  predicate Terminated(s: seq<byte>, i: nat)
    decreases |s| - i
  {
    i < |s| && (s[i] == 0 || Terminated(s, i + 1))
  }

  /** The characters from `i` up to the NUL. */
  function Text(s: seq<byte>, i: nat): (t: seq<byte>)
    requires Terminated(s, i)
    decreases |s| - i
  {
    if s[i] == 0 then [] else [s[i]] + Text(s, i + 1)
  }

  lemma {:induction false} TextMeaning(s: seq<byte>, i: nat)
    requires Terminated(s, i)
    ensures var t := Text(s, i); i + |t| < |s| && s[i + |t|] == 0 && t == s[i..i + |t|] && 0 !in t
    decreases |s| - i
  {
    if s[i] != 0 {
      var u := Text(s, i + 1);
      TextMeaning(s, i + 1);
      assert Text(s, i) == [s[i]] + u;
      assert s[i..i + 1 + |u|] == [s[i]] + s[i + 1..i + 1 + |u|];
      hide Text, Terminated;
    }
  }

  lemma TextLength(s: seq<byte>, i: nat)
    requires Terminated(s, i)
    ensures i + |Text(s, i)| < |s|
  {
    TextMeaning(s, i);
  }

  function Lower(c: byte): byte {
    if 0x41 <= c <= 0x5a then c + 0x20 else c
  }

  function Lowered(t: seq<byte>): (r: seq<byte>)
    ensures |r| == |t|
  {
    seq(|t|, i requires 0 <= i < |t| => Lower(t[i]))
  }

  /** The letters from A to Z become those from a to z, and no other character changes. */
  lemma LowerMeaning(c: byte)
    ensures 'A' as int <= c <= 'Z' as int ==> Lower(c) - c == 'a' as int - 'A' as int
    ensures c < 'A' as int || c > 'Z' as int ==> Lower(c) == c
  {
  }

  /** The first `n` characters, or all if there are fewer. */
  function Prefix(t: seq<byte>, n: nat): seq<byte> {
    if n <= |t| then t[..n] else t
  }

  /** The string at `i` up to ASCII case, as far as `n` characters reach. */
  function Folded(s: seq<byte>, i: nat, n: nat): seq<byte>
    requires Terminated(s, i)
  {
    Lowered(Prefix(Text(s, i), n))
  }

  /** Character by character: those up to the NUL, at most `n`, each in lower case. */
  lemma FoldedMeaning(s: seq<byte>, i: nat, n: nat)
    requires Terminated(s, i)
    ensures i + |Text(s, i)| < |s| && s[i + |Text(s, i)|] == 0 && forall k :: i <= k < i + |Text(s, i)| ==> s[k] != 0
    ensures |Folded(s, i, n)| == if n < |Text(s, i)| then n else |Text(s, i)|
    ensures forall k :: 0 <= k < |Folded(s, i, n)| ==> i + k < |s| && Folded(s, i, n)[k] == Lower(s[i + k])
  {
    hide Terminated, Text, Lower;
    TextMeaning(s, i);
    forall k | i <= k < i + |Text(s, i)| ensures s[k] != 0 {
      assert s[k] == Text(s, i)[k - i];
    }
  }

  lemma PrefixStep(s: seq<byte>, i: nat, n: nat)
    requires Terminated(s, i) && n > 0
    ensures Prefix(Text(s, i), n) == if s[i] == 0 then [] else [s[i]] + Prefix(Text(s, i + 1), n - 1)
  {
  }

  lemma LoweredStep(c: byte, t: seq<byte>)
    ensures Lowered([c] + t) == [Lower(c)] + Lowered(t)
  {
  }

  lemma FoldedStep(s: seq<byte>, i: nat, n: nat)
    requires Terminated(s, i) && n > 0
    ensures Folded(s, i, n) == if s[i] == 0 then [] else [Lower(s[i])] + Folded(s, i + 1, n - 1)
  {
    PrefixStep(s, i, n);
    hide Text, Prefix, Lower;
    if s[i] != 0 {
      LoweredStep(s[i], Prefix(Text(s, i + 1), n - 1));
    }
  }

  lemma PrefixAll(s: seq<byte>, i: nat, n: nat)
    requires Terminated(s, i) && n >= |s|
    ensures Folded(s, i, n) == Lowered(Text(s, i))
  {
    TextLength(s, i);
  }

  // ---------- Comparison ----------

  /** `c | 0x20`. */
  function Or20(c: byte): byte {
    SetBit32(c);
    SetBit(c, 0x20)
  }

  /** The test of one pair of characters; only the first is tested for being a letter. */
  predicate Alike(c1: byte, c2: byte) {
    c1 == c2 || (0x61 <= Or20(c1) <= 0x7a && Or20(c1) == Or20(c2))
  }

  /** The test is exactly equality up to ASCII case, and so an equivalence. */
  lemma AlikeIsLower(c1: byte, c2: byte)
    ensures Alike(c1, c2) <==> Lower(c1) == Lower(c2)
  {
    Or20Value(c1);
    Or20Value(c2);
    hide Or20;
  }

  /** Although the test treats its arguments differently, their order does not matter, and it is transitive. */
  lemma AlikeEquivalence(c1: byte, c2: byte, c3: byte)
    ensures Alike(c1, c2) ==> Alike(c2, c1)
    ensures Alike(c1, c2) && Alike(c2, c3) ==> Alike(c1, c3)
  {
    AlikeIsLower(c1, c2);
    AlikeIsLower(c2, c1);
    AlikeIsLower(c2, c3);
    AlikeIsLower(c1, c3);
    hide Alike;
  }

  lemma Or20Value(c: byte)
    ensures Or20(c) == if c / 32 % 2 == 1 then c else c + 32
  {
  }

  lemma ConsEqual<T>(a: T, u: seq<T>, b: T, v: seq<T>)
    ensures [a] + u == [b] + v <==> a == b && u == v
  {
    if [a] + u == [b] + v {
      assert ([a] + u)[0] == ([b] + v)[0];
      assert u == ([a] + u)[1..] == ([b] + v)[1..] == v;
    }
  }

  /** Two strings agree up to case if their first characters and, unless those are NUL, their rests do. */
  lemma CompareStep(s: seq<byte>, i: nat, t: seq<byte>, j: nat, n: nat)
    requires Terminated(s, i) && Terminated(t, j) && n > 0
    ensures Folded(s, i, n) == Folded(t, j, n) <==>
              && Alike(s[i], t[j])
              && (s[i] != 0 ==> t[j] != 0 && Folded(s, i + 1, n - 1) == Folded(t, j + 1, n - 1))
    ensures Alike(s[i], t[j]) ==> (s[i] == 0 <==> t[j] == 0)
    ensures s[i] != 0 ==> i + 1 < |s| && Terminated(s, i + 1)
    ensures t[j] != 0 ==> j + 1 < |t| && Terminated(t, j + 1)
  {
    AlikeIsLower(s[i], t[j]);
    FoldedStep(s, i, n);
    FoldedStep(t, j, n);
    hide Folded, Alike;
    if s[i] != 0 && t[j] != 0 {
      ConsEqual(Lower(s[i]), Folded(s, i + 1, n - 1), Lower(t[j]), Folded(t, j + 1, n - 1));
    }
  }

  /** lwip_stricmp: 0 exactly if the strings are equal up to ASCII case. */
  method Stricmp(str1: seq<byte>, str2: seq<byte>) returns (r: int)
    requires Terminated(str1, 0) && Terminated(str2, 0)
    ensures r == 0 <==> Lowered(Text(str1, 0)) == Lowered(Text(str2, 0))
    ensures r == 0 || r == 1
  {
    hide Folded, Text, Lowered, Lower, Prefix, Or20, Terminated;
    ghost var n := |str1| + |str2|;
    TextLength(str1, 0);
    TextLength(str2, 0);
    PrefixAll(str1, 0, n);
    PrefixAll(str2, 0, n);
    var i := 0;
    ghost var rest := n;
    while true
      invariant i < |str1| && i < |str2| && Terminated(str1, i) && Terminated(str2, i) && rest == n - i
      invariant Folded(str1, 0, n) == Folded(str2, 0, n) <==> Folded(str1, i, rest) == Folded(str2, i, rest)
      decreases |str1| - i
    {
      var c1, c2 := str1[i], str2[i];
      CompareStep(str1, i, str2, i, rest);
      if c1 != c2 {
        var c1Upc := Or20(c1);
        if 0x61 <= c1Upc <= 0x7a {
          var c2Upc := Or20(c2);
          if c1Upc != c2Upc {
            return 1;
          }
        } else {
          return 1;
        }
      }
      if c1 == 0 {
        return 0;
      }
      i, rest := i + 1, rest - 1;
    }
  }

  const SIZE_RANGE := 0x1_0000_0000

  /** How many characters lwip_strnicmp looks at: the counter is decremented before the test, so 0 means the most. */
  function Reach(len: nat): nat {
    if len == 0 then SIZE_RANGE else len
  }

  /** lwip_strnicmp at `p1` and `p2`: 0 exactly if the first `Reach(len)` characters, up to the NUL, agree. */
  method Strnicmp(str1: seq<byte>, p1: nat, str2: seq<byte>, p2: nat, len: nat) returns (r: int)
    requires Terminated(str1, p1) && Terminated(str2, p2) && len < 0x1_0000_0000
    ensures var n := if len == 0 then 0x1_0000_0000 else len;
            r == 0 <==> Folded(str1, p1, n) == Folded(str2, p2, n)
    ensures r == 0 || r == 1
  {
    hide Folded, Or20;
    var i, rest := 0, len;
    ghost var left := Reach(len);
    while true
      invariant left > 0 && i + left == Reach(len) && rest == (if left == SIZE_RANGE then 0 else left)
      invariant Terminated(str1, p1 + i) && Terminated(str2, p2 + i)
      invariant Folded(str1, p1, Reach(len)) == Folded(str2, p2, Reach(len)) <==>
                  Folded(str1, p1 + i, left) == Folded(str2, p2 + i, left)
      decreases left
    {
      var c1, c2 := str1[p1 + i], str2[p2 + i];
      CompareStep(str1, p1 + i, str2, p2 + i, left);
      i := i + 1;
      if c1 != c2 {
        var c1Upc := Or20(c1);
        if 0x61 <= c1Upc <= 0x7a {
          var c2Upc := Or20(c2);
          if c1Upc != c2Upc {
            return 1;
          }
        } else {
          return 1;
        }
      }
      rest, left := if rest == 0 then SIZE_RANGE - 1 else rest - 1, left - 1;
      if c1 != 0 && rest == 0 {
        FoldedNothing(str1, p1 + i, str2, p2 + i);
      }
      if !(rest != 0 && c1 != 0) {
        return 0;
      }
    }
  }

  /** An input with length 0: asked to compare no characters, lwip_strnicmp nevertheless tells "a" from "b". */
  method CompareNothing() returns (r: int)
    ensures r == 1 && Terminated([0x61, 0], 0) && Terminated([0x62, 0], 0)
    ensures Folded([0x61, 0], 0, 0) == Folded([0x62, 0], 0, 0)
  {
    var a, b := [0x61, 0], [0x62, 0];
    assert Terminated(a, 1) && Terminated(b, 1);
    FoldedNothing(a, 0, b, 0);
    CompareStep(a, 0, b, 0, SIZE_RANGE);
    AlikeIsLower(0x61, 0x62);
    hide Folded, Alike;
    r := Strnicmp(a, 0, b, 0, 0);
  }

  /**
   lwip_strnicmp tells whether the first `len` characters agree up to case if and only if `len` is positive, or the
   strings agree as far as its counter reaches.
   */
  lemma BoundedIffPositive(str1: seq<byte>, p1: nat, str2: seq<byte>, p2: nat, len: nat)
    requires Terminated(str1, p1) && Terminated(str2, p2) && len < 0x1_0000_0000
    ensures var n := if len == 0 then 0x1_0000_0000 else len;
            (len > 0 || Folded(str1, p1, 0x1_0000_0000) == Folded(str2, p2, 0x1_0000_0000)) <==>
              (Folded(str1, p1, n) == Folded(str2, p2, n) <==> Folded(str1, p1, len) == Folded(str2, p2, len))
  {
    FoldedNothing(str1, p1, str2, p2);
    hide Folded;
  }

  lemma FoldedNothing(s: seq<byte>, i: nat, t: seq<byte>, j: nat)
    requires Terminated(s, i) && Terminated(t, j)
    ensures Folded(s, i, 0) == Folded(t, j, 0)
  {
  }

  // ---------- Search ----------

  predicate MatchAt(text: seq<byte>, token: seq<byte>, i: nat) {
    i + |token| <= |text| && text[i..i + |token|] == token
  }

  /** `r` is the first place where `token` lies in `text` within the first `n` characters; None if there is none. */
  predicate FirstMatch(text: seq<byte>, token: seq<byte>, n: nat, r: Option<nat>) {
    match r
    case Some(i) => i + |token| <= n && MatchAt(text, token, i) && forall k: nat :: k < i ==> !MatchAt(text, token, k)
    case None => forall k: nat :: k + |token| <= n ==> !MatchAt(text, token, k)
  }

  /** What strncmp of the C library tests: the strings at `i` and `j` agree in `n` characters or up to a common NUL. */
  predicate SameFor(s: seq<byte>, i: nat, t: seq<byte>, j: nat, n: nat)
    requires Terminated(s, i) && Terminated(t, j)
    decreases n
  {
    n == 0 || (s[i] == t[j] && (s[i] == 0 || SameFor(s, i + 1, t, j + 1, n - 1)))
  }

  lemma {:induction false} SameForIsPrefix(s: seq<byte>, i: nat, t: seq<byte>, j: nat, n: nat)
    requires Terminated(s, i) && Terminated(t, j)
    ensures SameFor(s, i, t, j, n) <==> Prefix(Text(s, i), n) == Prefix(Text(t, j), n)
    decreases n
  {
    if n > 0 {
      PrefixStep(s, i, n);
      PrefixStep(t, j, n);
      hide Prefix, Text;
      if s[i] != 0 && t[j] != 0 {
        SameForIsPrefix(s, i + 1, t, j + 1, n - 1);
        ConsEqual(s[i], Prefix(Text(s, i + 1), n - 1), t[j], Prefix(Text(t, j + 1), n - 1));
      }
    }
  }

  lemma {:induction false} TextFrom(s: seq<byte>, i: nat, p: nat)
    requires Terminated(s, i) && p <= |Text(s, i)|
    ensures Terminated(s, i + p) && Text(s, i + p) == Text(s, i)[p..]
    ensures s[i + p] == 0 <==> p == |Text(s, i)|
    decreases p
  {
    if p > 0 {
      TextFrom(s, i + 1, p - 1);
    }
  }

  lemma PrefixMatch(text: seq<byte>, token: seq<byte>, p: nat)
    requires p <= |text|
    ensures Prefix(text[p..], |token|) == token <==> MatchAt(text, token, p)
  {
    if p + |token| <= |text| {
      assert text[p..][..|token|] == text[p..p + |token|];
    }
  }

  lemma LoweredParts(t: seq<byte>, p: nat, n: nat)
    requires p <= |t|
    ensures Lowered(Prefix(t[p..], n)) == Prefix(Lowered(t)[p..], n)
  {
    hide Lower;
  }

  lemma FoldedMatch(s: seq<byte>, p: nat, token: seq<byte>)
    requires Terminated(s, 0) && p <= |Text(s, 0)| && Terminated(s, p) && Text(s, p) == Text(s, 0)[p..]
    ensures Folded(s, p, |token|) == Lowered(token) <==> MatchAt(Lowered(Text(s, 0)), Lowered(token), p)
  {
    LoweredParts(Text(s, 0), p, |token|);
    PrefixMatch(Lowered(Text(s, 0)), Lowered(token), p);
    hide Prefix, Text, MatchAt, Lowered, Terminated;
  }

  /** lwip_strnstr. */
  method Strnstr(buffer: seq<byte>, token: seq<byte>, n: nat) returns (r: Option<nat>)
    requires Terminated(buffer, 0) && Terminated(token, 0)
    ensures FirstMatch(Text(buffer, 0), Text(token, 0), n, r)
  {
    hide Text, Prefix, MatchAt, SameFor;
    ghost var text := Text(buffer, 0);
    MatchEnds(text, Text(token, 0));
    var tokenlen := |Text(token, 0)|;
    if tokenlen == 0 {
      return Some(0);
    }
    var p := 0;
    TextFrom(buffer, 0, 0);
    while buffer[p] != 0 && p + tokenlen <= n
      invariant p <= |text| && Terminated(buffer, p) && Text(buffer, p) == text[p..]
      invariant buffer[p] == 0 <==> p == |text|
      invariant forall k: nat :: k < p ==> !MatchAt(text, Text(token, 0), k)
      decreases |buffer| - p
    {
      SameForIsPrefix(buffer, p, token, 0, tokenlen);
      PrefixWhole(Text(token, 0));
      PrefixMatch(text, Text(token, 0), p);
      SameForFirst(buffer, p, token, tokenlen);
      if buffer[p] == token[0] && SameFor(buffer, p, token, 0, tokenlen) {
        return Some(p);
      }
      p := p + 1;
      TextFrom(buffer, 0, p);
    }
    return None;
  }

  lemma MatchEnds(text: seq<byte>, token: seq<byte>)
    ensures token == [] ==> MatchAt(text, token, 0)
    ensures forall k: nat :: k + |token| > |text| ==> !MatchAt(text, token, k)
  {
  }

  lemma PrefixWhole(t: seq<byte>)
    ensures Prefix(t, |t|) == t
  {
  }

  lemma SameForFirst(s: seq<byte>, p: nat, t: seq<byte>, n: nat)
    requires Terminated(s, p) && Terminated(t, 0) && n > 0
    ensures SameFor(s, p, t, 0, n) ==> s[p] == t[0]
  {
  }

  /** lwip_strnistr. */
  method Strnistr(buffer: seq<byte>, token: seq<byte>, n: nat) returns (r: Option<nat>)
    requires Terminated(buffer, 0) && Terminated(token, 0) && |token| < 0x1_0000_0000
    ensures FirstMatch(Lowered(Text(buffer, 0)), Lowered(Text(token, 0)), n, r)
  {
    hide Text, Prefix, Folded, Lowered, MatchAt;
    TextLength(token, 0);
    ghost var text, tok := Text(buffer, 0), Text(token, 0);
    MatchEnds(Lowered(text), Lowered(tok));
    var tokenlen := |Text(token, 0)|;
    if tokenlen == 0 {
      return Some(0);
    }
    var p := 0;
    TextFrom(buffer, 0, 0);
    FoldedWhole(token);
    while buffer[p] != 0 && p + tokenlen <= n
      invariant p <= |text| && Terminated(buffer, p) && Text(buffer, p) == text[p..]
      invariant buffer[p] == 0 <==> p == |text|
      invariant forall k: nat :: k < p ==> !MatchAt(Lowered(text), Lowered(tok), k)
      decreases |buffer| - p
    {
      FoldedMatch(buffer, p, tok);
      var d := Strnicmp(buffer, p, token, 0, tokenlen);
      if d == 0 {
        return Some(p);
      }
      p := p + 1;
      TextFrom(buffer, 0, p);
    }
    return None;
  }

  lemma FoldedWhole(token: seq<byte>)
    requires Terminated(token, 0)
    ensures Folded(token, 0, |Text(token, 0)|) == Lowered(Text(token, 0))
  {
  }
}
