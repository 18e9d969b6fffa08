/**
 UTF-8 (section 3 of RFC 3629) and lowercase hexadecimal as codes that keep the dictionary order: comparing the
 encodings compares the texts (src/purra/structured.py, typescript/src/structured.ts).
 */
module Utf8 {
  import opened Lexical

  // ----- codes that keep the order ------------------------------------------

  /** `a` and `b` differ at some place, and there `a` is smaller. */
  ghost predicate Splits(a: seq<int>, b: seq<int>) {
    exists i :: 0 <= i < |a| && i < |b| && a[..i] == b[..i] && a[i] < b[i]
  }

  /** A code whose words keep the order of the `bound` symbols they stand for. */
  ghost predicate OrderCode(code: int -> seq<int>, bound: int) {
    && (forall c :: 0 <= c < bound ==> code(c) != [])
    && (forall c, d :: 0 <= c < d < bound ==> Splits(code(c), code(d)))
  }

  predicate Within(s: seq<int>, bound: int) { forall i :: 0 <= i < |s| ==> 0 <= s[i] < bound }

  function Encode(code: int -> seq<int>, s: seq<int>): seq<int> {
    if s == [] then [] else code(s[0]) + Encode(code, s[1..])
  }

  lemma {:induction false} SplitsIsBelow(a: seq<int>, b: seq<int>, x: seq<int>, y: seq<int>)
    requires Splits(a, b)
    ensures Below(a + x, b + y)
    decreases |a|
  {
    var i :| 0 <= i < |a| && i < |b| && a[..i] == b[..i] && a[i] < b[i];
    if i > 0 {
      assert a[0] == a[..i][0] == b[0];
      assert a[1..][..i - 1] == a[..i][1..] && b[1..][..i - 1] == b[..i][1..];
      assert a[1..][i - 1] < b[1..][i - 1];
      SplitsIsBelow(a[1..], b[1..], x, y);
      assert (a + x)[1..] == a[1..] + x && (b + y)[1..] == b[1..] + y;
    }
  }

  lemma {:induction false} SamePrefix(p: seq<int>, x: seq<int>, y: seq<int>)
    ensures Below(p + x, p + y) <==> Below(x, y)
    decreases |p|
  {
    if p == [] {
      assert p + x == x && p + y == y;
    } else {
      SamePrefix(p[1..], x, y);
      assert (p + x)[1..] == p[1..] + x && (p + y)[1..] == p[1..] + y;
    }
  }

  lemma {:induction false} EncodingKeepsBelow(code: int -> seq<int>, bound: int, a: seq<int>, b: seq<int>)
    requires OrderCode(code, bound) && Within(a, bound) && Within(b, bound) && Below(a, b)
    ensures Below(Encode(code, a), Encode(code, b))
    decreases |a|
  {
    if a == [] {
      assert code(b[0]) != [];
    } else if a[0] < b[0] {
      SplitsIsBelow(code(a[0]), code(b[0]), Encode(code, a[1..]), Encode(code, b[1..]));
    } else {
      EncodingKeepsBelow(code, bound, a[1..], b[1..]);
      SamePrefix(code(a[0]), Encode(code, a[1..]), Encode(code, b[1..]));
    }
  }

  /** Encoded texts are ordered as the texts are, and only equal texts have equal encodings. */
  lemma EncodingKeepsOrder(code: int -> seq<int>, bound: int, a: seq<int>, b: seq<int>)
    requires OrderCode(code, bound) && Within(a, bound) && Within(b, bound)
    ensures Below(a, b) <==> Below(Encode(code, a), Encode(code, b))
    ensures a == b <==> Encode(code, a) == Encode(code, b)
  {
    Total(a, b);
    Irreflexive(Encode(code, a));
    if Below(a, b) { EncodingKeepsBelow(code, bound, a, b); }
    if Below(b, a) {
      EncodingKeepsBelow(code, bound, b, a);
      if Below(Encode(code, a), Encode(code, b)) { Asymmetric(Encode(code, a), Encode(code, b)); }
    }
    if a == b { Irreflexive(a); }
  }

  // ----- UTF-8 --------------------------------------------------------------

  const CODE_POINTS: int := 0x110000
  const LF := 10

  predicate Surrogate(c: int) { 0xD800 <= c <= 0xDFFF }

  /** A text that arrives in chunks. */
  function Concat(chunks: seq<seq<int>>): seq<int> {
    if chunks == [] then [] else chunks[0] + Concat(chunks[1..])
  }

  /** The octets of one character. */
  function Octets(c: int): seq<int> {
    if c < 0x80 then [c]
    else if c < 0x800 then [0xC0 + c / 0x40, 0x80 + c % 0x40]
    else if c < 0x10000 then [0xE0 + c / 0x1000, 0x80 + c / 0x40 % 0x40, 0x80 + c % 0x40]
    else [0xF0 + c / 0x40000, 0x80 + c / 0x1000 % 0x40, 0x80 + c / 0x40 % 0x40, 0x80 + c % 0x40]
  }

  function Bytes(s: seq<int>): seq<int> { Encode(Octets, s) }

  lemma OctetsAreBytes(c: int)
    requires 0 <= c < CODE_POINTS
    ensures Within(Octets(c), 256)
  {
  }

  lemma {:induction false} BytesAreBytes(s: seq<int>)
    requires Within(s, CODE_POINTS)
    ensures Within(Bytes(s), 256)
    decreases |s|
  {
    if s != [] {
      OctetsAreBytes(s[0]);
      BytesAreBytes(s[1..]);
    }
  }

  /** A continuation octet and what it carries. */
  predicate Continues(octet: int) { 0x80 <= octet < 0xC0 }

  lemma SixBits(c: int)
    requires 0 <= c
    ensures c == c / 0x40 * 0x40 + c % 0x40 && 0 <= c % 0x40 < 0x40
    ensures c / 0x1000 == c / 0x40 / 0x40 && c / 0x40000 == c / 0x40 / 0x40 / 0x40
  {
  }

  lemma ThreeOctetsDenote(c: int)
    requires 0x800 <= c < 0x10000
    ensures var o := Octets(c);
      && |o| == 3 && 0xE0 <= o[0] < 0xF0 && Continues(o[1]) && Continues(o[2])
      && c == (o[0] - 0xE0) * 0x1000 + (o[1] - 0x80) * 0x40 + o[2] - 0x80
  {
    SixBits(c);
    SixBits(c / 0x40);
  }

  lemma FourOctetsDenote(c: int)
    requires 0x10000 <= c < CODE_POINTS
    ensures var o := Octets(c);
      && |o| == 4 && 0xF0 <= o[0] < 0xF5 && Continues(o[1]) && Continues(o[2]) && Continues(o[3])
      && c == (o[0] - 0xF0) * 0x40000 + (o[1] - 0x80) * 0x1000 + (o[2] - 0x80) * 0x40 + o[3] - 0x80
  {
    SixBits(c);
    SixBits(c / 0x40);
    SixBits(c / 0x40 / 0x40);
  }

  /** The octets say the character: section 3 of RFC 3629, read backwards. */
  lemma OctetsDenote(c: int)
    requires 0 <= c < CODE_POINTS
    ensures var o := Octets(c);
      if c < 0x80 then o == [c]
      else if c < 0x800 then |o| == 2 && 0xC2 <= o[0] < 0xE0 && Continues(o[1]) && c == (o[0] - 0xC0) * 0x40 + o[1] - 0x80
      else if c < 0x10000 then
        && |o| == 3 && 0xE0 <= o[0] < 0xF0 && Continues(o[1]) && Continues(o[2])
        && c == (o[0] - 0xE0) * 0x1000 + (o[1] - 0x80) * 0x40 + o[2] - 0x80
      else
        && |o| == 4 && 0xF0 <= o[0] < 0xF5 && Continues(o[1]) && Continues(o[2]) && Continues(o[3])
        && c == (o[0] - 0xF0) * 0x40000 + (o[1] - 0x80) * 0x1000 + (o[2] - 0x80) * 0x40 + o[3] - 0x80
  {
    if 0x80 <= c < 0x800 { SixBits(c); }
    else if 0x800 <= c < 0x10000 { ThreeOctetsDenote(c); }
    else if 0x10000 <= c { FourOctetsDenote(c); }
  }

  lemma LongerIsHigher(c: int, d: int)
    requires 0 <= c < d < CODE_POINTS && |Octets(c)| != |Octets(d)|
    ensures Octets(c)[0] < Octets(d)[0]
  {
  }

  /** Two numbers of the same length in base 64 differ at their first different digit. */
  lemma DigitsDiffer(c: int, d: int)
    requires 0 <= c < d
    ensures c / 0x40 < d / 0x40 || (c / 0x40 == d / 0x40 && c % 0x40 < d % 0x40)
    ensures c / 0x1000 == c / 0x40 / 0x40 && c / 0x40000 == c / 0x40 / 0x40 / 0x40
    ensures d / 0x1000 == d / 0x40 / 0x40 && d / 0x40000 == d / 0x40 / 0x40 / 0x40
  {
  }

  lemma TwoOctetsSplit(c: int, d: int)
    requires 0x80 <= c < d < 0x800
    ensures Splits(Octets(c), Octets(d))
  {
    DigitsDiffer(c, d);
    SplitsAt(Octets(c), Octets(d), if c / 0x40 < d / 0x40 then 0 else 1);
  }

  lemma ThreeOctetsSplit(c: int, d: int)
    requires 0x800 <= c < d < 0x10000
    ensures Splits(Octets(c), Octets(d))
  {
    var (p, q) := (c / 0x40, d / 0x40);
    DigitsDiffer(c, d);
    if p < q { DigitsDiffer(p, q); }
    SplitsAt([0xE0 + p / 0x40, 0x80 + p % 0x40, 0x80 + c % 0x40], [0xE0 + q / 0x40, 0x80 + q % 0x40, 0x80 + d % 0x40],
             if p / 0x40 < q / 0x40 then 0 else if p < q then 1 else 2);
  }

  function High(c: int): int { c / 0x40 }
  function Low(c: int): int { c % 0x40 }

  lemma FourOctetsAre(c: int)
    requires 0x10000 <= c < CODE_POINTS
    ensures var (p, u) := (High(c), High(High(c))); Octets(c) == [0xF0 + High(u), 0x80 + Low(u), 0x80 + Low(p), 0x80 + Low(c)]
  {
    SixBits(c);
  }

  /** Four digits that differ first at some place differ there as octets. */
  lemma FourSplit(a: int, b: int, c: int, d: int, e: int, f: int, g: int, h: int)
    requires a < e || (a == e && (b < f || (b == f && (c < g || (c == g && d < h)))))
    ensures Splits([0xF0 + a, 0x80 + b, 0x80 + c, 0x80 + d], [0xF0 + e, 0x80 + f, 0x80 + g, 0x80 + h])
  {
    hide Splits;
    SplitsAt([0xF0 + a, 0x80 + b, 0x80 + c, 0x80 + d], [0xF0 + e, 0x80 + f, 0x80 + g, 0x80 + h],
             if a < e then 0 else if b < f then 1 else if c < g then 2 else 3);
  }

  lemma SixBitsDiffer(c: int, d: int)
    requires 0 <= c < d
    ensures 0 <= High(c) < High(d) || (0 <= High(c) == High(d) && Low(c) < Low(d))
  {
  }

  lemma TwoSixesDiffer(p: int, q: int)
    requires 0 <= p < q
    ensures var (u, v) := (High(p), High(q));
      High(u) < High(v) || (High(u) == High(v) && (Low(u) < Low(v) || (Low(u) == Low(v) && Low(p) < Low(q))))
  {
    hide High, Low;
    SixBitsDiffer(p, q);
    if High(p) < High(q) { SixBitsDiffer(High(p), High(q)); }
  }

  lemma FourOctetsSplit(c: int, d: int)
    requires 0x10000 <= c < d < CODE_POINTS
    ensures Splits(Octets(c), Octets(d))
  {
    hide *;
    FourOctetsAre(c);
    FourOctetsAre(d);
    var (p, q) := (High(c), High(d));
    SixBitsDiffer(c, d);
    if p < q { TwoSixesDiffer(p, q); }
    FourSplit(High(High(p)), Low(High(p)), Low(p), Low(c), High(High(q)), Low(High(q)), Low(q), Low(d));
  }

  lemma OctetsSplit(c: int, d: int)
    requires 0 <= c < d < CODE_POINTS
    ensures Splits(Octets(c), Octets(d))
  {
    if |Octets(c)| != |Octets(d)| {
      LongerIsHigher(c, d);
      SplitsAt(Octets(c), Octets(d), 0);
    } else if d < 0x80 { SplitsAt(Octets(c), Octets(d), 0); }
    else if d < 0x800 { TwoOctetsSplit(c, d); }
    else if d < 0x10000 { ThreeOctetsSplit(c, d); }
    else { FourOctetsSplit(c, d); }
  }

  lemma SplitsAt(a: seq<int>, b: seq<int>, i: nat)
    requires i < |a| && i < |b| && (forall j :: 0 <= j < i ==> a[j] == b[j]) && a[i] < b[i]
    ensures Splits(a, b)
  {
    assert a[..i] == b[..i];
  }

  lemma Utf8KeepsOrder()
    ensures OrderCode(Octets, CODE_POINTS)
  {
    forall c, d | 0 <= c < d < CODE_POINTS ensures Splits(Octets(c), Octets(d)) { OctetsSplit(c, d); }
  }

  // ----- hexadecimal --------------------------------------------------------

  /** The character code of a hexadecimal digit: '0'..'9' or 'a'..'f'. */
  function HexDigit(n: int): int { if n < 10 then 48 + n else 87 + n }

  function HexPair(b: int): seq<int> { [HexDigit(b / 16), HexDigit(b % 16)] }

  function Hex(bytes: seq<int>): seq<int> { Encode(HexPair, bytes) }

  lemma HexKeepsOrder()
    ensures OrderCode(HexPair, 256)
  {
    forall c, d | 0 <= c < d < 256 ensures Splits(HexPair(c), HexPair(d)) {
      SplitsAt(HexPair(c), HexPair(d), if c / 16 < d / 16 then 0 else 1);
    }
  }

  /** Code-point order, octet order and the order of the lowercase hexadecimal form are one order. */
  lemma OrdersCoincide(a: seq<int>, b: seq<int>)
    requires Within(a, CODE_POINTS) && Within(b, CODE_POINTS)
    ensures Below(a, b) <==> Below(Bytes(a), Bytes(b))
    ensures Below(a, b) <==> Below(Hex(Bytes(a)), Hex(Bytes(b)))
    ensures a == b <==> Hex(Bytes(a)) == Hex(Bytes(b))
  {
    Utf8KeepsOrder();
    HexKeepsOrder();
    BytesAreBytes(a);
    BytesAreBytes(b);
    EncodingKeepsOrder(Octets, CODE_POINTS, a, b);
    EncodingKeepsOrder(HexPair, 256, Bytes(a), Bytes(b));
  }
}
