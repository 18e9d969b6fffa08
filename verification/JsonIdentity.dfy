/**
 The canonical identity text of a JSON value, as both runtimes write it (src/purra/structured.py, _identity;
 typescript/src/structured.ts, identity).
 */
module JsonIdentity {
  import opened Lexical
  import opened Utf8
  import Decimal

  // ----- values -------------------------------------------------------------

  predicate Scalars(s: seq<int>) {
    forall i :: 0 <= i < |s| ==> 0 <= s[i] < CODE_POINTS && !Surrogate(s[i])
  }

  /** A text of Unicode scalar values. */
  type Text = s: seq<int> | Scalars(s) witness []

  /** A binary64 number as its eight octets, most significant first. */
  type Binary64 = b: seq<int> | |b| == 8 && Within(b, 256) witness [0, 0, 0, 0, 0, 0, 0, 0]

  const ZERO: Binary64 := [0, 0, 0, 0, 0, 0, 0, 0]
  const NEGATIVE_ZERO: Binary64 := [0x80, 0, 0, 0, 0, 0, 0, 0]

  datatype Json =
    | Null
    | Bool(b: bool)
    | Num(octets: Binary64)
    | Str(text: Text)
    | Arr(items: seq<Json>)
    | Obj(fields: map<Text, Json>)

  function Unsigned(octets: Binary64): Binary64 { if octets == NEGATIVE_ZERO then ZERO else octets }

  /** The value with every negative zero replaced by zero. */
  ghost function Normalize(v: Json): Json {
    match v
    case Num(octets) => Num(Unsigned(octets))
    case Arr(items) => Arr(seq(|items|, i requires 0 <= i < |items| => Normalize(items[i])))
    case Obj(fields) => Obj(map k | k in fields :: Normalize(fields[k]))
    case _ => v
  }

  // ----- hexadecimal text ---------------------------------------------------

  function HexChar(n: int): char
    requires 0 <= n < 16
    ensures HexChar(n) as int == HexDigit(n)
  {
    if n < 10 then '0' + n as char else 'a' + (n - 10) as char
  }

  function HexText(bytes: seq<int>): (s: string)
    requires Within(bytes, 256)
    ensures |s| == 2 * |bytes|
  {
    if bytes == [] then ""
    else [HexChar(bytes[0] / 16), HexChar(bytes[0] % 16)] + HexText(bytes[1..])
  }

  lemma {:induction false} HexTextIsHex(bytes: seq<int>)
    requires Within(bytes, 256)
    ensures Codes(HexText(bytes)) == Hex(bytes)
    decreases |bytes|
  {
    if bytes != [] {
      HexTextIsHex(bytes[1..]);
      assert Codes(HexText(bytes)) == HexPair(bytes[0]) + Codes(HexText(bytes[1..]));
    }
  }

  /** Two hexadecimal blocks of the same length at the start of equal texts stand for the same octets. */
  lemma {:induction false} HexBlocks(a: seq<int>, b: seq<int>, x: string, y: string)
    requires Within(a, 256) && Within(b, 256) && |a| == |b| && HexText(a) + x == HexText(b) + y
    ensures a == b && x == y
  {
    var n := 2 * |a|;
    assert HexText(a) == (HexText(a) + x)[..n] && HexText(b) == (HexText(b) + y)[..n];
    assert x == (HexText(a) + x)[n..] && y == (HexText(b) + y)[n..];
    HexTextIsHex(a);
    HexTextIsHex(b);
    HexKeepsOrder();
    EncodingKeepsOrder(HexPair, 256, a, b);
  }

  // ----- the two runtimes ---------------------------------------------------

  datatype Runtime = Python | TypeScript

  /** How a runtime orders object keys: by code point, or by the hexadecimal form of the UTF-8 octets. */
  predicate Before(lang: Runtime, a: Text, b: Text) {
    match lang
    case Python => Below(a, b)
    case TypeScript => Below(Hex(Bytes(a)), Hex(Bytes(b)))
  }

  ghost predicate Least(lang: Runtime, keys: set<Text>, k: Text) {
    k in keys && forall j :: j in keys && j != k ==> Before(lang, k, j)
  }

  lemma {:induction false} LeastExists(lang: Runtime, keys: set<Text>)
    requires keys != {}
    ensures exists k :: Least(lang, keys, k)
    decreases |keys|
  {
    var a :| a in keys;
    if keys == {a} {
      assert Least(lang, keys, a);
    } else {
      LeastExists(lang, keys - {a});
      var b: Text :| Least(lang, keys - {a}, b);
      OrdersCoincide(a, b);
      Total(a, b);
      if Before(lang, a, b) {
        forall j | j in keys && j != a ensures Before(lang, a, j) {
          if j != b { BeforeTwice(lang, a, b, j); }
        }
        assert Least(lang, keys, a);
      } else {
        assert Before(lang, b, a) by { OrdersCoincide(b, a); }
        assert Least(lang, keys, b);
      }
    }
  }

  lemma BeforeTwice(lang: Runtime, a: Text, b: Text, c: Text)
    requires Before(lang, a, b) && Before(lang, b, c)
    ensures Before(lang, a, c)
  {
    match lang
    case Python => Transitive(a, b, c);
    case TypeScript => Transitive(Hex(Bytes(a)), Hex(Bytes(b)), Hex(Bytes(c)));
  }

  /** Both runtimes order keys in the same way. */
  lemma RuntimesOrderAlike(a: Text, b: Text)
    ensures Before(Python, a, b) <==> Before(TypeScript, a, b)
  {
    OrdersCoincide(a, b);
  }

  lemma LeastIsUnique(lang: Runtime, keys: set<Text>, a: Text, b: Text)
    requires Least(lang, keys, a) && Least(lang, keys, b)
    ensures a == b
  {
    if a != b {
      RuntimesOrderAlike(a, b);
      RuntimesOrderAlike(b, a);
      Asymmetric(a, b);
    }
  }

  ghost function Sorted(lang: Runtime, keys: set<Text>): (r: seq<Text>)
    ensures |r| == |keys| && forall k :: k in r <==> k in keys
    decreases |keys|
  {
    if keys == {} then []
    else
      LeastExists(lang, keys);
      var k :| Least(lang, keys, k);
      [k] + Sorted(lang, keys - {k})
  }

  lemma {:induction false} RuntimesSortAlike(keys: set<Text>)
    ensures Sorted(Python, keys) == Sorted(TypeScript, keys)
    decreases |keys|
  {
    if keys != {} {
      var (a, b) := (Sorted(Python, keys)[0], Sorted(TypeScript, keys)[0]);
      assert Least(Python, keys, a) && Least(TypeScript, keys, b);
      forall j | j in keys && j != b ensures Before(Python, b, j) { RuntimesOrderAlike(b, j); }
      LeastIsUnique(Python, keys, a, b);
      RuntimesSortAlike(keys - {a});
    }
  }

  // ----- the encoding -------------------------------------------------------

  function TextBody(text: Text): string {
    BytesAreBytes(text);
    "s" + Decimal.Digits(|Bytes(text)|) + [':'] + HexText(Bytes(text))
  }

  ghost function Identity(lang: Runtime, v: Json): string
    decreases v
  {
    match v
    case Null => "n"
    case Bool(b) => if b then "t" else "f"
    case Num(octets) => "d" + HexText(Unsigned(octets))
    case Str(text) => TextBody(text)
    case Arr(items) => "a" + Decimal.Digits(|items|) + [':'] + Items(lang, v, 0)
    case Obj(fields) => "o" + Decimal.Digits(|fields|) + [':'] + Fields(lang, v, Sorted(lang, fields.Keys))
  }

  ghost function Items(lang: Runtime, v: Json, i: nat): string
    requires v.Arr? && i <= |v.items|
    decreases v, |v.items| - i
  {
    if i == |v.items| then "" else Identity(lang, v.items[i]) + Items(lang, v, i + 1)
  }

  ghost function Fields(lang: Runtime, v: Json, keys: seq<Text>): string
    requires v.Obj? && forall k :: k in keys ==> k in v.fields
    decreases v, |keys|
  {
    if keys == [] then ""
    else TextBody(keys[0]) + Identity(lang, v.fields[keys[0]]) + Fields(lang, v, keys[1..])
  }

  // ----- both runtimes write the same text ----------------------------------

  lemma {:induction false} RuntimesAgree(v: Json)
    ensures Identity(Python, v) == Identity(TypeScript, v)
    decreases v
  {
    if v.Arr? { RuntimesAgreeOnItems(v, 0); }
    if v.Obj? {
      RuntimesSortAlike(v.fields.Keys);
      RuntimesAgreeOnFields(v, Sorted(Python, v.fields.Keys));
    }
  }

  lemma {:induction false} RuntimesAgreeOnItems(v: Json, i: nat)
    requires v.Arr? && i <= |v.items|
    ensures Items(Python, v, i) == Items(TypeScript, v, i)
    decreases v, |v.items| - i
  {
    if i < |v.items| {
      RuntimesAgree(v.items[i]);
      RuntimesAgreeOnItems(v, i + 1);
    }
  }

  lemma {:induction false} RuntimesAgreeOnFields(v: Json, keys: seq<Text>)
    requires v.Obj? && forall k :: k in keys ==> k in v.fields
    ensures Fields(Python, v, keys) == Fields(TypeScript, v, keys)
    decreases v, |keys|
  {
    if keys != [] {
      RuntimesAgree(v.fields[keys[0]]);
      RuntimesAgreeOnFields(v, keys[1..]);
    }
  }

  // ----- reading an identity back -------------------------------------------

  /** A length prefix can be read back. */
  lemma LengthsAgree(tag: string, m: nat, n: nat, x: string, y: string)
    requires |tag| == 1 && tag + Decimal.Digits(m) + [':'] + x == tag + Decimal.Digits(n) + [':'] + y
    ensures m == n && x == y
  {
    var (left, right) := (tag + Decimal.Digits(m) + [':'] + x, tag + Decimal.Digits(n) + [':'] + y);
    assert left[1..] == Decimal.Digits(m) + [':'] + x && right[1..] == Decimal.Digits(n) + [':'] + y;
    Decimal.NumeralsArePrefixFree(Decimal.Digits(m), Decimal.Digits(n), ':', x, y);
    Decimal.DigitsInjective(m, n);
  }

  lemma TextsAgree(a: Text, b: Text, x: string, y: string)
    requires TextBody(a) + x == TextBody(b) + y
    ensures a == b && x == y
  {
    BytesAreBytes(a);
    BytesAreBytes(b);
    var (hexA, hexB) := (HexText(Bytes(a)), HexText(Bytes(b)));
    assert TextBody(a) + x == "s" + Decimal.Digits(|Bytes(a)|) + [':'] + (hexA + x);
    assert TextBody(b) + y == "s" + Decimal.Digits(|Bytes(b)|) + [':'] + (hexB + y);
    LengthsAgree("s", |Bytes(a)|, |Bytes(b)|, hexA + x, hexB + y);
    HexBlocks(Bytes(a), Bytes(b), x, y);
    OrdersCoincide(a, b);
  }

  /** The first character of an identity. */
  ghost function Tag(v: Json): char {
    match v
    case Null => 'n'
    case Bool(b) => if b then 't' else 'f'
    case Num(_) => 'd'
    case Str(_) => 's'
    case Arr(_) => 'a'
    case Obj(_) => 'o'
  }

  lemma IdentityStartsWithTag(lang: Runtime, v: Json, x: string)
    ensures Identity(lang, v) != "" && (Identity(lang, v) + x)[0] == Tag(v)
  {
  }

  lemma SameTag(lang: Runtime, v: Json, w: Json, x: string, y: string)
    requires Identity(lang, v) + x == Identity(lang, w) + y
    ensures Tag(v) == Tag(w)
  {
    IdentityStartsWithTag(lang, v, x);
    IdentityStartsWithTag(lang, w, y);
  }

  /** No identity is the start of another one: what follows an identity is determined, and so is the value. */
  lemma {:induction false} IdentitiesArePrefixFree(lang: Runtime, v: Json, w: Json, x: string, y: string)
    requires Identity(lang, v) + x == Identity(lang, w) + y
    ensures Normalize(v) == Normalize(w) && x == y
    decreases v
  {
    SameTag(lang, v, w, x, y);
    match v
    case Null => LettersAgree("n", x, y);
    case Bool(b) => LettersAgree(if b then "t" else "f", x, y);
    case Num(octets) => NumbersAgree(octets, w.octets, x, y);
    case Str(text) => TextsAgree(text, w.text, x, y);
    case Arr(items) => ArraysAgree(lang, v, w, x, y);
    case Obj(fields) => ObjectsAgree(lang, v, w, x, y);
  }

  lemma LettersAgree(s: string, x: string, y: string)
    requires s + x == s + y
    ensures x == y
  {
    assert x == (s + x)[|s|..] && y == (s + y)[|s|..];
  }

  lemma NumbersAgree(a: Binary64, b: Binary64, x: string, y: string)
    requires "d" + HexText(Unsigned(a)) + x == "d" + HexText(Unsigned(b)) + y
    ensures Unsigned(a) == Unsigned(b) && x == y
  {
    assert ("d" + HexText(Unsigned(a)) + x)[1..] == HexText(Unsigned(a)) + x;
    assert ("d" + HexText(Unsigned(b)) + y)[1..] == HexText(Unsigned(b)) + y;
    HexBlocks(Unsigned(a), Unsigned(b), x, y);
  }

  lemma {:induction false} ArraysAgree(lang: Runtime, v: Json, w: Json, x: string, y: string)
    requires v.Arr? && w.Arr? && Identity(lang, v) + x == Identity(lang, w) + y
    ensures Normalize(v) == Normalize(w) && x == y
    decreases v, 1, 0
  {
    assert Identity(lang, v) + x == "a" + Decimal.Digits(|v.items|) + [':'] + (Items(lang, v, 0) + x);
    assert Identity(lang, w) + y == "a" + Decimal.Digits(|w.items|) + [':'] + (Items(lang, w, 0) + y);
    LengthsAgree("a", |v.items|, |w.items|, Items(lang, v, 0) + x, Items(lang, w, 0) + y);
    ItemsAgree(lang, v, w, 0, x, y);
  }

  lemma {:induction false} ItemsAgree(lang: Runtime, v: Json, w: Json, i: nat, x: string, y: string)
    requires v.Arr? && w.Arr? && |v.items| == |w.items| && i <= |v.items|
    requires Items(lang, v, i) + x == Items(lang, w, i) + y
    ensures x == y && forall j :: i <= j < |v.items| ==> Normalize(v.items[j]) == Normalize(w.items[j])
    decreases v, 0, |v.items| - i
  {
    hide Identity, Normalize;
    if i == |v.items| {
      assert "" + x == x && "" + y == y;
    } else {
      var (restV, restW) := (Items(lang, v, i + 1), Items(lang, w, i + 1));
      Associate(Identity(lang, v.items[i]), restV, x);
      Associate(Identity(lang, w.items[i]), restW, y);
      ItemIsSmaller(v, i);
      IdentitiesArePrefixFree(lang, v.items[i], w.items[i], restV + x, restW + y);
      ItemsAgree(lang, v, w, i + 1, x, y);
    }
  }

  lemma Associate(a: string, b: string, c: string)
    ensures a + b + c == a + (b + c)
  {
  }

  lemma ItemIsSmaller(v: Json, i: nat)
    requires v.Arr? && i < |v.items|
    ensures v.items[i] < v
  {
  }

  lemma Regroup(a: string, b: string, c: string, d: string)
    ensures a + b + c + d == a + (b + (c + d))
  {
  }

  lemma ObjectsAgreeOnLength(lang: Runtime, v: Json, w: Json, x: string, y: string)
    requires v.Obj? && w.Obj? && Identity(lang, v) + x == Identity(lang, w) + y
    ensures |v.fields| == |w.fields|
    ensures Fields(lang, v, Sorted(lang, v.fields.Keys)) + x == Fields(lang, w, Sorted(lang, w.fields.Keys)) + y
  {
    hide Fields, Sorted;
    var (f, g) := (Fields(lang, v, Sorted(lang, v.fields.Keys)), Fields(lang, w, Sorted(lang, w.fields.Keys)));
    Regroup("o" + Decimal.Digits(|v.fields|), [':'], f, x);
    Regroup("o" + Decimal.Digits(|w.fields|), [':'], g, y);
    assert "o" + Decimal.Digits(|v.fields|) + [':'] + (f + x) == "o" + Decimal.Digits(|v.fields|) + ([':'] + (f + x));
    assert "o" + Decimal.Digits(|w.fields|) + [':'] + (g + y) == "o" + Decimal.Digits(|w.fields|) + ([':'] + (g + y));
    LengthsAgree("o", |v.fields|, |w.fields|, f + x, g + y);
  }

  lemma {:induction false} ObjectsAgree(lang: Runtime, v: Json, w: Json, x: string, y: string)
    requires v.Obj? && w.Obj? && Identity(lang, v) + x == Identity(lang, w) + y
    ensures Normalize(v) == Normalize(w) && x == y
    decreases v, 1, 0
  {
    var (ks, ls) := (Sorted(lang, v.fields.Keys), Sorted(lang, w.fields.Keys));
    ObjectsAgreeOnLength(lang, v, w, x, y);
    FieldsAgree(lang, v, w, ks, ls, x, y);
    hide Identity, Fields, Sorted;
    SameKeys(lang, v.fields.Keys, w.fields.Keys);
    SameFields(v, w);
  }

  lemma SameKeys(lang: Runtime, a: set<Text>, b: set<Text>)
    requires Sorted(lang, a) == Sorted(lang, b)
    ensures a == b
  {
    assert forall k :: k in a <==> k in Sorted(lang, a);
    assert forall k :: k in b <==> k in Sorted(lang, b);
  }

  lemma SameFields(v: Json, w: Json)
    requires v.Obj? && w.Obj? && v.fields.Keys == w.fields.Keys
    requires forall k :: k in v.fields ==> Normalize(v.fields[k]) == Normalize(w.fields[k])
    ensures Normalize(v) == Normalize(w)
  {
    hide Normalize;
    assert NormalFieldsOf(v) == NormalFieldsOf(w);
    NormalObject(v);
    NormalObject(w);
  }

  ghost function NormalFieldsOf(v: Json): map<Text, Json>
    requires v.Obj?
  {
    map k | k in v.fields :: Normalize(v.fields[k])
  }

  lemma NormalObject(v: Json)
    requires v.Obj?
    ensures Normalize(v) == Obj(NormalFieldsOf(v))
  {
  }

  lemma FieldIsSmaller(v: Json, k: Text)
    requires v.Obj? && k in v.fields
    ensures v.fields[k] < v
  {
  }

  lemma {:induction false} FieldsAgree(lang: Runtime, v: Json, w: Json, ks: seq<Text>, ls: seq<Text>, x: string, y: string)
    requires v.Obj? && w.Obj? && |ks| == |ls|
    requires (forall k :: k in ks ==> k in v.fields) && (forall k :: k in ls ==> k in w.fields)
    requires Fields(lang, v, ks) + x == Fields(lang, w, ls) + y
    ensures x == y && ks == ls && forall k :: k in ks ==> Normalize(v.fields[k]) == Normalize(w.fields[k])
    decreases v, 0, |ks|
  {
    hide Identity, TextBody, Normalize;
    if ks == [] {
      assert "" + x == x && "" + y == y;
    } else {
      var (a, b) := (v.fields[ks[0]], w.fields[ls[0]]);
      FieldIsSmaller(v, ks[0]);
      var (restV, restW) := (Fields(lang, v, ks[1..]), Fields(lang, w, ls[1..]));
      Regroup(TextBody(ks[0]), Identity(lang, a), restV, x);
      Regroup(TextBody(ls[0]), Identity(lang, b), restW, y);
      TextsAgree(ks[0], ls[0], Identity(lang, a) + (restV + x), Identity(lang, b) + (restW + y));
      IdentitiesArePrefixFree(lang, a, b, restV + x, restW + y);
      FieldsAgree(lang, v, w, ks[1..], ls[1..], x, y);
      assert ks == [ks[0]] + ks[1..] && ls == [ls[0]] + ls[1..];
    }
  }

  // ----- injectivity --------------------------------------------------------

  lemma {:induction false} NormalFormHasSameIdentity(lang: Runtime, v: Json)
    ensures Identity(lang, Normalize(v)) == Identity(lang, v)
    decreases v
  {
    var n := Normalize(v);
    if v.Arr? { NormalItems(lang, v, 0); }
    if v.Obj? {
      assert n.fields.Keys == v.fields.Keys;
      NormalFields(lang, v, Sorted(lang, v.fields.Keys));
      assert |n.fields| == |n.fields.Keys| == |v.fields|;
    }
  }

  lemma {:induction false} NormalItems(lang: Runtime, v: Json, i: nat)
    requires v.Arr? && i <= |v.items|
    ensures Items(lang, Normalize(v), i) == Items(lang, v, i)
    decreases v, |v.items| - i
  {
    if i < |v.items| {
      NormalFormHasSameIdentity(lang, v.items[i]);
      NormalItems(lang, v, i + 1);
    }
  }

  lemma {:induction false} NormalFields(lang: Runtime, v: Json, keys: seq<Text>)
    requires v.Obj? && forall k :: k in keys ==> k in v.fields
    ensures Fields(lang, Normalize(v), keys) == Fields(lang, v, keys)
    decreases v, |keys|
  {
    if keys != [] {
      NormalFormHasSameIdentity(lang, v.fields[keys[0]]);
      NormalFields(lang, v, keys[1..]);
    }
  }

  /** Two values have the same identity, whichever runtime wrote each, exactly when they are the same JSON. */
  lemma IdentityIsInjective(one: Runtime, other: Runtime, v: Json, w: Json)
    ensures Identity(one, v) == Identity(other, w) <==> Normalize(v) == Normalize(w)
  {
    RuntimesAgree(v);
    RuntimesAgree(w);
    NormalFormHasSameIdentity(one, v);
    NormalFormHasSameIdentity(one, w);
    if Identity(one, v) == Identity(one, w) {
      assert Identity(one, v) + "" == Identity(one, w) + "";
      IdentitiesArePrefixFree(one, v, w, "", "");
    }
  }
}
