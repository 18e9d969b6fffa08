/**
 The bounded copy of a JSON value that both runtimes take before they write its identity (src/purra/structured.py,
 _snapshot; typescript/src/structured.ts, snapshot).
 */
module JsonSnapshot {
  import opened JsonIdentity
  import opened Utf8

  /** A value as a caller hands it over: the entries of a mapping have an order, and no key twice. */
  datatype Raw =
    | Scalar(value: Json)
    | List(items: seq<Raw>)
    | Dict(entries: seq<(Text, Raw)>)

  ghost predicate Proper(r: Raw) {
    match r
    case Scalar(v) => !v.Arr? && !v.Obj?
    case List(items) => forall i :: 0 <= i < |items| ==> Proper(items[i])
    case Dict(entries) =>
      && (forall i :: 0 <= i < |entries| ==> Proper(entries[i].1))
      && (forall i, j :: 0 <= i < j < |entries| ==> entries[i].0 != entries[j].0)
  }

  /** The JSON value a raw value stands for. */
  ghost function Meaning(r: Raw): Json
    decreases r
  {
    match r
    case Scalar(v) => v
    case List(items) => Arr(seq(|items|, i requires 0 <= i < |items| => Meaning(items[i])))
    case Dict(entries) => Obj(MeaningUpTo(r, |entries|))
  }

  ghost function MeaningUpTo(r: Raw, n: nat): map<Text, Json>
    requires r.Dict? && n <= |r.entries|
    decreases r, n
  {
    if n == 0 then map[] else MeaningUpTo(r, n - 1)[r.entries[n - 1].0 := Meaning(r.entries[n - 1].1)]
  }

  // ----- what a value costs -------------------------------------------------

  /** Octets of a character inside a JSON string literal. */
  function LiteralOctets(c: int): nat {
    if c == 0x22 || c == 0x5C || c == 8 || c == 9 || c == 10 || c == 12 || c == 13 then 2
    else if c < 0x20 then 6
    else |Octets(c)|
  }

  function LiteralBody(s: seq<int>): nat { if s == [] then 0 else LiteralBody(s[..|s| - 1]) + LiteralOctets(s[|s| - 1]) }

  function LiteralBytes(text: Text): nat { 2 + LiteralBody(text) }

  /** Nodes, nesting below this value, bytes reserved, and whether every number is interoperable. */
  datatype Cost = Cost(nodes: nat, height: nat, bytes: nat, numbers: bool)

  const NOTHING := Cost(0, 0, 0, true)

  /** A value and one more child, or a key, below it. */
  function Beside(a: Cost, child: Cost): Cost {
    Cost(a.nodes + child.nodes, if a.height > child.height then a.height else child.height + 1, a.bytes + child.bytes,
         a.numbers && child.numbers)
  }

  function ScalarCost(v: Json, interoperable: Binary64 -> bool): Cost {
    match v
    case Str(text) => Cost(1, 0, LiteralBytes(text), true)
    case Num(octets) => Cost(1, 0, 24, interoperable(octets))
    case _ => Cost(1, 0, 5, true)
  }

  function Around(inner: Cost, children: nat): Cost {
    Cost(inner.nodes + 1, inner.height, inner.bytes + 2 + 2 * children, inner.numbers)
  }

  ghost function CostOf(r: Raw, interoperable: Binary64 -> bool): Cost
    decreases r
  {
    match r
    case Scalar(v) => ScalarCost(v, interoperable)
    case List(items) => Around(Below(r, |items|, interoperable), |items|)
    case Dict(entries) => Around(Below(r, |entries|, interoperable), |entries|)
  }

  /** The cost of the first `n` children. */
  ghost function Below(r: Raw, n: nat, interoperable: Binary64 -> bool): Cost
    requires (r.List? && n <= |r.items|) || (r.Dict? && n <= |r.entries|)
    decreases r, n
  {
    if n == 0 then NOTHING
    else if r.List? then Beside(Below(r, n - 1, interoperable), CostOf(r.items[n - 1], interoperable))
    else
      Beside(Beside(Below(r, n - 1, interoperable), ScalarCost(Str(r.entries[n - 1].0), interoperable)),
             CostOf(r.entries[n - 1].1, interoperable))
  }

  datatype Limits = Limits(depth: nat, bytes: nat)

  predicate Fits(c: Cost, limits: Limits, level: nat, remaining: int, bytes: nat) {
    c.numbers && c.nodes <= remaining && level + c.height <= limits.depth && bytes + c.bytes <= limits.bytes
  }

  predicate AtMost(a: Cost, b: Cost) {
    a.nodes <= b.nodes && a.height <= b.height && a.bytes <= b.bytes && (b.numbers ==> a.numbers)
  }

  lemma {:induction false} BelowGrows(r: Raw, m: nat, n: nat, interoperable: Binary64 -> bool)
    requires m <= n && ((r.List? && n <= |r.items|) || (r.Dict? && n <= |r.entries|))
    ensures AtMost(Below(r, m, interoperable), Below(r, n, interoperable))
    decreases n - m
  {
    if m < n { BelowGrows(r, m, n - 1, interoperable); }
  }

  lemma {:induction false} LiteralsAreLong(s: seq<int>)
    ensures |s| <= LiteralBody(s)
    decreases |s|
  {
    if s != [] { LiteralsAreLong(s[..|s| - 1]); }
  }

  // ----- the copy -----------------------------------------------------------

  /**
   Copies a value, counting down nodes and counting up bytes as it goes.  It succeeds exactly when the value fits
   the limits, and then the copy is the normal form of the value.
   */
  method Visit(item: Raw, limits: Limits, level: nat, remaining: int, bytes: nat, interoperable: Binary64 -> bool)
    returns (ok: bool, copy: Json, remaining': int, bytes': nat)
    requires Proper(item) && 0 <= remaining && bytes <= limits.bytes
    ensures ok <==> Fits(CostOf(item, interoperable), limits, level, remaining, bytes)
    ensures ok ==> copy == Normalize(Meaning(item)) && 0 <= remaining' && bytes' <= limits.bytes
    ensures ok ==> var c := CostOf(item, interoperable); remaining' == remaining - c.nodes && bytes' == bytes + c.bytes
    decreases item
  {
    copy, remaining', bytes' := Null, remaining - 1, bytes;
    if remaining' < 0 || level > limits.depth { return false, copy, remaining', bytes'; }
    match item {
      case Scalar(v) => ok, copy, bytes' := VisitScalar(v, limits, bytes, interoperable);
      case List(items) => ok, copy, remaining', bytes' := VisitList(item, limits, level, remaining, bytes, interoperable);
      case Dict(entries) => ok, copy, remaining', bytes' := VisitDict(item, limits, level, remaining, bytes, interoperable);
    }
  }

  method VisitScalar(v: Json, limits: Limits, bytes: nat, interoperable: Binary64 -> bool)
    returns (ok: bool, copy: Json, bytes': nat)
    requires !v.Arr? && !v.Obj?
    ensures ok <==> ScalarCost(v, interoperable).numbers && bytes + ScalarCost(v, interoperable).bytes <= limits.bytes
    ensures ok ==> copy == Normalize(v) && bytes' == bytes + ScalarCost(v, interoperable).bytes
  {
    copy, bytes' := v, bytes;
    if v.Str? {
      LiteralsAreLong(v.text);
      if |v.text| > limits.bytes { return false, copy, bytes'; }
      var literal := CountLiteral(v.text);
      bytes' := bytes + literal;
    } else if v.Num? {
      if !interoperable(v.octets) { return false, copy, bytes'; }
      copy := Num(Unsigned(v.octets));
      bytes' := bytes + 24;
    } else {
      bytes' := bytes + 5;
    }
    ok := bytes' <= limits.bytes;
  }

  method CountLiteral(text: Text) returns (n: nat)
    ensures n == LiteralBytes(text)
  {
    n := 2;
    var i := 0;
    while i < |text|
      invariant i <= |text| && n == 2 + LiteralBody(text[..i])
    {
      assert text[..i + 1][..i] == text[..i];
      n := n + LiteralOctets(text[i]);
      i := i + 1;
    }
    assert text[..i] == text;
  }

  method VisitList(item: Raw, limits: Limits, level: nat, remaining: int, bytes: nat, interoperable: Binary64 -> bool)
    returns (ok: bool, copy: Json, remaining': int, bytes': nat)
    requires item.List? && Proper(item) && 1 <= remaining && bytes <= limits.bytes && level <= limits.depth
    ensures ok <==> Fits(CostOf(item, interoperable), limits, level, remaining, bytes)
    ensures ok ==> copy == Normalize(Meaning(item)) && 0 <= remaining' && bytes' <= limits.bytes
    ensures ok ==> var c := CostOf(item, interoperable); remaining' == remaining - c.nodes && bytes' == bytes + c.bytes
    decreases item, 0
  {
    var items := item.items;
    remaining', bytes' := remaining - 1, bytes;
    var copies: seq<Json> := [];
    var i := 0;
    while i < |items|
      invariant i <= |items| == |item.items| && |copies| == i
      invariant Fits(Below(item, i, interoperable), limits, level, remaining - 1, bytes)
      invariant remaining' == remaining - 1 - Below(item, i, interoperable).nodes
      invariant bytes' == bytes + Below(item, i, interoperable).bytes
      invariant forall j :: 0 <= j < i ==> copies[j] == Normalize(Meaning(items[j]))
    {
      var child;
      BelowGrows(item, i + 1, |items|, interoperable);
      ok, child, remaining', bytes' := Visit(items[i], limits, level + 1, remaining', bytes', interoperable);
      if !ok { return false, Null, remaining', bytes'; }
      copies := copies + [child];
      i := i + 1;
    }
    bytes' := bytes' + 2 + 2 * |items|;
    copy := Arr(copies);
    assert copies == Normalize(Meaning(item)).items;
    ok := bytes' <= limits.bytes;
  }

  method VisitEntry(entry: (Text, Raw), limits: Limits, level: nat, remaining: int, bytes: nat,
                    interoperable: Binary64 -> bool)
    returns (ok: bool, copy: Json, remaining': int, bytes': nat)
    requires Proper(entry.1) && 0 <= remaining && bytes <= limits.bytes
    ensures var c := Beside(Beside(NOTHING, ScalarCost(Str(entry.0), interoperable)), CostOf(entry.1, interoperable));
      && (ok <==> Fits(c, limits, level, remaining, bytes))
      && (ok ==> remaining' == remaining - c.nodes && bytes' == bytes + c.bytes)
    ensures ok ==> copy == Normalize(Meaning(entry.1)) && 0 <= remaining' && bytes' <= limits.bytes
    decreases entry
  {
    hide Normalize, Meaning, Proper, CostOf;
    copy, remaining', bytes' := Null, remaining - 1, bytes;
    if remaining' < 0 || level + 1 > limits.depth { return false, copy, remaining', bytes'; }
    var name;
    ok, name, bytes' := VisitScalar(Str(entry.0), limits, bytes, interoperable);
    if !ok { return false, copy, remaining', bytes'; }
    ok, copy, remaining', bytes' := Visit(entry.1, limits, level + 1, remaining', bytes', interoperable);
  }

  method VisitDict(item: Raw, limits: Limits, level: nat, remaining: int, bytes: nat, interoperable: Binary64 -> bool)
    returns (ok: bool, copy: Json, remaining': int, bytes': nat)
    requires item.Dict? && Proper(item) && 1 <= remaining && bytes <= limits.bytes && level <= limits.depth
    ensures ok <==> Fits(CostOf(item, interoperable), limits, level, remaining, bytes)
    ensures ok ==> copy == Normalize(Meaning(item)) && 0 <= remaining' && bytes' <= limits.bytes
    ensures ok ==> var c := CostOf(item, interoperable); remaining' == remaining - c.nodes && bytes' == bytes + c.bytes
    decreases item, 0
  {
    hide Normalize, LiteralBytes, Meaning;
    var entries := item.entries;
    remaining', bytes' := remaining - 1, bytes;
    var copies: map<Text, Json> := map[];
    var i := 0;
    while i < |entries|
      invariant i <= |entries| == |item.entries|
      invariant Fits(Below(item, i, interoperable), limits, level, remaining - 1, bytes)
      invariant remaining' == remaining - 1 - Below(item, i, interoperable).nodes
      invariant bytes' == bytes + Below(item, i, interoperable).bytes
      invariant copies == NormalUpTo(item, i)
    {
      BelowGrows(item, i + 1, |entries|, interoperable);
      var child;
      ok, child, remaining', bytes' := VisitEntry(entries[i], limits, level, remaining', bytes', interoperable);
      if !ok { return false, Null, remaining', bytes'; }
      copies := copies[entries[i].0 := child];
      i := i + 1;
    }
    bytes' := bytes' + 2 + 2 * |entries|;
    DictMeaning(item);
    copy := Obj(copies);
    ok := bytes' <= limits.bytes;
  }

  ghost function NormalUpTo(r: Raw, n: nat): map<Text, Json>
    requires r.Dict? && n <= |r.entries|
  {
    if n == 0 then map[] else NormalUpTo(r, n - 1)[r.entries[n - 1].0 := Normalize(Meaning(r.entries[n - 1].1))]
  }

  lemma {:induction false} NormalEntries(r: Raw, n: nat)
    requires r.Dict? && n <= |r.entries|
    ensures NormalUpTo(r, n).Keys == MeaningUpTo(r, n).Keys
    ensures forall k :: k in MeaningUpTo(r, n) ==> NormalUpTo(r, n)[k] == Normalize(MeaningUpTo(r, n)[k])
  {
    hide Normalize, Meaning;
    if n > 0 { NormalEntries(r, n - 1); }
  }

  lemma NormalMeaning(r: Raw, n: nat)
    requires r.Dict? && n <= |r.entries|
    ensures Obj(NormalUpTo(r, n)) == Normalize(Obj(MeaningUpTo(r, n)))
  {
    hide NormalUpTo, MeaningUpTo;
    NormalEntries(r, n);
    assert NormalUpTo(r, n) == map k | k in MeaningUpTo(r, n) :: Normalize(MeaningUpTo(r, n)[k]);
  }

  lemma DictMeaning(r: Raw)
    requires r.Dict?
    ensures Normalize(Meaning(r)) == Obj(NormalUpTo(r, |r.entries|))
  {
    hide Normalize, NormalUpTo;
    NormalMeaning(r, |r.entries|);
  }

  /** Snapshot and identity together: whether two runtimes agree depends on the JSON meant and on nothing else. */
  lemma SnapshotsKeepIdentity(lang: Runtime, other: Runtime, a: Raw, b: Raw)
    ensures Identity(lang, Normalize(Meaning(a))) == Identity(other, Normalize(Meaning(b)))
       <==> Normalize(Meaning(a)) == Normalize(Meaning(b))
  {
    NormalFormHasSameIdentity(lang, Meaning(a));
    NormalFormHasSameIdentity(other, Meaning(b));
    IdentityIsInjective(lang, other, Meaning(a), Meaning(b));
  }
}
