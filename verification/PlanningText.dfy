/**
 The incremental projection of a progress record's text (src/purra/planning_stream.py, PlanningTextDeltaParser).
 A text is the sequence of its code points.
 */
module PlanningText {
  import opened Prelude
  import opened Lexical
  import opened Utf8

  const QUOTE := 34
  const BACKSLASH := 92

  const PREFIX: seq<int> := Codes("{\"v\":1,\"type\":\"progress\",\"text\":\"")

  /** What a short escape stands for. */
  function Escape(c: int): Option<int> {
    if c == 34 || c == 92 || c == 47 then Some(c)
    else if c == 98 then Some(8)
    else if c == 102 then Some(12)
    else if c == 110 then Some(10)
    else if c == 114 then Some(13)
    else if c == 116 then Some(9)
    else None
  }

  function HexValue(c: int): Option<int> {
    if 48 <= c <= 57 then Some(c - 48)
    else if 97 <= c <= 102 then Some(c - 87)
    else if 65 <= c <= 70 then Some(c - 55)
    else None
  }

  datatype Mode =
    | Skip | Prefix | Text | InEscape | Unicode | LowSlash | LowU | LowUnicode | Suffix | Newline
  {
    /** Characters read in this mode belong to the text of a progress record. */
    predicate InText() { Text? || InEscape? || Unicode? || LowSlash? || LowU? || LowUnicode? }
  }

  /** The parser between two characters; `hex` holds the values of the hexadecimal digits read so far. */
  datatype State = State(mode: Mode, prefixIndex: nat, record: pos, hex: seq<int>, high: Option<int>) {
    predicate Valid() {
      && (mode.Prefix? ==> prefixIndex < |PREFIX|)
      && ((mode.Unicode? || mode.LowUnicode?) ==> |hex| < 4)
      && (mode.LowSlash? || mode.LowU? || mode.LowUnicode? ==> high.Some? && 0xD800 <= high.value <= 0xDBFF)
      && (forall h :: h in hex ==> 0 <= h < 16)
    }
  }

  const START := State(Prefix, 0, 1, [], None)

  function AfterLine(s: State): State { State(Prefix, 0, s.record + 1, [], None) }

  function Number(hex: seq<int>): int { if hex == [] then 0 else 16 * Number(hex[..|hex| - 1]) + hex[|hex| - 1] }

  function Combined(high: int, low: int): int { 0x10000 + (high - 0xD800) * 0x400 + low - 0xDC00 }

  /** One character: the next state and the character it emits, if any. */
  function Step(s: State, c: int): (State, Option<int>) {
    match s.mode
    case Skip => (if c == LF then AfterLine(s) else s, None)
    case Prefix =>
      if s.prefixIndex < |PREFIX| && c == PREFIX[s.prefixIndex] then
        (s.(prefixIndex := s.prefixIndex + 1, mode := if s.prefixIndex + 1 == |PREFIX| then Text else Prefix), None)
      else (if c == LF then AfterLine(s) else s.(mode := Skip), None)
    case InEscape =>
      if c == 117 then (s.(hex := [], mode := Unicode), None)
      else if Escape(c).Some? then (s.(mode := Text), Escape(c))
      else (s.(mode := Skip), None)
    case Unicode =>
      if HexValue(c).None? then (s.(mode := Skip), None)
      else
        var hex := s.hex + [HexValue(c).value];
        var value := Number(hex);
        if |hex| < 4 then (s.(hex := hex), None)
        else if 0xD800 <= value <= 0xDBFF then (s.(hex := hex, high := Some(value), mode := LowSlash), None)
        else if 0xDC00 <= value <= 0xDFFF then (s.(hex := hex, mode := Skip), None)
        else (s.(hex := hex, mode := Text), Some(value))
    case LowSlash => (s.(mode := if c == BACKSLASH then LowU else Skip), None)
    case LowU => (if c == 117 then s.(hex := [], mode := LowUnicode) else s.(mode := Skip), None)
    case LowUnicode =>
      if HexValue(c).None? then (s.(mode := Skip), None)
      else
        var hex := s.hex + [HexValue(c).value];
        var low := Number(hex);
        if |hex| < 4 then (s.(hex := hex), None)
        else if s.high.None? || !(0xDC00 <= low <= 0xDFFF) then (s.(hex := hex, mode := Skip), None)
        else (s.(hex := hex, high := None, mode := Text), Some(Combined(s.high.value, low)))
    case Suffix => (s.(mode := if c == 125 then Newline else Skip), None)
    case Newline => (if c == LF then AfterLine(s) else s.(mode := Skip), None)
    case Text =>
      if c == BACKSLASH then (s.(mode := InEscape), None)
      else if c == QUOTE then (s.(mode := Suffix), None)
      else if c < 32 || Surrogate(c) then (s.(mode := Skip), None)
      else (s, Some(c))
  }

  /** A character of a progress text, with the number of its record. */
  datatype Emission = Emission(c: int, record: pos)

  function Emitted(s: State, c: int): seq<Emission> {
    var out := Step(s, c).1;
    if out.Some? then [Emission(out.value, s.record)] else []
  }

  function Run(s: State, text: seq<int>): State {
    if text == [] then s else Step(Run(s, text[..|text| - 1]), text[|text| - 1]).0
  }

  function Output(s: State, text: seq<int>): seq<Emission> {
    if text == [] then []
    else
      var (init, last) := (text[..|text| - 1], text[|text| - 1]);
      Output(s, init) + Emitted(Run(s, init), last)
  }

  // ----- chunks -------------------------------------------------------------

  /** Reading on from where a first part ended is reading both parts at once. */
  lemma {:induction false} RunsOn(s: State, a: seq<int>, b: seq<int>)
    ensures Run(s, a + b) == Run(Run(s, a), b)
    ensures Output(s, a + b) == Output(s, a) + Output(Run(s, a), b)
    decreases |b|
  {
    if b == [] {
      assert a + b == a;
    } else {
      assert (a + b)[..|a + b| - 1] == a + b[..|b| - 1];
      RunsOn(s, a, b[..|b| - 1]);
    }
  }

  /** What the parser says when a text arrives in chunks. */
  function OutputOfChunks(s: State, chunks: seq<seq<int>>): seq<Emission>
    decreases |chunks|
  {
    if chunks == [] then [] else Output(s, chunks[0]) + OutputOfChunks(Run(s, chunks[0]), chunks[1..])
  }

  /** The output does not depend on how the text is cut into chunks. */
  lemma {:induction false} ChunksDoNotMatter(s: State, chunks: seq<seq<int>>)
    ensures OutputOfChunks(s, chunks) == Output(s, Concat(chunks))
    decreases |chunks|
  {
    if chunks != [] {
      RunsOn(s, chunks[0], Concat(chunks[1..]));
      ChunksDoNotMatter(Run(s, chunks[0]), chunks[1..]);
    }
  }

  lemma StepIsValid(s: State, c: int)
    requires s.Valid()
    ensures Step(s, c).0.Valid()
  {
    hide PREFIX, Number, Combined, Escape;
    PrefixNotEmpty();
  }

  lemma {:induction false} RunIsValid(s: State, text: seq<int>)
    requires s.Valid()
    ensures Run(s, text).Valid()
    decreases |text|
  {
    hide Step, PREFIX;
    if text != [] {
      var init := text[..|text| - 1];
      RunIsValid(s, init);
      StepIsValid(Run(s, init), text[|text| - 1]);
    }
  }

  // ----- a legal text comes out exactly --------------------------------------

  /** One character of a JSON string literal, in one of the spellings of section 7 of RFC 8259. */
  datatype Piece =
    | Raw(c: int)
    | Short(letter: int)
    | Escaped(digits: seq<int>)
    | Pair(first: seq<int>, second: seq<int>)

  predicate FourDigits(digits: seq<int>) { |digits| == 4 && forall d :: d in digits ==> HexValue(d).Some? }

  function Values(digits: seq<int>): seq<int>
    requires forall d :: d in digits ==> HexValue(d).Some?
  {
    seq(|digits|, i requires 0 <= i < |digits| => HexValue(digits[i]).value)
  }

  predicate Legal(p: Piece) {
    match p
    case Raw(c) => 32 <= c < 0x110000 && c != QUOTE && c != BACKSLASH && !Surrogate(c)
    case Short(letter) => Escape(letter).Some?
    case Escaped(digits) => FourDigits(digits) && !Surrogate(Number(Values(digits)))
    case Pair(first, second) =>
      && FourDigits(first) && FourDigits(second)
      && 0xD800 <= Number(Values(first)) <= 0xDBFF && 0xDC00 <= Number(Values(second)) <= 0xDFFF
  }

  function Spelled(p: Piece): seq<int> {
    match p
    case Raw(c) => [c]
    case Short(letter) => [BACKSLASH, letter]
    case Escaped(digits) => [BACKSLASH, 117] + digits
    case Pair(first, second) => [BACKSLASH, 117] + first + [BACKSLASH, 117] + second
  }

  function Meant(p: Piece): int
    requires Legal(p)
  {
    match p
    case Raw(c) => c
    case Short(letter) => Escape(letter).value
    case Escaped(digits) => Number(Values(digits))
    case Pair(first, second) => Combined(Number(Values(first)), Number(Values(second)))
  }

  predicate AllLegal(pieces: seq<Piece>) { forall p :: p in pieces ==> Legal(p) }

  function SpelledAll(pieces: seq<Piece>): seq<int> {
    if pieces == [] then [] else Spelled(pieces[0]) + SpelledAll(pieces[1..])
  }

  function MeantAll(pieces: seq<Piece>, record: pos): seq<Emission>
    requires AllLegal(pieces)
  {
    seq(|pieces|, i requires 0 <= i < |pieces| => Emission(Meant(pieces[i]), record))
  }

  lemma OneMore(s: State, text: seq<int>, c: int)
    ensures Run(s, text + [c]) == Step(Run(s, text), c).0
    ensures Output(s, text + [c]) == Output(s, text) + Emitted(Run(s, text), c)
  {
    assert (text + [c])[..|text|] == text;
  }

  /** The state reached while the digits of a \u escape are read. */
  lemma {:induction false} DigitsRun(s: State, digits: seq<int>)
    requires (s.mode.Unicode? || s.mode.LowUnicode?) && s.hex == [] && |digits| < 4
    requires forall d :: d in digits ==> HexValue(d).Some?
    ensures Run(s, digits) == s.(hex := Values(digits)) && Output(s, digits) == []
    decreases |digits|
  {
    if digits != [] {
      var (init, last) := (digits[..|digits| - 1], digits[|digits| - 1]);
      assert digits == init + [last];
      DigitsRun(s, init);
      OneMore(s, init, last);
      assert last in digits && Values(digits) == Values(init) + [HexValue(last).value];
    } else {
      assert Values(digits) == s.hex;
    }
  }

  lemma FourDigitsRun(s: State, digits: seq<int>)
    requires (s.mode.Unicode? || s.mode.LowUnicode?) && s.hex == [] && FourDigits(digits)
    ensures var near := s.(hex := Values(digits[..3]));
      Run(s, digits) == Step(near, digits[3]).0 && Output(s, digits) == Emitted(near, digits[3])
    ensures Values(digits[..3]) + [HexValue(digits[3]).value] == Values(digits)
  {
    assert digits == digits[..3] + [digits[3]] && digits[3] in digits;
    DigitsRun(s, digits[..3]);
    OneMore(s, digits[..3], digits[3]);
  }

  lemma TwoSteps(s: State, c: int, d: int)
    ensures Run(s, [c, d]) == Step(Step(s, c).0, d).0
    ensures Output(s, [c, d]) == Emitted(s, c) + Emitted(Step(s, c).0, d)
  {
    assert [c, d][..1] == [c] && [c][..0] == [];
    assert Output(s, [c]) == [] + Emitted(s, c);
  }

  lemma EscapedComesOut(s: State, digits: seq<int>)
    requires s.mode.Text? && Legal(Escaped(digits))
    ensures Run(s, Spelled(Escaped(digits))).mode.Text? && Run(s, Spelled(Escaped(digits))).record == s.record
    ensures Output(s, Spelled(Escaped(digits))) == [Emission(Number(Values(digits)), s.record)]
  {
    hide Run, Output, Number, PREFIX;
    TwoSteps(s, BACKSLASH, 117);
    var t := Run(s, [BACKSLASH, 117]);
    assert Output(s, [BACKSLASH, 117]) == [];
    FourDigitsRun(t, digits);
    RunsOn(s, [BACKSLASH, 117], digits);
  }

  lemma FirstHalf(s: State, first: seq<int>)
    requires s.mode.Text? && FourDigits(first) && 0xD800 <= Number(Values(first)) <= 0xDBFF
    ensures var t := Run(s, [BACKSLASH, 117] + first);
      t.mode.LowSlash? && t.high == Some(Number(Values(first))) && t.record == s.record
    ensures Output(s, [BACKSLASH, 117] + first) == []
  {
    hide Run, Output, Number, PREFIX;
    TwoSteps(s, BACKSLASH, 117);
    FourDigitsRun(Run(s, [BACKSLASH, 117]), first);
    RunsOn(s, [BACKSLASH, 117], first);
  }

  lemma SecondHalf(s: State, second: seq<int>)
    requires s.mode.LowSlash? && s.high.Some? && FourDigits(second) && 0xDC00 <= Number(Values(second)) <= 0xDFFF
    ensures Run(s, [BACKSLASH, 117] + second).mode.Text? && Run(s, [BACKSLASH, 117] + second).record == s.record
    ensures Output(s, [BACKSLASH, 117] + second) == [Emission(Combined(s.high.value, Number(Values(second))), s.record)]
  {
    hide Run, Output, Number, PREFIX;
    TwoSteps(s, BACKSLASH, 117);
    FourDigitsRun(Run(s, [BACKSLASH, 117]), second);
    RunsOn(s, [BACKSLASH, 117], second);
  }

  lemma PairComesOut(s: State, first: seq<int>, second: seq<int>)
    requires s.mode.Text? && Legal(Pair(first, second))
    ensures Run(s, Spelled(Pair(first, second))).mode.Text? && Run(s, Spelled(Pair(first, second))).record == s.record
    ensures Output(s, Spelled(Pair(first, second))) == [Emission(Combined(Number(Values(first)), Number(Values(second))), s.record)]
  {
    hide Step, Run, Output, Combined, Number, Values;
    var (a, b) := ([BACKSLASH, 117] + first, [BACKSLASH, 117] + second);
    FirstHalf(s, first);
    SecondHalf(Run(s, a), second);
    RunsOn(s, a, b);
    assert Spelled(Pair(first, second)) == a + b;
  }

  lemma PieceComesOut(s: State, p: Piece)
    requires s.mode.Text? && Legal(p)
    ensures Run(s, Spelled(p)).mode.Text? && Run(s, Spelled(p)).record == s.record
    ensures Output(s, Spelled(p)) == [Emission(Meant(p), s.record)]
  {
    match p
    case Raw(c) => OneMore(s, [], c);
    case Short(letter) => TwoSteps(s, BACKSLASH, letter);
    case Escaped(digits) => EscapedComesOut(s, digits);
    case Pair(first, second) => PairComesOut(s, first, second);
  }

  lemma {:induction false} PiecesComeOut(s: State, pieces: seq<Piece>)
    requires s.mode.Text? && AllLegal(pieces)
    ensures Run(s, SpelledAll(pieces)).mode.Text? && Run(s, SpelledAll(pieces)).record == s.record
    ensures Output(s, SpelledAll(pieces)) == MeantAll(pieces, s.record)
    decreases |pieces|
  {
    hide Step, Run, Output, Spelled, Legal, Meant;
    if pieces != [] {
      var (p, rest) := (pieces[0], pieces[1..]);
      PieceComesOut(s, p);
      PiecesComeOut(Run(s, Spelled(p)), rest);
      RunsOn(s, Spelled(p), SpelledAll(rest));
      assert MeantAll(pieces, s.record) == [Emission(Meant(p), s.record)] + MeantAll(rest, s.record);
    } else {
      NothingRead(s);
    }
  }

  lemma {:induction false} PrefixRuns(s: State, n: nat)
    requires s.mode.Prefix? && s.prefixIndex == 0 && n <= |PREFIX|
    ensures Run(s, PREFIX[..n]) == s.(prefixIndex := n, mode := if n == |PREFIX| then Text else Prefix)
    ensures Output(s, PREFIX[..n]) == []
  {
    hide PREFIX, Step, Run, Output, Emitted;
    if n > 0 {
      PrefixRuns(s, n - 1);
      assert PREFIX[..n] == PREFIX[..n - 1] + [PREFIX[n - 1]];
      OneMore(s, PREFIX[..n - 1], PREFIX[n - 1]);
      PrefixStep(s.(prefixIndex := n - 1));
    } else {
      PrefixNotEmpty();
      NothingRead(s);
    }
  }

  lemma PrefixStep(s: State)
    requires s.mode.Prefix? && s.prefixIndex < |PREFIX|
    ensures var (n, c) := (s.prefixIndex + 1, PREFIX[s.prefixIndex]);
      Step(s, c).0 == s.(prefixIndex := n, mode := if n == |PREFIX| then Text else Prefix) && Emitted(s, c) == []
  {
    hide PREFIX;
  }

  /** A compact progress record whose text is spelled by `pieces`. */
  function Line(pieces: seq<Piece>): seq<int> { PREFIX + SpelledAll(pieces) + [QUOTE, 125, LF] }

  /** After the prefix and a legally spelled text the parser is still inside the text. */
  lemma TextComesOut(s: State, pieces: seq<Piece>)
    requires s.mode.Prefix? && s.prefixIndex == 0 && AllLegal(pieces)
    ensures Output(s, PREFIX + SpelledAll(pieces)) == MeantAll(pieces, s.record)
    ensures Run(s, PREFIX + SpelledAll(pieces)).mode.Text? && Run(s, PREFIX + SpelledAll(pieces)).record == s.record
  {
    hide Step, Run, Output, PREFIX, MeantAll, SpelledAll;
    assert PREFIX[..|PREFIX|] == PREFIX;
    PrefixRuns(s, |PREFIX|);
    PiecesComeOut(Run(s, PREFIX), pieces);
    RunsOn(s, PREFIX, SpelledAll(pieces));
  }

  lemma LineEnds(s: State)
    requires s.mode.Text?
    ensures Run(s, [QUOTE, 125, LF]) == AfterLine(s) && Output(s, [QUOTE, 125, LF]) == []
  {
    hide PREFIX, Run, Output;
    TwoSteps(s, QUOTE, 125);
    OneMore(s, [QUOTE, 125], LF);
    assert [QUOTE, 125] + [LF] == [QUOTE, 125, LF];
  }

  /** Whatever legal spelling is chosen, a progress record yields exactly its text and the next record begins. */
  lemma RecordComesOut(s: State, pieces: seq<Piece>)
    requires s.mode.Prefix? && s.prefixIndex == 0 && AllLegal(pieces)
    ensures Output(s, Line(pieces)) == MeantAll(pieces, s.record)
    ensures Run(s, Line(pieces)) == AfterLine(s)
  {
    hide Step, Run, Output, PREFIX, MeantAll, SpelledAll;
    TextComesOut(s, pieces);
    LineEnds(Run(s, PREFIX + SpelledAll(pieces)));
    RunsOn(s, PREFIX + SpelledAll(pieces), [QUOTE, 125, LF]);
  }

  /** The same, for a record that arrives in any chunks. */
  lemma RecordComesOutInChunks(s: State, pieces: seq<Piece>, chunks: seq<seq<int>>)
    requires s.mode.Prefix? && s.prefixIndex == 0 && AllLegal(pieces) && Concat(chunks) == Line(pieces)
    ensures OutputOfChunks(s, chunks) == MeantAll(pieces, s.record)
  {
    ChunksDoNotMatter(s, chunks);
    RecordComesOut(s, pieces);
  }

  function LowerHex(n: int): int { if n < 10 then 48 + n else 87 + n }

  /** A character as JSON.stringify writes it. */
  function Spelling(c: int): Piece {
    if c == QUOTE || c == BACKSLASH then Short(c)
    else if c < 32 then Escaped([48, 48, LowerHex(c / 16), LowerHex(c % 16)])
    else Raw(c)
  }

  lemma NumberNext(hex: seq<int>, h: int)
    ensures Number(hex + [h]) == 16 * Number(hex) + h
  {
    assert (hex + [h])[..|hex|] == hex;
  }

  lemma FourNumber(a: int, b: int, c: int, d: int)
    ensures Number([a, b, c, d]) == 4096 * a + 256 * b + 16 * c + d
  {
    assert Number([]) == 0;
    NumberNext([], a);
    NumberNext([a], b);
    NumberNext([a, b], c);
    NumberNext([a, b, c], d);
    hide Number;
    assert [] + [a] == [a] && [a] + [b] == [a, b] && [a, b] + [c] == [a, b, c] && [a, b, c] + [d] == [a, b, c, d];
  }

  /** Every text of Unicode scalar values has a legal spelling, so every such text comes out exactly. */
  lemma EveryTextComesOut(s: State, text: seq<int>)
    requires s.mode.Prefix? && s.prefixIndex == 0
    requires forall i :: 0 <= i < |text| ==> 0 <= text[i] < 0x110000 && !Surrogate(text[i])
    ensures var pieces := seq(|text|, i requires 0 <= i < |text| => Spelling(text[i]));
      AllLegal(pieces) && Output(s, Line(pieces)) == seq(|text|, i requires 0 <= i < |text| => Emission(text[i], s.record))
  {
    hide Output, Line;
    var pieces := seq(|text|, i requires 0 <= i < |text| => Spelling(text[i]));
    forall i | 0 <= i < |text| ensures Legal(pieces[i]) && Meant(pieces[i]) == text[i] { SpellingIsLegal(text[i]); }
    RecordComesOut(s, pieces);
    assert MeantAll(pieces, s.record) == seq(|text|, i requires 0 <= i < |text| => Emission(text[i], s.record));
  }

  lemma SpellingIsLegal(c: int)
    requires 0 <= c < 0x110000 && !Surrogate(c)
    ensures Legal(Spelling(c)) && Meant(Spelling(c)) == c
  {
    if c < 32 {
      var digits := [48, 48, LowerHex(c / 16), LowerHex(c % 16)];
      assert Values(digits) == [0, 0, c / 16, c % 16];
      FourNumber(0, 0, c / 16, c % 16);
    }
  }

  const ESCAPES: map<int, int> :=
    map['\"' as int := 0x22, '\\' as int := 0x5C, '/' as int := 0x2F, 'b' as int := 0x08, 'f' as int := 0x0C,
        'n' as int := 0x0A, 'r' as int := 0x0D, 't' as int := 0x09]

  /** The short escapes are those of section 7 of RFC 8259. */
  lemma ShortEscapesAre(c: int)
    ensures Escape(c) == if c in ESCAPES then Some(ESCAPES[c]) else None
  {
  }

  /** A hexadecimal digit in either case. */
  lemma HexDigitsAre(c: int, n: int)
    ensures HexValue(c) == Some(n) <==>
      || (0 <= n < 10 && c == '0' as int + n) || (10 <= n < 16 && (c == 'a' as int + n - 10 || c == 'A' as int + n - 10))
  {
  }

  /** What four digits say, by position. */
  function Place(digits: seq<int>): int
    requires FourDigits(digits)
  {
    assert digits[0] in digits && digits[1] in digits && digits[2] in digits && digits[3] in digits;
    4096 * HexValue(digits[0]).value + 256 * HexValue(digits[1]).value + 16 * HexValue(digits[2]).value + HexValue(digits[3]).value
  }

  lemma PlaceIsNumber(digits: seq<int>)
    requires FourDigits(digits)
    ensures Number(Values(digits)) == Place(digits)
  {
    assert digits[0] in digits && digits[1] in digits && digits[2] in digits && digits[3] in digits;
    var (a, b, c, d) := (HexValue(digits[0]).value, HexValue(digits[1]).value, HexValue(digits[2]).value, HexValue(digits[3]).value);
    assert Values(digits) == [a, b, c, d];
    FourNumber(a, b, c, d);
  }

  /** Four digits escape the character whose number they are; two surrogates escape a character beyond the first plane. */
  lemma EscapesMean(c: int, first: seq<int>, second: seq<int>)
    requires 0 <= c < 0x110000 && !Surrogate(c) && FourDigits(first) && FourDigits(second)
    ensures Place(first) == c ==> Legal(Escaped(first)) && Meant(Escaped(first)) == c
    ensures c >= 0x10000 && Place(first) == 0xD800 + (c - 0x10000) / 0x400 && Place(second) == 0xDC00 + (c - 0x10000) % 0x400 ==>
      Legal(Pair(first, second)) && Meant(Pair(first, second)) == c
  {
    PlaceIsNumber(first);
    PlaceIsNumber(second);
    hide Number, Values, Place, HexValue;
  }

  // ----- nothing else comes out ----------------------------------------------

  /** Where the line that holds position `i` starts. */
  function LineStart(text: seq<int>, i: nat): nat
    requires i <= |text|
  {
    if i == 0 || text[i - 1] == LF then i else LineStart(text, i - 1)
  }

  predicate StartsWithPrefix(text: seq<int>, at: nat, i: nat)
    requires at <= i <= |text|
  {
    at + |PREFIX| <= i && text[at..at + |PREFIX|] == PREFIX
  }

  lemma {:induction false} LineStartBefore(text: seq<int>, i: nat)
    requires i <= |text|
    ensures LineStart(text, i) <= i
  {
    if i > 0 && text[i - 1] != LF { LineStartBefore(text, i - 1); }
  }

  lemma PrefixIsOneLine(k: nat)
    requires k < |PREFIX|
    ensures PREFIX[k] != LF
  {
  }

  lemma PrefixNotEmpty()
    ensures |PREFIX| == 33
  {
  }

  /** What the mode says about the line read so far. */
  ghost predicate Tracks(s: State, text: seq<int>, i: nat)
    requires i <= |text|
  {
    var at := LineStart(text, i);
    LineStartBefore(text, i);
    && (s.mode.Prefix? ==> i == at + s.prefixIndex && s.prefixIndex < |PREFIX| && text[at..i] == PREFIX[..s.prefixIndex])
    && (s.mode.InText() ==> StartsWithPrefix(text, at, i))
  }

  lemma {:induction false} RunTracks(text: seq<int>, i: nat)
    requires i <= |text|
    ensures Tracks(Run(START, text[..i]), text, i)
  {
    if i > 0 {
      var (s, c) := (Run(START, text[..i - 1]), text[i - 1]);
      RunTracks(text, i - 1);
      assert text[..i] == text[..i - 1] + [c];
      OneMore(START, text[..i - 1], c);
      LineStartBefore(text, i - 1);
      StepTracks(s, text, i);
    }
  }

  lemma LineStartNext(text: seq<int>, i: nat)
    requires 0 < i <= |text|
    ensures LineStart(text, i) == if text[i - 1] == LF then i else LineStart(text, i - 1)
  {
  }

  /** How the mode changes, as far as lines are concerned. */
  lemma StepModes(s: State, c: int)
    ensures var t := Step(s, c).0;
      && (t.mode.InText() && !s.mode.InText() ==>
            s.mode.Prefix? && s.prefixIndex + 1 == |PREFIX| && c == PREFIX[s.prefixIndex])
      && (t.mode.InText() && s.mode.InText() ==> c != LF)
      && (t.mode.Prefix? && c != LF ==>
            s.mode.Prefix? && t.prefixIndex == s.prefixIndex + 1 < |PREFIX| && c == PREFIX[s.prefixIndex])
      && (t.mode.Prefix? && c == LF && !(s.mode.Prefix? && s.prefixIndex < |PREFIX| && c == PREFIX[s.prefixIndex]) ==>
            t.prefixIndex == 0)
  {
    hide PREFIX, Number, Combined;
  }

  lemma PrefixGrows(text: seq<int>, at: nat, i: nat)
    requires at < i <= |text| && i - 1 - at < |PREFIX| && text[at..i - 1] == PREFIX[..i - 1 - at] && text[i - 1] == PREFIX[i - 1 - at]
    ensures text[at..i] == PREFIX[..i - at]
  {
    hide PREFIX;
    assert text[at..i] == text[at..i - 1] + [text[i - 1]];
    assert PREFIX[..i - at] == PREFIX[..i - 1 - at] + [PREFIX[i - 1 - at]];
  }

  lemma StepTracks(s: State, text: seq<int>, i: nat)
    requires 0 < i <= |text| && Tracks(s, text, i - 1)
    ensures Tracks(Step(s, text[i - 1]).0, text, i)
  {
    hide PREFIX, Step, LineStart;
    var (at, c) := (LineStart(text, i - 1), text[i - 1]);
    LineStartBefore(text, i - 1);
    LineStartBefore(text, i);
    LineStartNext(text, i);
    StepModes(s, c);
    PrefixNotEmpty();
    if s.mode.Prefix? && c == PREFIX[s.prefixIndex] {
      PrefixIsOneLine(s.prefixIndex);
      PrefixGrows(text, at, i);
      WholePrefix(text, at, i);
    }
  }

  lemma WholePrefix(text: seq<int>, at: nat, i: nat)
    requires at <= i <= |text| && i - at <= |PREFIX| && text[at..i] == PREFIX[..i - at]
    ensures i - at == |PREFIX| ==> StartsWithPrefix(text, at, i)
  {
    hide PREFIX;
    assert PREFIX[..|PREFIX|] == PREFIX;
  }

  lemma EmitsOnlyInText(s: State, c: int)
    requires Emitted(s, c) != []
    ensures s.mode.InText() && c != LF
  {
    hide PREFIX, Number, Combined;
  }

  /** A character is emitted only from a line that begins with the exact progress prefix, whatever the input. */
  lemma EmissionNeedsPrefix(text: seq<int>, i: nat)
    requires i < |text| && Emitted(Run(START, text[..i]), text[i]) != []
    ensures LineStart(text, i) <= i && StartsWithPrefix(text, LineStart(text, i), i) && text[i] != LF
  {
    hide PREFIX, Step, Run, Emitted, LineStart;
    LineStartBefore(text, i);
    RunTracks(text, i);
    EmitsOnlyInText(Run(START, text[..i]), text[i]);
  }

  lemma {:induction false} SkipsOn(s: State, text: seq<int>)
    requires s.mode.Skip? && forall i :: 0 <= i < |text| ==> text[i] != LF
    ensures Run(s, text) == s && Output(s, text) == []
    decreases |text|
  {
    if text != [] { SkipsOn(s, text[..|text| - 1]); }
  }

  lemma SpelledOnOneLine(p: Piece)
    requires Legal(p)
    ensures forall i :: 0 <= i < |Spelled(p)| ==> Spelled(p)[i] != LF
  {
    hide Number, Values;
    match p
    case Escaped(digits) => DigitsOnOneLine(digits);
    case Pair(first, second) =>
      DigitsOnOneLine(first);
      DigitsOnOneLine(second);
    case _ =>
  }

  lemma DigitsOnOneLine(digits: seq<int>)
    requires FourDigits(digits)
    ensures forall i :: 0 <= i < |digits| ==> digits[i] != LF
  {
    forall i | 0 <= i < |digits| ensures digits[i] != LF { assert digits[i] in digits && HexValue(digits[i]).Some?; }
  }

  lemma {:induction false} SpellingIsOneLine(pieces: seq<Piece>)
    requires AllLegal(pieces)
    ensures forall i :: 0 <= i < |SpelledAll(pieces)| ==> SpelledAll(pieces)[i] != LF
    decreases |pieces|
  {
    hide Spelled, Legal;
    if pieces != [] {
      SpelledOnOneLine(pieces[0]);
      SpellingIsOneLine(pieces[1..]);
    }
  }

  lemma SkippedLine(s: State, pieces: seq<Piece>)
    requires s.mode.Skip? && AllLegal(pieces)
    ensures Output(s, Line(pieces)) == [] && Run(s, Line(pieces)) == AfterLine(s)
  {
    hide PREFIX, Run, Output, SpelledAll;
    var body := PREFIX + SpelledAll(pieces) + [QUOTE, 125];
    SpellingIsOneLine(pieces);
    forall k | 0 <= k < |body| ensures body[k] != LF {
      if k < |PREFIX| { PrefixIsOneLine(k); }
    }
    SkipsOn(s, body);
    assert Line(pieces) == body + [LF];
    OneMore(s, body, LF);
  }

  // ----- the parser ---------------------------------------------------------

  datatype Delta = Delta(text: seq<int>, record: pos)

  function Expand(text: seq<int>, record: pos): seq<Emission> {
    seq(|text|, i requires 0 <= i < |text| => Emission(text[i], record))
  }

  /** All characters of some deltas, in order. */
  function ExpandAll(deltas: seq<Delta>): seq<Emission> {
    if deltas == [] then []
    else ExpandAll(deltas[..|deltas| - 1]) + Expand(deltas[|deltas| - 1].text, deltas[|deltas| - 1].record)
  }

  class PlanningTextDeltaParser {
    var mode: Mode
    var prefixIndex: nat
    var recordIndex: pos
    var hex: seq<int>
    var high: Option<int>

    ghost function View(): State
      reads this
    {
      State(mode, prefixIndex, recordIndex, hex, high)
    }

    constructor ()
      ensures View() == START && View().Valid()
    {
      mode, prefixIndex, recordIndex, hex, high := Prefix, 0, 1, [], None;
    }

    method NextRecord()
      modifies this
      ensures View() == AfterLine(old(View()))
    {
      recordIndex := recordIndex + 1;
      prefixIndex, mode, hex, high := 0, Prefix, [], None;
    }

    /** One character; returns what it adds to the current delta and whether the delta ends here. */
    method Accept(c: int) returns (out: Option<int>, flush: bool)
      requires View().Valid()
      modifies this
      ensures (View(), out) == Step(old(View()), c) && View().Valid()
      ensures recordIndex != old(recordIndex) || !mode.InText() ==> flush || !old(mode).InText()
      ensures flush ==> out.None? && recordIndex == old(recordIndex)
      ensures out.Some? ==> mode.InText() && recordIndex == old(recordIndex)
    {
      hide Number, Combined, Escape, HexValue, PREFIX;
      StepIsValid(View(), c);
      PrefixNotEmpty();
      out, flush := None, false;
      match mode {
        case Skip =>
          if c == LF { NextRecord(); }
        case Prefix =>
          if c == PREFIX[prefixIndex] {
            prefixIndex := prefixIndex + 1;
            if prefixIndex == |PREFIX| { mode := Text; }
          } else if c == LF { NextRecord(); } else { mode := Skip; }
        case InEscape =>
          if c == 117 { hex, mode := [], Unicode; }
          else if Escape(c).Some? { out, mode := Escape(c), Text; }
          else { flush, mode := true, Skip; }
        case Unicode => out, flush := AcceptDigit(c);
        case LowSlash =>
          if c == BACKSLASH { mode := LowU; } else { flush, mode := true, Skip; }
        case LowU =>
          if c == 117 { hex, mode := [], LowUnicode; } else { flush, mode := true, Skip; }
        case LowUnicode => out, flush := AcceptDigit(c);
        case Suffix => mode := if c == 125 then Newline else Skip;
        case Newline =>
          if c == LF { NextRecord(); } else { mode := Skip; }
        case Text =>
          if c == BACKSLASH { mode := InEscape; }
          else if c == QUOTE { flush, mode := true, Suffix; }
          else if c < 32 || Surrogate(c) { flush, mode := true, Skip; }
          else { out := Some(c); }
      }
    }

    /** A digit of a \u escape. */
    method AcceptDigit(c: int) returns (out: Option<int>, flush: bool)
      requires View().Valid() && (mode.Unicode? || mode.LowUnicode?)
      modifies this`mode, this`hex, this`high
      ensures (View(), out) == Step(old(View()), c) && View().Valid()
      ensures !mode.InText() ==> flush
      ensures flush ==> out.None? && recordIndex == old(recordIndex)
    {
      out, flush := None, false;
      var digit := HexValue(c);
      if digit.None? { flush, mode := true, Skip; return; }
      hex := hex + [digit.value];
      if |hex| < 4 { return; }
      var value := Number(hex);
      if mode.Unicode? {
        if 0xD800 <= value <= 0xDBFF { high, mode := Some(value), LowSlash; }
        else if 0xDC00 <= value <= 0xDFFF { flush, mode := true, Skip; }
        else { out, mode := Some(value), Text; }
      } else {
        if high.None? || !(0xDC00 <= value <= 0xDFFF) { flush, mode := true, Skip; }
        else { out, high, mode := Some(Combined(high.value, value)), None, Text; }
      }
    }

    /** Reads a chunk; the deltas together hold exactly the characters it emits, none of them is empty. */
    method Feed(text: seq<int>) returns (emitted: seq<Delta>)
      requires View().Valid()
      modifies this
      ensures View() == Run(old(View()), text) && View().Valid()
      ensures ExpandAll(emitted) == Output(old(View()), text)
      ensures forall d :: d in emitted ==> d.text != []
    {
      hide Step, Run, Output, Emitted;
      ghost var start := View();
      emitted := [];
      var current: seq<int> := [];
      NothingRead(start);
      var i := 0;
      while i < |text|
        invariant i <= |text| && View().Valid() && View() == Run(start, text[..i])
        invariant current != [] ==> mode.InText()
        invariant ExpandAll(emitted) + Expand(current, recordIndex) == Output(start, text[..i])
        invariant forall d :: d in emitted ==> d.text != []
      {
        OneMore(start, text[..i], text[i]);
        assert text[..i + 1] == text[..i] + [text[i]];
        ghost var (was, here) := (current, View());
        var out, flush := Accept(text[i]);
        EmittedIs(here, text[i]);
        if out.Some? {
          current := current + [out.value];
          ExpandOneMore(was, out.value, recordIndex);
        }
        if flush && current != [] {
          OneDeltaMore(emitted, Delta(current, recordIndex));
          emitted := emitted + [Delta(current, recordIndex)];
          current := [];
        }
        i := i + 1;
      }
      assert text[..i] == text;
      if current != [] {
        OneDeltaMore(emitted, Delta(current, recordIndex));
        emitted := emitted + [Delta(current, recordIndex)];
      }
    }
  }

  lemma NothingRead(s: State)
    ensures Run(s, []) == s && Output(s, []) == []
  {
  }

  lemma EmittedIs(s: State, c: int)
    ensures Emitted(s, c) == if Step(s, c).1.Some? then [Emission(Step(s, c).1.value, s.record)] else []
  {
  }

  lemma ExpandOneMore(text: seq<int>, c: int, record: pos)
    ensures Expand(text + [c], record) == Expand(text, record) + [Emission(c, record)]
  {
  }

  lemma OneDeltaMore(deltas: seq<Delta>, d: Delta)
    ensures ExpandAll(deltas + [d]) == ExpandAll(deltas) + Expand(d.text, d.record)
  {
    assert (deltas + [d])[..|deltas|] == deltas;
  }
}
