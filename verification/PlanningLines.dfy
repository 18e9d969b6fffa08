/** Which line feeds the incremental projection takes for the end of a record, told from the text alone. */
module PlanningLines {
  import opened Utf8
  import opened PlanningText

  predicate CodePoints(text: seq<int>) { forall c :: c in text ==> 0 <= c < 0x110000 }

  const U: seq<int> := [BACKSLASH, 117]

  predicate SomeDigits(d: seq<int>) { |d| < 4 && forall c :: c in d ==> HexValue(c).Some? }

  predicate HighHalf(d: seq<int>) { FourDigits(d) && 0xD800 <= Number(Values(d)) <= 0xDBFF }

  /** The beginning of an escape that is not complete. */
  predicate Opening(p: seq<int>) {
    p == [BACKSLASH] || (|p| >= 2 && p[..2] == U && SomeDigits(p[2..]))
  }

  /** A legally begun rest of a text literal: nothing, its closing quote, an escape begun, or a surrogate pair begun. */
  predicate Unfinished(p: seq<int>) {
    || p == [] || p == [QUOTE] || Opening(p)
    || (|p| >= 6 && p[..2] == U && HighHalf(p[2..6]) && (p[6..] == [] || Opening(p[6..])))
  }

  ghost predicate BreaksOffAt(line: seq<int>, pieces: seq<Piece>, p: seq<int>) {
    AllLegal(pieces) && Unfinished(p) && line == PREFIX + SpelledAll(pieces) + p
  }

  /** The line opens a progress record, is legal as far as it goes, and ends before the record's `"}`. */
  ghost predicate BreaksOff(line: seq<int>) {
    exists pieces, p :: BreaksOffAt(line, pieces, p)
  }

  /** A line feed after this text does not end a record: the last line breaks off, and was itself read as a record. */
  ghost predicate Swallows(text: seq<int>)
    decreases |text|
  {
    LineStartBefore(text, |text|);
    var at := LineStart(text, |text|);
    BreaksOff(text[at..]) && (at == 0 || !Swallows(text[..at - 1]))
  }

  predicate Open(s: State) { s.mode.InText() || s.mode.Suffix? }

  lemma PartsAreCodePoints(a: seq<int>, b: seq<int>)
    requires CodePoints(a + b)
    ensures CodePoints(a) && CodePoints(b)
  {
    assert forall c :: c in a || c in b ==> c in a + b;
  }

  // ----- a line that breaks off leaves its text open ------------------------

  lemma OpeningRuns(s: State, p: seq<int>)
    requires (s.mode.Text? || s.mode.LowSlash?) && Opening(p)
    ensures Run(s, p).mode.InText()
  {
    hide Number, Combined, PREFIX;
    OneMore(s, [], BACKSLASH);
    if p != [BACKSLASH] {
      TwoSteps(s, BACKSLASH, 117);
      var t := Run(s, U);
      assert p == U + p[2..];
      assert t.hex == [] && (t.mode.Unicode? || t.mode.LowUnicode?);
      DigitsRun(t, p[2..]);
      RunsOn(s, U, p[2..]);
    }
  }

  lemma UnfinishedRuns(s: State, p: seq<int>)
    requires s.mode.Text? && Unfinished(p)
    ensures Open(Run(s, p))
  {
    hide Number, PREFIX, Opening;
    if p == [QUOTE] {
      OneMore(s, [], QUOTE);
    } else if Opening(p) {
      OpeningRuns(s, p);
    } else if p != [] {
      var (half, rest) := (U + p[2..6], p[6..]);
      assert p == half + rest;
      FirstHalf(s, p[2..6]);
      RunsOn(s, half, rest);
      if rest != [] { OpeningRuns(Run(s, half), rest); }
    }
  }

  lemma BrokenLineStaysOpen(s: State, line: seq<int>)
    requires s.mode.Prefix? && s.prefixIndex == 0 && BreaksOff(line)
    ensures Open(Run(s, line))
  {
    hide PREFIX, Run, SpelledAll, Unfinished;
    var pieces, p :| BreaksOffAt(line, pieces, p);
    TextComesOut(s, pieces);
    var text := PREFIX + SpelledAll(pieces);
    RunsOn(s, text, p);
    UnfinishedRuns(Run(s, text), p);
  }

  // ----- only a line that breaks off does -----------------------------------

  /** What has been read of an unfinished piece, by mode. */
  ghost predicate Holds(s: State, p: seq<int>) {
    match s.mode
    case Text => p == []
    case InEscape => p == [BACKSLASH]
    case Unicode => |p| >= 2 && p[..2] == U && SomeDigits(p[2..]) && s.hex == Values(p[2..])
    case LowSlash => |p| == 6 && p[..2] == U && HighHalf(p[2..])
    case LowU => |p| == 7 && p[..2] == U && HighHalf(p[2..6]) && p[6] == BACKSLASH
    case LowUnicode =>
      && |p| >= 8 && p[..2] == U && HighHalf(p[2..6]) && p[6..8] == U
      && SomeDigits(p[8..]) && s.hex == Values(p[8..])
    case Suffix => p == [QUOTE]
    case _ => false
  }

  lemma HeldIsUnfinished(s: State, p: seq<int>)
    requires Holds(s, p)
    ensures Unfinished(p)
  {
    hide Number, PREFIX, Values, HexValue;
    if s.mode.LowSlash? { assert p[2..6] == p[2..]; }
    if s.mode.LowUnicode? { assert p[6..][..2] == p[6..8] && p[6..][2..] == p[8..]; }
  }

  lemma OneDigitMore(d: seq<int>, c: int)
    requires SomeDigits(d) && HexValue(c).Some?
    ensures Values(d + [c]) == Values(d) + [HexValue(c).value] && |Values(d)| == |d|
    ensures if |d| < 3 then SomeDigits(d + [c]) else FourDigits(d + [c])
  {
    forall x | x in d + [c] ensures HexValue(x).Some? { }
  }

  /** One character further in a piece: more of it is held, or it is complete. */
  ghost predicate Furthers(s: State, p: seq<int>, c: int) {
    var t := Step(s, c).0;
    Holds(t, p + [c]) || (t.mode.Text? && exists q: Piece :: Legal(q) && Spelled(q) == p + [c])
  }

  lemma FirstDigitFurthers(s: State, p: seq<int>, c: int)
    requires s.mode.Unicode? && Holds(s, p) && Open(Step(s, c).0)
    ensures Furthers(s, p, c)
  {
    hide Number, PREFIX, HexValue;
    var d := p[2..];
    OneDigitMore(d, c);
    assert (p + [c])[2..] == d + [c] && p + [c] == U + (d + [c]);
    if Step(s, c).0.mode.Text? {
      var q := Escaped(d + [c]);
      assert Spelled(q) == p + [c];
      assert Legal(q);
    }
  }

  lemma SecondDigitFurthers(s: State, p: seq<int>, c: int)
    requires s.mode.LowUnicode? && Holds(s, p) && Open(Step(s, c).0)
    ensures Furthers(s, p, c)
  {
    hide Number, PREFIX, HexValue;
    var (first, d) := (p[2..6], p[8..]);
    OneDigitMore(d, c);
    var r := p + [c];
    assert r[8..] == d + [c] && r == U + first + U + (d + [c]);
    assert r[..2] == p[..2] && r[2..6] == first && r[6..8] == p[6..8];
    if Step(s, c).0.mode.Text? {
      var q := Pair(first, d + [c]);
      assert Spelled(q) == p + [c];
      assert Legal(q);
    }
  }

  lemma LetterFurthers(s: State, p: seq<int>, c: int)
    requires s.mode.InEscape? && Holds(s, p) && Open(Step(s, c).0)
    ensures Furthers(s, p, c)
  {
    hide Number, PREFIX;
    assert (p + [c])[2..] == [];
    if c != 117 {
      assert Legal(Short(c)) && Spelled(Short(c)) == p + [c];
    }
  }

  lemma CharacterFurthers(s: State, p: seq<int>, c: int)
    requires s.mode.Text? && Holds(s, p) && 0 <= c < 0x110000 && Open(Step(s, c).0)
    ensures Furthers(s, p, c)
  {
    hide Number, PREFIX;
    assert p + [c] == [c];
    if Step(s, c).0.mode.Text? { assert Legal(Raw(c)) && Spelled(Raw(c)) == p + [c]; }
  }

  lemma SlashFurthers(s: State, p: seq<int>, c: int)
    requires (s.mode.LowSlash? || s.mode.LowU?) && Holds(s, p) && Open(Step(s, c).0)
    ensures Furthers(s, p, c)
  {
    hide Number, PREFIX, HexValue;
    assert p[2..6] == (p + [c])[2..6];
    if s.mode.LowSlash? { assert p[2..] == p[2..6]; } else { assert (p + [c])[8..] == []; }
  }

  lemma PieceFurthers(s: State, p: seq<int>, c: int)
    requires Holds(s, p) && 0 <= c < 0x110000 && Open(Step(s, c).0)
    ensures Furthers(s, p, c)
  {
    match s.mode
    case Text => CharacterFurthers(s, p, c);
    case InEscape => LetterFurthers(s, p, c);
    case Unicode => FirstDigitFurthers(s, p, c);
    case LowUnicode => SecondDigitFurthers(s, p, c);
    case _ => SlashFurthers(s, p, c);
  }

  /** The parser stands within a record's text, or right behind its closing quote, and the line is legal so far. */
  ghost predicate Reads(s: State, line: seq<int>, pieces: seq<Piece>, p: seq<int>) {
    Holds(s, p) && BreaksOffAt(line, pieces, p)
  }

  lemma {:induction false} OnePieceMore(pieces: seq<Piece>, q: Piece)
    ensures SpelledAll(pieces + [q]) == SpelledAll(pieces) + Spelled(q)
    decreases |pieces|
  {
    hide Spelled;
    if pieces == [] {
      assert [q][1..] == [] && [] + [q] == [q];
    } else {
      assert (pieces + [q])[1..] == pieces[1..] + [q];
      OnePieceMore(pieces[1..], q);
    }
  }

  lemma ReadsOn(s: State, line: seq<int>, pieces: seq<Piece>, p: seq<int>, c: int)
    requires Reads(s, line, pieces, p) && 0 <= c < 0x110000 && Open(Step(s, c).0)
    ensures exists ps, r :: Reads(Step(s, c).0, line + [c], ps, r)
  {
    hide Holds, Step, PREFIX, SpelledAll, Spelled, Legal, Unfinished;
    PieceFurthers(s, p, c);
    var t := Step(s, c).0;
    if Holds(t, p + [c]) {
      HeldIsUnfinished(t, p + [c]);
      assert line + [c] == PREFIX + SpelledAll(pieces) + (p + [c]);
      assert Reads(t, line + [c], pieces, p + [c]);
    } else {
      var q: Piece :| Legal(q) && Spelled(q) == p + [c];
      OnePieceMore(pieces, q);
      HoldsNothing(t);
      assert line + [c] == PREFIX + SpelledAll(pieces + [q]) + [];
      assert Reads(t, line + [c], pieces + [q], []);
    }
  }

  lemma HoldsNothing(s: State)
    requires s.mode.Text?
    ensures Holds(s, []) && Unfinished([])
  {
  }

  lemma {:induction false} OpenLineBreaksOff(s: State, line: seq<int>)
    requires s.mode.Prefix? && s.prefixIndex == 0 && CodePoints(line) && LF !in line && Open(Run(s, line))
    ensures exists pieces, p :: Reads(Run(s, line), line, pieces, p)
    decreases |line|
  {
    hide Reads, Step, PREFIX;
    if line != [] {
      var (init, c) := (line[..|line| - 1], line[|line| - 1]);
      assert line == init + [c] && c in line;
      OneMore(s, init, c);
      var here := Run(s, init);
      OpensFrom(here, c);
      PartsAreCodePoints(init, [c]);
      if Open(here) {
        OpenLineBreaksOff(s, init);
        var pieces, p :| Reads(here, init, pieces, p);
        ReadsOn(here, init, pieces, p, c);
      } else {
        PrefixIsRead(s, init);
        WholePrefixReads(Run(s, line), line);
      }
    }
  }

  /** The text is only entered through the end of the prefix. */
  lemma OpensFrom(s: State, c: int)
    requires Open(Step(s, c).0)
    ensures Open(s) || (s.mode.Prefix? && s.prefixIndex + 1 == |PREFIX| && c == PREFIX[s.prefixIndex] && Step(s, c).0.mode.Text?)
    ensures Open(s) ==> !s.mode.Suffix?
  {
    hide PREFIX, Number, Combined;
  }

  lemma {:induction false} PrefixIsRead(s: State, line: seq<int>)
    requires s.mode.Prefix? && s.prefixIndex == 0 && LF !in line && Run(s, line).mode.Prefix?
    ensures Run(s, line).prefixIndex == |line| <= |PREFIX| && line == PREFIX[..|line|]
    decreases |line|
  {
    hide PREFIX, Step;
    if line != [] {
      var (init, c) := (line[..|line| - 1], line[|line| - 1]);
      assert line == init + [c] && c in line;
      OneMore(s, init, c);
      StaysPrefix(Run(s, init), c);
      PrefixIsRead(s, init);
      var n := |init|;
      assert PREFIX[..n + 1] == PREFIX[..n] + [PREFIX[n]];
    }
  }

  lemma StaysPrefix(s: State, c: int)
    requires Step(s, c).0.mode.Prefix? && c != LF
    ensures s.mode.Prefix? && s.prefixIndex < |PREFIX| && c == PREFIX[s.prefixIndex]
    ensures Step(s, c).0.prefixIndex == s.prefixIndex + 1
  {
    hide PREFIX, Number, Combined;
  }

  lemma WholePrefixReads(s: State, line: seq<int>)
    requires s.mode.Text? && line == PREFIX
    ensures Reads(s, line, [], [])
  {
    hide PREFIX;
    assert PREFIX + [] + [] == PREFIX;
  }

  /** Within one line: the text is open exactly when the line breaks off. */
  lemma OpenExactlyAtBrokenLine(s: State, line: seq<int>)
    requires s.mode.Prefix? && s.prefixIndex == 0 && CodePoints(line) && LF !in line
    ensures Open(Run(s, line)) <==> BreaksOff(line)
  {
    hide Run, Open, PREFIX, BreaksOffAt, Holds;
    if BreaksOff(line) { BrokenLineStaysOpen(s, line); }
    if Open(Run(s, line)) {
      OpenLineBreaksOff(s, line);
      var pieces, p :| Reads(Run(s, line), line, pieces, p);
    }
  }

  // ----- whole texts --------------------------------------------------------

  /** A line feed ends the record unless the text is open; then the parser skips the line that follows. */
  lemma LineFeedEnds(s: State)
    requires s.mode.Prefix? ==> s.prefixIndex < |PREFIX|
    ensures Step(s, LF).0 == if Open(s) then s.(mode := Skip) else AfterLine(s)
  {
    if s.mode.Prefix? { PrefixIsOneLine(s.prefixIndex); }
    hide PREFIX, Number;
  }

  lemma {:induction false} LastLine(text: seq<int>, i: nat)
    requires i <= |text|
    ensures var at := LineStart(text, i); at <= i && LF !in text[at..i] && (at == 0 || text[at - 1] == LF)
  {
    if i > 0 && text[i - 1] != LF {
      LastLine(text, i - 1);
      var at := LineStart(text, i);
      assert text[at..i] == text[at..i - 1] + [text[i - 1]];
    } else {
      assert text[i..i] == [];
    }
  }

  /** Where the parser stands behind one more line and its line feed. */
  lemma BehindLine(s: State, line: seq<int>)
    requires s.Valid() && CodePoints(line) && LF !in line && (s.mode.Skip? || (s.mode.Prefix? && s.prefixIndex == 0))
    ensures var t := Step(Run(s, line), LF).0;
      if s.mode.Prefix? && BreaksOff(line) then t.mode.Skip? else t.mode.Prefix? && t.prefixIndex == 0
  {
    hide PREFIX, Run, Step, Open, BreaksOff;
    RunIsValid(s, line);
    LineFeedEnds(Run(s, line));
    if s.mode.Skip? {
      SkipsOn(s, line);
      SkipIsClosed(s);
    } else {
      OpenExactlyAtBrokenLine(s, line);
    }
  }

  lemma SwallowsIs(text: seq<int>)
    ensures var at := LineStart(text, |text|);
      at <= |text| && (Swallows(text) <==> BreaksOff(text[at..]) && (at == 0 || !Swallows(text[..at - 1])))
  {
    hide LineStart, BreaksOff;
    LineStartBefore(text, |text|);
  }

  lemma CutBehind(text: seq<int>, at: nat)
    requires 0 < at <= |text| && text[at - 1] == LF
    ensures text[..at] == text[..at - 1] + [LF]
  {
  }

  lemma WholeTail(text: seq<int>, at: nat)
    requires at <= |text|
    ensures text[at..|text|] == text[at..]
  {
  }

  lemma LastLineSplits(text: seq<int>)
    ensures var at := LineStart(text, |text|);
      at <= |text| && LF !in text[at..] && (at > 0 ==> text[..at] == text[..at - 1] + [LF])
  {
    hide *;
    LastLine(text, |text|);
    var at := LineStart(text, |text|);
    WholeTail(text, at);
    if at > 0 { CutBehind(text, at); }
  }

  /** Where the parser stands behind a text and a line feed, told from the text alone. */
  lemma {:induction false} SkipsExactlyWhenSwallowed(text: seq<int>)
    requires CodePoints(text)
    ensures var s := Run(START, text + [LF]);
      if Swallows(text) then s.mode.Skip? else s.mode.Prefix? && s.prefixIndex == 0
    decreases |text|
  {
    hide PREFIX, Run, Step, BreaksOff, LineStart, Swallows, CodePoints;
    SwallowsIs(text);
    LastLineSplits(text);
    var at := LineStart(text, |text|);
    var (before, line) := (text[..at], text[at..]);
    assert text == before + line;
    PartsAreCodePoints(before, line);
    if at == 0 {
      assert before == [];
      NothingRead(START);
    } else {
      PartsAreCodePoints(before[..at - 1], [LF]);
      SkipsExactlyWhenSwallowed(before[..at - 1]);
    }
    PrefixNotEmpty();
    RunIsValid(START, before);
    RunsOn(START, before, line);
    OneMore(START, text, LF);
    BehindLine(Run(START, before), line);
  }

  lemma SkipIsClosed(s: State)
    requires s.mode.Skip?
    ensures !Open(s)
  {
  }

  /** A correct record on a line of its own is shown exactly when the line feed before it is not swallowed. */
  lemma NextRecordIsShownExactly(text: seq<int>, after: seq<Piece>)
    requires CodePoints(text) && AllLegal(after) && after != []
    ensures var s := Run(START, text + [LF]);
      && Output(s, Line(after)) == (if Swallows(text) then [] else MeantAll(after, s.record))
      && (Output(s, Line(after)) == MeantAll(after, s.record) <==> !Swallows(text))
  {
    hide PREFIX, Run, Output, Step, Swallows, Line;
    SkipsExactlyWhenSwallowed(text);
    var s := Run(START, text + [LF]);
    if Swallows(text) { SkippedLine(s, after); } else { RecordComesOut(s, after); }
  }

  /** The failing inputs: a record cut off by a line feed takes the next record, even a correct one, down with it. */
  lemma CutOffRecordHidesNextRecord(before: seq<Piece>, p: seq<int>, after: seq<Piece>)
    requires AllLegal(before) && Unfinished(p) && AllLegal(after)
    ensures Output(Run(START, PREFIX + SpelledAll(before) + p + [LF]), Line(after)) == []
  {
    hide PREFIX, Run, Output, Step, SpelledAll, Line, Unfinished, Open;
    var cut := PREFIX + SpelledAll(before) + p;
    assert BreaksOffAt(cut, before, p);
    BrokenLineStaysOpen(START, cut);
    OneMore(START, cut, LF);
    PrefixNotEmpty();
    RunIsValid(START, cut);
    LineFeedEnds(Run(START, cut));
    SkippedLine(Run(START, cut + [LF]), after);
  }
}
