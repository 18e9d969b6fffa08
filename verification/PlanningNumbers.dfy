/** The two numberings of records on one stream: by the incremental projection and by the framing. */
module PlanningNumbers {
  import opened Utf8
  import opened PlanningText
  import opened PlanningLines
  import PlanningStream
  import opened PlanningRecords

  ghost predicate AllLines(lines: seq<seq<int>>) {
    forall k :: 0 <= k < |lines| ==> CodePoints(lines[k]) && LF !in lines[k]
  }

  /** How many of the lines end in a line feed that is swallowed. */
  ghost function Swallowed(lines: seq<seq<int>>): nat {
    if lines == [] then 0
    else
      var (init, last) := (lines[..|lines| - 1], lines[|lines| - 1]);
      Swallowed(init) + if Swallows(Joined(init) + last) then 1 else 0
  }

  function Blank(d: PlanningStream.Decoder, lines: seq<seq<int>>): nat {
    if lines == [] then 0
    else Blank(d, lines[..|lines| - 1]) + if d.blank(lines[|lines| - 1]) then 1 else 0
  }

  // ----- the projection counts line feeds that end a record ------------------

  lemma {:induction false} RecordStandsWithinLine(s: State, line: seq<int>)
    requires LF !in line
    ensures Run(s, line).record == s.record
    decreases |line|
  {
    if line != [] {
      var (init, c) := (line[..|line| - 1], line[|line| - 1]);
      assert c in line;
      RecordStandsWithinLine(s, init);
      RecordStands(Run(s, init), c);
    }
  }

  lemma RecordStands(s: State, c: int)
    requires c != LF
    ensures Step(s, c).0.record == s.record
  {
    hide PREFIX, Number, Combined;
  }

  lemma {:induction false} JoinedCodePoints(lines: seq<seq<int>>)
    requires AllLines(lines)
    ensures CodePoints(Joined(lines))
    decreases |lines|
  {
    if lines != [] {
      var (init, last) := (lines[..|lines| - 1], lines[|lines| - 1]);
      JoinedCodePoints(init);
      forall c | c in Joined(lines) ensures 0 <= c < 0x110000 { assert c in Joined(init) || c in last || c == LF; }
    }
  }

  lemma {:induction false} ProjectionNumbers(lines: seq<seq<int>>)
    requires AllLines(lines)
    ensures Run(START, Joined(lines)).record == 1 + |lines| - Swallowed(lines)
    decreases |lines|
  {
    hide Run, Step, Swallows, PREFIX;
    if lines == [] {
      NothingRead(START);
    } else {
      var (init, last) := (lines[..|lines| - 1], lines[|lines| - 1]);
      ProjectionNumbers(init);
      RunsOn(START, Joined(init), last);
      RecordStandsWithinLine(Run(START, Joined(init)), last);
      JoinedCodePoints(init);
      forall c | c in Joined(init) + last ensures 0 <= c < 0x110000 { assert c in Joined(init) || c in last; }
      LineFeedCounts(Joined(init) + last);
    }
  }

  lemma LineFeedCounts(text: seq<int>)
    requires CodePoints(text)
    ensures Run(START, text + [LF]).record == Run(START, text).record + if Swallows(text) then 0 else 1
  {
    hide Run, Swallows, PREFIX, Step, Open;
    SkipsExactlyWhenSwallowed(text);
    OneMore(START, text, LF);
    PrefixNotEmpty();
    RunIsValid(START, text);
    LineFeedEnds(Run(START, text));
  }

  // ----- the framing counts lines that are not blank -------------------------

  lemma {:induction false} RecordsAreNotBlank(d: PlanningStream.Decoder, lines: seq<seq<int>>)
    ensures Records(d, lines) == |lines| - Blank(d, lines)
    decreases |lines|
  {
    if lines != [] { RecordsAreNotBlank(d, lines[..|lines| - 1]); }
  }

  lemma FramingNumbers(d: PlanningStream.Decoder, lines: seq<seq<int>>)
    requires AllLines(lines)
    ensures Framed(d, lines).1.Ok? ==> Framed(d, lines).0.records == |lines| - Blank(d, lines)
    ensures Framed(d, lines).1.Ok? <==> Acceptable(d, lines)
  {
    hide Framed, Acceptable, ProgressOf, RejectedOf, Joined, PlanOf;
    FramingTells(d, lines);
    RecordsAreNotBlank(d, lines);
  }

  // ----- when the numbers agree ----------------------------------------------

  /** After the same complete lines both number the next record alike exactly if as many line feeds were swallowed as
      lines were blank. */
  lemma NumbersAgreeExactly(d: PlanningStream.Decoder, lines: seq<seq<int>>)
    requires AllLines(lines) && Framed(d, lines).1.Ok?
    ensures Run(START, Joined(lines)).record == Framed(d, lines).0.records + 1 <==> Swallowed(lines) == Blank(d, lines)
  {
    hide Framed, Run;
    ProjectionNumbers(lines);
    FramingNumbers(d, lines);
  }

  /** A line that breaks off is neither blank nor a record, as for every decoder of JSON. */
  ghost predicate RefusesBrokenLines(d: PlanningStream.Decoder) {
    forall line :: BreaksOff(line) ==> !d.blank(line) && !d.row(line).ProgressRow? && !d.row(line).PlanRow?
  }

  lemma {:induction false} StartOfLast(text: seq<int>, line: seq<int>, n: nat)
    requires text == [] || text[|text| - 1] == LF
    requires LF !in line && n <= |line|
    ensures LineStart(text + line, |text| + n) == |text|
    decreases n
  {
    if n > 0 {
      assert (text + line)[|text| + n - 1] == line[n - 1] && line[n - 1] in line;
      StartOfLast(text, line, n - 1);
    }
  }

  lemma JoinedEnds(lines: seq<seq<int>>)
    ensures Joined(lines) == [] || Joined(lines)[|Joined(lines)| - 1] == LF
  {
  }

  lemma SwallowedBreaksOff(lines: seq<seq<int>>, line: seq<int>)
    requires LF !in line && Swallows(Joined(lines) + line)
    ensures BreaksOff(line)
  {
    hide BreaksOff;
    JoinedEnds(lines);
    StartOfLast(Joined(lines), line, |line|);
    var text := Joined(lines) + line;
    assert text[|Joined(lines)|..] == line;
  }

  lemma {:induction false} NothingSwallowed(d: PlanningStream.Decoder, lines: seq<seq<int>>)
    requires AllLines(lines) && Acceptable(d, lines) && RefusesBrokenLines(d)
    ensures Swallowed(lines) == 0
    decreases |lines|
  {
    hide Swallows, BreaksOff, PlanningStream.Size;
    if lines != [] {
      var (init, last) := (lines[..|lines| - 1], lines[|lines| - 1]);
      AcceptableNext(d, lines);
      NothingSwallowed(d, init);
      if Swallows(Joined(init) + last) {
        SwallowedBreaksOff(init, last);
        assert false;
      }
    }
  }

  lemma {:induction false} BlankIsZero(d: PlanningStream.Decoder, lines: seq<seq<int>>)
    ensures Blank(d, lines) == 0 <==> forall k :: 0 <= k < |lines| ==> !d.blank(lines[k])
    decreases |lines|
  {
    if lines != [] { BlankIsZero(d, lines[..|lines| - 1]); }
  }

  lemma AcceptedNumber(d: PlanningStream.Decoder, s: PlanningStream.Parser, line: seq<int>, size: nat)
    requires PlanningStream.Accept(d, s, line, size).1.Ok? && PlanningStream.Accept(d, s, line, size).1.value.Some?
    ensures PlanningStream.Accept(d, s, line, size).1.value.value.index == s.records + 1
  {
  }

  /**
   A record on its own line, after lines that the framing accepted: its characters come out of the projection, and they
   carry the number of the framing's progress record exactly if no line before was blank.
   */
  lemma DeltasMatchProgressExactly(d: PlanningStream.Decoder, lines: seq<seq<int>>, pieces: seq<Piece>)
    requires AllLines(lines) && Framed(d, lines).1.Ok? && RefusesBrokenLines(d) && AllLegal(pieces)
    requires var record := PREFIX + SpelledAll(pieces) + [QUOTE, 125];
      var accepted := PlanningStream.Accept(d, Framed(d, lines).0, record, PlanningStream.Size(record + [LF])).1;
      accepted.Ok? && accepted.value.Some?
    ensures var record := PREFIX + SpelledAll(pieces) + [QUOTE, 125];
      var progress := PlanningStream.Accept(d, Framed(d, lines).0, record, PlanningStream.Size(record + [LF])).1.value.value;
      var s := Run(START, Joined(lines));
      && Output(s, Line(pieces)) == MeantAll(pieces, s.record)
      && (s.record == progress.index <==> forall k :: 0 <= k < |lines| ==> !d.blank(lines[k]))
  {
    hide Framed, Run, Output, PREFIX, SpelledAll, MeantAll, Line, PlanningStream.Accept, PlanningStream.Size, Swallows;
    var record := PREFIX + SpelledAll(pieces) + [QUOTE, 125];
    AcceptedNumber(d, Framed(d, lines).0, record, PlanningStream.Size(record + [LF]));
    NumbersAgreeExactly(d, lines);
    FramingNumbers(d, lines);
    NothingSwallowed(d, lines);
    BlankIsZero(d, lines);
    StartsFresh(lines);
    RecordComesOut(Run(START, Joined(lines)), pieces);
  }

  /** Where nothing is swallowed the next line is read as a record. */
  lemma StartsFresh(lines: seq<seq<int>>)
    requires AllLines(lines) && Swallowed(lines) == 0
    ensures Run(START, Joined(lines)).mode.Prefix? && Run(START, Joined(lines)).prefixIndex == 0
  {
    hide Run, Swallows;
    if lines == [] {
      NothingRead(START);
    } else {
      var (init, last) := (lines[..|lines| - 1], lines[|lines| - 1]);
      JoinedCodePoints(init);
      forall c | c in Joined(init) + last ensures 0 <= c < 0x110000 { assert c in Joined(init) || c in last; }
      SkipsExactlyWhenSwallowed(Joined(init) + last);
    }
  }
}
