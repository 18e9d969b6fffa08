/** What a planning stream yields, told from its lines alone: whether it is accepted, its progress records, and its plan. */
module PlanningRecords {
  import opened Prelude
  import opened Utf8
  import opened PlanningStream

  /** Complete lines, each with its line feed. */
  function Joined(lines: seq<seq<int>>): seq<int> {
    if lines == [] then [] else Joined(lines[..|lines| - 1]) + lines[|lines| - 1] + [LF]
  }

  ghost predicate Whole(lines: seq<seq<int>>) { forall k :: 0 <= k < |lines| ==> LF !in lines[k] }

  /** How many of the lines are not blank. */
  function Records(d: Decoder, lines: seq<seq<int>>): nat {
    if lines == [] then 0
    else Records(d, lines[..|lines| - 1]) + if d.blank(lines[|lines| - 1]) then 0 else 1
  }

  // ----- the lines of an accepted stream -------------------------------------

  /** Line `k` fits, and if it is not blank it is one of the first sixteen records saying progress, or it is a plan. */
  ghost predicate LineIsGood(d: Decoder, lines: seq<seq<int>>, k: nat)
    requires k < |lines|
  {
    && Size(lines[k] + [LF]) <= 262144
    && (!d.blank(lines[k]) ==>
          || (d.row(lines[k]).ProgressRow? && Records(d, lines[..k + 1]) <= 16)
          || (d.row(lines[k]).PlanRow? && d.row(lines[k]).plan.Some?))
  }

  /** Line `k` is the plan. */
  predicate IsPlan(d: Decoder, line: seq<int>, plan: string) { !d.blank(line) && d.row(line) == PlanRow(Some(plan)) }

  ghost predicate HasPlan(d: Decoder, lines: seq<seq<int>>) {
    exists k :: 0 <= k < |lines| && !d.blank(lines[k]) && d.row(lines[k]).PlanRow?
  }

  /** Every line is good, and behind a plan there are only blank lines. */
  ghost predicate Acceptable(d: Decoder, lines: seq<seq<int>>) {
    && (forall k {:trigger LineIsGood(d, lines, k)} :: 0 <= k < |lines| ==> LineIsGood(d, lines, k))
    && (forall k {:trigger lines[..k]} :: 0 <= k < |lines| && HasPlan(d, lines[..k]) ==> d.blank(lines[k]))
  }

  ghost predicate PlanOf(d: Decoder, lines: seq<seq<int>>, plan: Option<string>) {
    match plan
    case None => !HasPlan(d, lines)
    case Some(p) => exists k :: 0 <= k < |lines| && IsPlan(d, lines[k], p)
  }

  /** A text that may be shown: not blank, at most 280 characters, none a control character or a surrogate. */
  predicate Presentable(d: Decoder, text: seq<int>) {
    !d.blank(text) && |text| <= 280 && forall c :: c in text ==> c >= 32 && !Surrogate(c)
  }

  /** The progress that the lines say, with its record number and its byte range. */
  function ProgressOf(d: Decoder, lines: seq<seq<int>>): seq<Progress> {
    if lines == [] then []
    else
      var (init, line) := (lines[..|lines| - 1], lines[|lines| - 1]);
      var row := d.row(line);
      ProgressOf(d, init) +
        if !d.blank(line) && row.ProgressRow? && row.text.Some? && Presentable(d, row.text.value)
        then [Progress(row.text.value, Records(d, lines), Size(Joined(init)), Size(Joined(lines)))] else []
  }

  /** How many progress records say what may not be shown. */
  function RejectedOf(d: Decoder, lines: seq<seq<int>>): nat {
    if lines == [] then 0
    else
      var (init, line) := (lines[..|lines| - 1], lines[|lines| - 1]);
      var row := d.row(line);
      RejectedOf(d, init) +
        if !d.blank(line) && row.ProgressRow? && !(row.text.Some? && Presentable(d, row.text.value)) then 1 else 0
  }

  // ----- framing line by line ------------------------------------------------

  ghost function Framed(d: Decoder, lines: seq<seq<int>>): Fed { Drain(d, FRESH.(buffer := Joined(lines))) }

  lemma {:induction false} EndOfLine(line: seq<int>)
    requires LF !in line
    ensures LineEnd(line + [LF]) == |line|
  {
    if line != [] {
      assert (line + [LF])[1..] == line[1..] + [LF] && line[0] in line;
      EndOfLine(line[1..]);
    }
  }

  lemma AcceptLeavesBuffer(d: Decoder, s: Parser, line: seq<int>, size: nat)
    ensures var t := Accept(d, s, line, size).0; t.buffer == s.buffer && t.closed == s.closed && t.failed == s.failed
  {
  }

  /** Draining one complete line. */
  lemma OneLineDrains(d: Decoder, s: Parser, line: seq<int>)
    requires LF !in line
    ensures var (t, r) := Accept(d, s.(buffer := []), line, Size(line + [LF]));
      && (Drain(d, s.(buffer := line + [LF])).1.Ok? <==> r.Ok?)
      && (r.Ok? ==> Drain(d, s.(buffer := line + [LF])) == (t, Ok(AsList(r.value))))
  {
    hide Size, LineEnd, Accept;
    EndOfLine(line);
    var text := line + [LF];
    assert text[..|line|] == line && text[|line| + 1..] == [];
    var (t, r) := Accept(d, s.(buffer := []), line, Size(text));
    if r.Ok? {
      AcceptLeavesBuffer(d, s.(buffer := []), line, Size(text));
      NothingLeft(t);
      DrainStops(d, t);
      assert AsList(r.value) + [] == AsList(r.value);
    }
  }

  lemma NothingLeft(t: Parser)
    requires t.buffer == []
    ensures LineEnd(t.buffer) == |t.buffer|
  {
  }

  /** The lines before the last are framed first, and then the last. */
  lemma FramedNext(d: Decoder, lines: seq<seq<int>>)
    requires Whole(lines) && lines != []
    requires var before := Framed(d, lines[..|lines| - 1]); before.1.Ok? ==> before.0.buffer == []
    ensures var (before, last) := (Framed(d, lines[..|lines| - 1]), lines[|lines| - 1]);
      var next := Accept(d, before.0, last, Size(last + [LF]));
      && (Framed(d, lines).1.Ok? <==> before.1.Ok? && next.1.Ok?)
      && (Framed(d, lines).1.Ok? ==> Framed(d, lines) == (next.0, Ok(before.1.value + AsList(next.1.value))))
  {
    hide Drain, Accept, Size, LineEnd;
    var (init, last) := (lines[..|lines| - 1], lines[|lines| - 1]);
    assert Joined(lines) == Joined(init) + (last + [LF]);
    DrainContinues(d, FRESH.(buffer := Joined(init)), last + [LF]);
    var t := Framed(d, init).0;
    assert [] + (last + [LF]) == last + [LF];
    if Framed(d, init).1.Ok? { OneLineDrains(d, t, last); }
  }

  /** The state after acceptable lines, and what was said. */
  ghost predicate Tells(d: Decoder, lines: seq<seq<int>>, fed: Fed) {
    && fed.1.Ok? && fed.1.value == ProgressOf(d, lines) && PlanOf(d, lines, fed.0.plan)
    && fed.0.buffer == [] && fed.0.records == Records(d, lines) && fed.0.consumed == Size(Joined(lines))
    && fed.0.rejected == RejectedOf(d, lines)
    && !fed.0.closed && !fed.0.failed
  }

  lemma GoodLineIsAccepted(d: Decoder, lines: seq<seq<int>>, s: Parser)
    requires lines != [] && s.records == Records(d, lines[..|lines| - 1])
    ensures var n := |lines| - 1;
      Accept(d, s, lines[n], Size(lines[n] + [LF])).1.Ok? <==>
        LineIsGood(d, lines, n) && (s.plan.Some? ==> d.blank(lines[n]))
  {
    assert lines[..|lines|] == lines;
    hide Size, Shown;
  }

  lemma ShownIs(d: Decoder, text: Option<seq<int>>)
    ensures Shown(d, text) <==> text.Some? && Presentable(d, text.value)
  {
  }

  lemma SizeOfNext(lines: seq<seq<int>>)
    requires lines != []
    ensures Size(Joined(lines)) == Size(Joined(lines[..|lines| - 1])) + Size(lines[|lines| - 1] + [LF])
  {
    var (init, line) := (lines[..|lines| - 1], lines[|lines| - 1]);
    assert Joined(lines) == Joined(init) + (line + [LF]);
    hide Size;
    SizeAdds(Joined(init), line + [LF]);
  }

  /** What one accepted line leaves. */
  lemma LineTells(d: Decoder, s: Parser, line: seq<int>, size: nat)
    requires Accept(d, s, line, size).1.Ok?
    ensures var ((t, r), row) := (Accept(d, s, line, size), d.row(line));
      && t == s.(consumed := s.consumed + size, records := s.records + (if d.blank(line) then 0 else 1), plan := t.plan,
                 rejected := s.rejected + (if !d.blank(line) && row.ProgressRow? && !Shown(d, row.text) then 1 else 0))
      && t.plan == (if !d.blank(line) && row.PlanRow? then row.plan else s.plan)
      && (!d.blank(line) && row.PlanRow? ==> row.plan.Some?)
      && r.value == (if !d.blank(line) && row.ProgressRow? && Shown(d, row.text)
                     then Some(Progress(row.text.value, s.records + 1, s.consumed, s.consumed + size)) else None)
  {
    hide Shown;
  }

  lemma ProgressOfNext(d: Decoder, lines: seq<seq<int>>)
    requires lines != []
    ensures var (init, line) := (lines[..|lines| - 1], lines[|lines| - 1]);
      && Records(d, lines) == Records(d, init) + (if d.blank(line) then 0 else 1)
      && ProgressOf(d, lines) == ProgressOf(d, init) +
           if !d.blank(line) && d.row(line).ProgressRow? && Shown(d, d.row(line).text)
           then [Progress(d.row(line).text.value, Records(d, lines), Size(Joined(init)), Size(Joined(lines)))] else []
    ensures var (init, line) := (lines[..|lines| - 1], lines[|lines| - 1]);
      RejectedOf(d, lines) ==
        RejectedOf(d, init) + if !d.blank(line) && d.row(line).ProgressRow? && !Shown(d, d.row(line).text) then 1 else 0
  {
    var line := lines[|lines| - 1];
    if d.row(line).ProgressRow? { ShownIs(d, d.row(line).text); }
    hide Size, Shown, Presentable, Joined;
  }

  /** What an accepted line leaves, told from all lines so far. */
  lemma AcceptTells(d: Decoder, lines: seq<seq<int>>, s: Parser)
    requires lines != [] && s.records == Records(d, lines[..|lines| - 1]) && s.consumed == Size(Joined(lines[..|lines| - 1]))
    requires Accept(d, s, lines[|lines| - 1], Size(lines[|lines| - 1] + [LF])).1.Ok?
    ensures var (t, r) := Accept(d, s, lines[|lines| - 1], Size(lines[|lines| - 1] + [LF]));
      && t.records == Records(d, lines) && t.consumed == Size(Joined(lines)) && t.buffer == s.buffer
      && t.closed == s.closed && t.failed == s.failed
      && t.rejected == s.rejected + RejectedOf(d, lines) - RejectedOf(d, lines[..|lines| - 1])
      && ProgressOf(d, lines) == ProgressOf(d, lines[..|lines| - 1]) + AsList(r.value)
      && t.plan == (if !d.blank(lines[|lines| - 1]) && d.row(lines[|lines| - 1]).PlanRow?
                    then d.row(lines[|lines| - 1]).plan else s.plan)
      && (!d.blank(lines[|lines| - 1]) && d.row(lines[|lines| - 1]).PlanRow? ==> d.row(lines[|lines| - 1]).plan.Some?)
  {
    hide Size, Shown, Joined, Accept, Records, ProgressOf, RejectedOf;
    var line := lines[|lines| - 1];
    SizeOfNext(lines);
    ProgressOfNext(d, lines);
    LineTells(d, s, line, Size(line + [LF]));
  }

  lemma PlanNext(d: Decoder, init: seq<seq<int>>, line: seq<int>)
    ensures HasPlan(d, init + [line]) <==> HasPlan(d, init) || (!d.blank(line) && d.row(line).PlanRow?)
    ensures forall p :: PlanOf(d, init, Some(p)) ==> PlanOf(d, init + [line], Some(p))
    ensures forall p :: IsPlan(d, line, p) ==> PlanOf(d, init + [line], Some(p))
    ensures forall p :: PlanOf(d, init, Some(p)) ==> HasPlan(d, init)
  {
    var lines := init + [line];
    if k :| 0 <= k < |init| && !d.blank(init[k]) && d.row(init[k]).PlanRow? { assert lines[k] == init[k]; }
    if !d.blank(line) && d.row(line).PlanRow? { assert lines[|init|] == line; }
    forall p | PlanOf(d, init, Some(p)) ensures PlanOf(d, lines, Some(p)) {
      var k :| 0 <= k < |init| && IsPlan(d, init[k], p);
      assert IsPlan(d, lines[k], p);
    }
    forall p | IsPlan(d, line, p) ensures PlanOf(d, lines, Some(p)) { assert IsPlan(d, lines[|init|], p); }
  }

  lemma AcceptableNext(d: Decoder, lines: seq<seq<int>>)
    requires lines != []
    ensures var n := |lines| - 1;
      Acceptable(d, lines) <==>
        Acceptable(d, lines[..n]) && LineIsGood(d, lines, n) && (HasPlan(d, lines[..n]) ==> d.blank(lines[n]))
  {
    var (n, init) := (|lines| - 1, lines[..|lines| - 1]);
    forall k | 0 <= k < n
      ensures LineIsGood(d, init, k) <==> LineIsGood(d, lines, k)
      ensures init[..k] == lines[..k]
    {
      assert init[..k + 1] == lines[..k + 1];
    }
    hide LineIsGood, HasPlan;
    if Acceptable(d, init) && LineIsGood(d, lines, n) && (HasPlan(d, lines[..n]) ==> d.blank(lines[n])) {
      forall k | 0 <= k < |lines| ensures LineIsGood(d, lines, k) && (HasPlan(d, lines[..k]) ==> d.blank(lines[k])) {
        if k < n { assert LineIsGood(d, init, k) && init[..k] == lines[..k] && init[k] == lines[k]; }
      }
    }
    if Acceptable(d, lines) {
      forall k | 0 <= k < n ensures LineIsGood(d, init, k) && (HasPlan(d, init[..k]) ==> d.blank(init[k])) {
        assert LineIsGood(d, lines, k) && init[..k] == lines[..k] && init[k] == lines[k];
      }
    }
  }

  /** Complete lines are accepted exactly if they are acceptable, and then they tell what they say. */
  lemma {:induction false} FramingTells(d: Decoder, lines: seq<seq<int>>)
    requires Whole(lines)
    ensures Framed(d, lines).1.Ok? <==> Acceptable(d, lines)
    ensures Acceptable(d, lines) ==> Tells(d, lines, Framed(d, lines))
    decreases |lines|
  {
    hide Framed, Accept, Size, LineIsGood, Records, Joined, ProgressOf, RejectedOf, HasPlan, IsPlan, Acceptable;
    if lines == [] {
      NothingFramed(d);
    } else {
      var (init, last) := (lines[..|lines| - 1], lines[|lines| - 1]);
      assert lines == init + [last];
      FramingTells(d, init);
      AcceptableNext(d, lines);
      FramedNext(d, lines);
      PlanNext(d, init, last);
      if Acceptable(d, init) {
        var s := Framed(d, init).0;
        GoodLineIsAccepted(d, lines, s);
        if Framed(d, lines).1.Ok? {
          AcceptTells(d, lines, s);
          PlanIs(d, last);
        }
      }
    }
  }

  lemma PlanIs(d: Decoder, line: seq<int>)
    ensures forall p :: IsPlan(d, line, p) <==> !d.blank(line) && d.row(line) == PlanRow(Some(p))
  {
  }

  lemma NothingFramed(d: Decoder)
    ensures Framed(d, []) == (FRESH, Ok([])) && Acceptable(d, []) && Tells(d, [], (FRESH, Ok([])))
  {
  }

  // ----- a whole stream ------------------------------------------------------

  lemma {:induction false} NoLineEnd(rest: seq<int>)
    requires LF !in rest
    ensures LineEnd(rest) == |rest|
  {
    if rest != [] {
      assert rest[0] in rest;
      NoLineEnd(rest[1..]);
    }
  }

  lemma RestStays(d: Decoder, lines: seq<seq<int>>, rest: seq<int>)
    requires Whole(lines) && LF !in rest
    ensures var (t, whole) := (Framed(d, lines), Drain(d, FRESH.(buffer := Joined(lines) + rest)));
      && (whole.1.Ok? <==> t.1.Ok?) && (t.1.Ok? && t.0.buffer == [] ==> whole == (t.0.(buffer := rest), t.1))
  {
    hide Drain, LineEnd;
    DrainContinues(d, FRESH.(buffer := Joined(lines)), rest);
    FramingTells(d, lines);
    if Framed(d, lines).1.Ok? {
      var t := Framed(d, lines).0;
      assert [] + rest == rest;
      NoLineEnd(rest);
      DrainStops(d, t.(buffer := rest));
      assert Framed(d, lines).1.value + [] == Framed(d, lines).1.value;
    }
  }

  /** A stream of complete lines and an unfinished rest is accepted exactly if it is Unicode within the limits and its lines
      are acceptable; then its progress is what the lines say. */
  lemma StreamTellsExactly(d: Decoder, lines: seq<seq<int>>, rest: seq<int>)
    requires Whole(lines) && LF !in rest
    ensures var (text, fed) := (Joined(lines) + rest, FeedText(d, FRESH, Joined(lines) + rest));
      && (fed.1.Ok? <==> Encodable(text) && Size(text) <= 1048576 && Acceptable(d, lines) && Size(rest) <= 262144)
      && (fed.1.Ok? ==> Tells(d, lines, (fed.0.(buffer := []), fed.1)) && fed.0.buffer == rest)
  {
    hide Drain, Size, Encodable, Acceptable, Framed, Tells, Joined;
    var text := Joined(lines) + rest;
    assert FRESH.buffer + text == text;
    FramingTells(d, lines);
    RestStays(d, lines, rest);
    if Framed(d, lines).1.Ok? { TellingIsEmpty(d, lines, Framed(d, lines)); }
  }

  lemma TellingIsEmpty(d: Decoder, lines: seq<seq<int>>, fed: Fed)
    requires Tells(d, lines, fed)
    ensures fed.0.buffer == [] && fed.0.(buffer := []) == fed.0
  {
  }

  /** One line is the plan; only blank lines stand behind it, and no other plan before it.  The rest, which has no line feed,
      counts as the last line unless it is empty. */
  ghost predicate OnlyPlan(d: Decoder, lines: seq<seq<int>>, rest: seq<int>, plan: string) {
    if rest == [] || d.blank(rest)
    then exists k :: 0 <= k < |lines| && IsPlan(d, lines[k], plan) && forall j :: k < j < |lines| ==> d.blank(lines[j])
    else IsPlan(d, rest, plan) && !HasPlan(d, lines)
  }

  /** Among acceptable lines the plan is the one non-blank line behind which there are only blank ones. */
  lemma PlanIsLast(d: Decoder, lines: seq<seq<int>>, k: nat, p: string)
    requires Acceptable(d, lines) && k < |lines| && IsPlan(d, lines[k], p)
    ensures forall j :: k < j < |lines| ==> d.blank(lines[j])
  {
    forall j | k < j < |lines| ensures d.blank(lines[j]) {
      assert lines[..j][k] == lines[k];
      assert HasPlan(d, lines[..j]);
    }
  }

  /** Only one plan can be the last. */
  lemma PlanIsUnique(d: Decoder, lines: seq<seq<int>>, p: string, q: string)
    requires Acceptable(d, lines) && PlanOf(d, lines, Some(p)) && PlanOf(d, lines, Some(q))
    ensures p == q
  {
    var j :| 0 <= j < |lines| && IsPlan(d, lines[j], p);
    var k :| 0 <= k < |lines| && IsPlan(d, lines[k], q);
    PlanIsLast(d, lines, j, p);
    PlanIsLast(d, lines, k, q);
  }

  lemma PlanOfExactly(d: Decoder, lines: seq<seq<int>>, plan: Option<string>, p: string)
    requires Acceptable(d, lines) && PlanOf(d, lines, plan)
    ensures plan == Some(p) <==>
      exists k :: 0 <= k < |lines| && IsPlan(d, lines[k], p) && forall j :: k < j < |lines| ==> d.blank(lines[j])
    ensures plan.Some? <==> HasPlan(d, lines)
  {
    if plan == Some(p) {
      var k :| 0 <= k < |lines| && IsPlan(d, lines[k], p);
      PlanIsLast(d, lines, k, p);
    }
    if k :| 0 <= k < |lines| && IsPlan(d, lines[k], p) {
      assert HasPlan(d, lines) && PlanOf(d, lines, Some(p));
      PlanIsUnique(d, lines, p, plan.value);
    }
    if plan.Some? {
      var k :| 0 <= k < |lines| && IsPlan(d, lines[k], plan.value);
      assert HasPlan(d, lines);
    }
  }

  /** What finishing answers: the plan that a non-blank rest says, or the plan stored before it. */
  lemma FinishAnswers(d: Decoder, t: Parser, p: string)
    requires !t.closed && !t.failed && Encodable(t.buffer) && Size(t.buffer) <= 262144
    ensures FinishText(d, t).1 == Ok(p) <==>
      if t.buffer == [] || d.blank(t.buffer) then t.plan == Some(p) else t.plan.None? && IsPlan(d, t.buffer, p)
  {
    hide Size, Encodable, Shown;
  }

  /** An accepted stream finishes with a plan exactly if that is its only plan, with nothing but blank lines behind. */
  lemma StreamPlansExactly(d: Decoder, lines: seq<seq<int>>, rest: seq<int>, p: string)
    requires Whole(lines) && LF !in rest && FeedText(d, FRESH, Joined(lines) + rest).1.Ok?
    ensures FinishText(d, FeedText(d, FRESH, Joined(lines) + rest).0).1 == Ok(p) <==> OnlyPlan(d, lines, rest, p)
  {
    hide FeedText, FinishText, Size, Acceptable, HasPlan, IsPlan, ProgressOf, Records, RejectedOf, Encodable, Joined, PlanOf;
    StreamTellsExactly(d, lines, rest);
    var t := FeedText(d, FRESH, Joined(lines) + rest).0;
    RestIsEncodable(Joined(lines), rest);
    FinishAnswers(d, t, p);
    PlanOfExactly(d, lines, t.plan, p);
  }

  lemma RestIsEncodable(a: seq<int>, b: seq<int>)
    requires Encodable(a + b)
    ensures Encodable(b)
  {
    EncodableParts(a, b);
  }

  /** A record behind the plan makes the stream fail. */
  lemma NothingFollowsThePlan(d: Decoder, lines: seq<seq<int>>, rest: seq<int>, j: nat, k: nat)
    requires Whole(lines) && LF !in rest && j < k < |lines|
    requires !d.blank(lines[j]) && d.row(lines[j]).PlanRow? && !d.blank(lines[k])
    ensures FeedText(d, FRESH, Joined(lines) + rest).1.Fail?
  {
    hide FeedText, Joined, LineIsGood;
    StreamTellsExactly(d, lines, rest);
    assert lines[..k][j] == lines[j];
    assert HasPlan(d, lines[..k]);
  }

  // ----- refusals -----------------------------------------------------------

  /** Why a line is refused: the first of these that applies. */
  lemma RefusedLine(d: Decoder, s: Parser, line: seq<int>, size: nat)
    ensures var (r, row) := (Accept(d, s, line, size).1, d.row(line));
      r.Fail? ==>
        r.fault == (if size > 262144 then RecordLimit
                    else if s.plan.Some? then AfterPlan
                    else if row.Undecodable? then InvalidRecord
                    else if row.BadEnvelope? then BadVersion
                    else if row.ProgressRow? then ProgressLimit
                    else if row.PlanRow? then PlanNotObject
                    else UnknownRecord)
  {
    hide Shown;
  }

  /** Why an open stream cannot finish: no plan came, or the rest is refused or says progress without its line feed. */
  lemma RefusedFinish(d: Decoder, t: Parser)
    requires !t.closed && !t.failed && Encodable(t.buffer)
    ensures var (r, last) := (FinishText(d, t).1, Accept(d, t.(buffer := []), t.buffer, Size(t.buffer)));
      r.Fail? ==>
        r.fault == (if t.buffer == [] then MissingPlan
                    else if last.1.Fail? then last.1.fault
                    else if d.row(t.buffer).ProgressRow? && last.1.value.Some? then Unterminated
                    else MissingPlan)
  {
    hide Size, Encodable, Shown;
  }
}
