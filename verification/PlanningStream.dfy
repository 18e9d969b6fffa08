/**
 The framing of a planning stream: records separated by line feeds, byte ceilings and byte ranges
 (src/purra/planning_stream.py, PlanningStreamParser).  How a line decodes is a parameter.
 */
module PlanningStream {
  import opened Prelude
  import opened Utf8

  const RECORD_LIMIT: nat := 262144
  const TOTAL_LIMIT: nat := 1048576
  const MAX_PROGRESS: nat := 16
  const MAX_TEXT: nat := 280

  /** What the JSON decoder and the envelope checks make of a line. */
  datatype Row = Undecodable | BadEnvelope | ProgressRow(text: Option<seq<int>>) | PlanRow(plan: Option<string>) | OtherRow

  /** The decoder, and which texts are blank. */
  datatype Decoder = Decoder(row: seq<int> -> Row, blank: seq<int> -> bool)

  datatype Progress = Progress(text: seq<int>, index: nat, start: nat, end: nat)

  datatype Fault = ParserClosed | TotalLimit | RecordLimit | AfterPlan | InvalidRecord | BadVersion | ProgressLimit
    | PlanNotObject | UnknownRecord | NotUnicode | MissingPlan | Unterminated

  datatype Parser = Parser(
    buffer: seq<int>, consumed: nat, records: nat, rejected: nat, plan: Option<string>, closed: bool, failed: bool)

  const FRESH := Parser([], 0, 0, 0, None, false, false)

  // ----- sizes --------------------------------------------------------------

  predicate Encodable(text: seq<int>) { forall i :: 0 <= i < |text| ==> !Surrogate(text[i]) }

  function Size(text: seq<int>): nat {
    if text == [] then 0 else Size(text[..|text| - 1]) + |Octets(text[|text| - 1])|
  }

  lemma {:induction false} SizeAdds(a: seq<int>, b: seq<int>)
    ensures Size(a + b) == Size(a) + Size(b)
    decreases |b|
  {
    if b == [] {
      assert a + b == a;
    } else {
      assert (a + b)[..|a + b| - 1] == a + b[..|b| - 1];
      SizeAdds(a, b[..|b| - 1]);
    }
  }

  /** The index of the first line feed, or the length. */
  function LineEnd(text: seq<int>): (n: nat)
    ensures n <= |text| && (n < |text| ==> text[n] == LF) && forall i :: 0 <= i < n ==> text[i] != LF
  {
    if text == [] || text[0] == LF then 0 else 1 + LineEnd(text[1..])
  }

  // ----- one record ---------------------------------------------------------

  predicate Shown(d: Decoder, text: Option<seq<int>>) {
    && text.Some? && !d.blank(text.value) && |text.value| <= MAX_TEXT
    && forall c :: c in text.value ==> c >= 32 && !Surrogate(c)
  }

  type Accepted = (Parser, Outcome<Option<Progress>, Fault>)

  function Accept(d: Decoder, s: Parser, line: seq<int>, size: nat): Accepted {
    var after := s.(consumed := s.consumed + size);
    if size > RECORD_LIMIT then (s, Fail(RecordLimit))
    else if d.blank(line) then (after, Ok(None))
    else if s.plan.Some? then (s, Fail(AfterPlan))
    else
      match d.row(line)
      case Undecodable => (s, Fail(InvalidRecord))
      case BadEnvelope => (s, Fail(BadVersion))
      case ProgressRow(text) =>
        var counted := after.(records := s.records + 1);
        if counted.records > MAX_PROGRESS then (s.(records := s.records + 1), Fail(ProgressLimit))
        else if !Shown(d, text) then (counted.(rejected := s.rejected + 1), Ok(None))
        else (counted, Ok(Some(Progress(text.value, counted.records, s.consumed, s.consumed + size))))
      case PlanRow(plan) =>
        if plan.None? then (s.(records := s.records + 1), Fail(PlanNotObject))
        else (after.(records := s.records + 1, plan := plan), Ok(None))
      case OtherRow => (s.(records := s.records + 1), Fail(UnknownRecord))
  }

  function AsList(p: Option<Progress>): seq<Progress> { if p.Some? then [p.value] else [] }

  type Fed = (Parser, Outcome<seq<Progress>, Fault>)

  /** Accepts every complete line of the buffer. */
  function Drain(d: Decoder, s: Parser): Fed
    decreases |s.buffer|
  {
    var n := LineEnd(s.buffer);
    if n == |s.buffer| then (s, Ok([]))
    else
      var line := s.buffer[..n];
      var (t, r) := Accept(d, s.(buffer := s.buffer[n + 1..]), line, Size(line + [LF]));
      if r.Fail? then (t, Fail(r.fault))
      else
        var (u, rest) := Drain(d, t);
        (u, if rest.Fail? then rest else Ok(AsList(r.value) + rest.value))
  }

  function Broken(s: Parser): Parser { s.(buffer := [], failed := true) }

  function FeedText(d: Decoder, s: Parser, text: seq<int>): Fed {
    if s.closed || s.failed then (s, Fail(ParserClosed))
    else
      var full := s.(buffer := s.buffer + text);
      if !Encodable(full.buffer) then (Broken(full), Fail(NotUnicode))
      else if s.consumed + Size(full.buffer) > TOTAL_LIMIT then (Broken(full), Fail(TotalLimit))
      else
        var (t, r) := Drain(d, full);
        if r.Fail? then (Broken(t), r)
        else if Size(t.buffer) > RECORD_LIMIT then (Broken(t), Fail(RecordLimit))
        else (t, r)
  }

  function FinishText(d: Decoder, s: Parser): (Parser, Outcome<string, Fault>) {
    if s.closed || s.failed then (s.(failed := true), Fail(MissingPlan))
    else if s.buffer == [] then
      if s.plan.None? then (Broken(s), Fail(MissingPlan)) else (s.(closed := true), Ok(s.plan.value))
    else if !Encodable(s.buffer) then (Broken(s), Fail(NotUnicode))
    else
      var (t, r) := Accept(d, s.(buffer := []), s.buffer, Size(s.buffer));
      if r.Fail? then (Broken(t), Fail(r.fault))
      else if r.value.Some? then (Broken(t), Fail(Unterminated))
      else if t.plan.None? then (Broken(t), Fail(MissingPlan))
      else (t.(closed := true), Ok(t.plan.value))
  }

  // ----- bytes are accounted for --------------------------------------------

  /** A parser that has read `fed` bytes without failing. */
  ghost predicate Accounts(s: Parser, fed: nat) {
    !s.failed && !s.closed ==>
      && s.consumed + Size(s.buffer) == fed && fed <= TOTAL_LIMIT && Size(s.buffer) <= RECORD_LIMIT
      && Encodable(s.buffer) && LineEnd(s.buffer) == |s.buffer|
  }

  lemma LineSizes(text: seq<int>)
    requires LineEnd(text) < |text|
    ensures var n := LineEnd(text); Size(text) == Size(text[..n] + [LF]) + Size(text[n + 1..])
  {
    hide Size, LineEnd;
    var n := LineEnd(text);
    assert text == (text[..n] + [LF]) + text[n + 1..];
    SizeAdds(text[..n] + [LF], text[n + 1..]);
  }

  /** Draining moves bytes from the buffer to the consumed count and leaves an unfinished line. */
  lemma {:induction false} DrainConserves(d: Decoder, s: Parser)
    requires Drain(d, s).1.Ok?
    ensures var t := Drain(d, s).0;
      && t.consumed + Size(t.buffer) == s.consumed + Size(s.buffer) && t.consumed >= s.consumed
      && LineEnd(t.buffer) == |t.buffer| && t.closed == s.closed && t.failed == s.failed
      && (Encodable(s.buffer) ==> Encodable(t.buffer))
    decreases |s.buffer|
  {
    var n := LineEnd(s.buffer);
    if n < |s.buffer| {
      LineSizes(s.buffer);
      var t := Accept(d, s.(buffer := s.buffer[n + 1..]), s.buffer[..n], Size(s.buffer[..n] + [LF])).0;
      AcceptConserves(d, s.(buffer := s.buffer[n + 1..]), s.buffer[..n], Size(s.buffer[..n] + [LF]));
      hide Accept, Size, LineEnd;
      DrainConserves(d, t);
    }
  }

  lemma AcceptConserves(d: Decoder, s: Parser, line: seq<int>, size: nat)
    requires Accept(d, s, line, size).1.Ok?
    ensures var t := Accept(d, s, line, size).0;
      t.consumed == s.consumed + size && t.buffer == s.buffer && t.closed == s.closed && t.failed == s.failed
    ensures size <= RECORD_LIMIT
  {
  }

  /** Consumed and buffered bytes together are always the bytes fed. */
  lemma FeedAccounts(d: Decoder, s: Parser, text: seq<int>, fed: nat)
    requires Accounts(s, fed)
    ensures Accounts(FeedText(d, s, text).0, fed + Size(text))
  {
    hide Drain, Size, Encodable, LineEnd;
    if FeedText(d, s, text).1.Ok? {
      SizeAdds(s.buffer, text);
      DrainConserves(d, s.(buffer := s.buffer + text));
    }
  }

  // ----- ranges -------------------------------------------------------------

  /** Progress records lie one after another between two byte offsets, with rising numbers up to the limit. */
  ghost predicate Ordered(p: seq<Progress>, from: nat, to: nat, index: nat) {
    && (forall i :: 0 <= i < |p| ==> from <= p[i].start < p[i].end <= to && index < p[i].index <= MAX_PROGRESS)
    && (forall i, j :: 0 <= i < j < |p| ==> p[i].end <= p[j].start && p[i].index < p[j].index)
    && from <= to
  }

  lemma OrderedJoins(p: seq<Progress>, q: seq<Progress>, from: nat, mid: nat, to: nat, index: nat, next: nat)
    requires Ordered(p, from, mid, index) && Ordered(q, mid, to, next) && index <= next
    requires forall i :: 0 <= i < |p| ==> p[i].index <= next
    ensures Ordered(p + q, from, to, index)
  {
  }

  lemma {:induction false} DrainOrders(d: Decoder, s: Parser)
    requires Drain(d, s).1.Ok?
    ensures var (t, r) := Drain(d, s);
      && Ordered(r.value, s.consumed, t.consumed, s.records) && s.records <= t.records
      && forall i :: 0 <= i < |r.value| ==> r.value[i].index <= t.records
    decreases |s.buffer|
  {
    var n := LineEnd(s.buffer);
    if n < |s.buffer| {
      var (line, size) := (s.buffer[..n], Size(s.buffer[..n] + [LF]));
      var (t, r) := Accept(d, s.(buffer := s.buffer[n + 1..]), line, size);
      AcceptOrders(d, s.(buffer := s.buffer[n + 1..]), line, size);
      LineIsNotEmpty(line);
      DrainConserves(d, t);
      hide Accept, Size, LineEnd;
      DrainOrders(d, t);
      var (u, rest) := Drain(d, t);
      OrderedJoins(AsList(r.value), rest.value, s.consumed, t.consumed, u.consumed, s.records, t.records);
    }
  }

  lemma LineIsNotEmpty(line: seq<int>)
    ensures Size(line + [LF]) > 0
  {
    SizeAdds(line, [LF]);
  }

  lemma AcceptOrders(d: Decoder, s: Parser, line: seq<int>, size: nat)
    requires Accept(d, s, line, size).1.Ok? && size > 0
    ensures var (t, r) := Accept(d, s, line, size);
      && t.buffer == s.buffer && s.records <= t.records
      && Ordered(AsList(r.value), s.consumed, t.consumed, s.records)
      && forall i :: 0 <= i < |AsList(r.value)| ==> AsList(r.value)[i].index <= t.records
  {
  }

  // ----- chunks -------------------------------------------------------------

  lemma {:induction false} LineEndOfJoined(x: seq<int>, y: seq<int>)
    ensures LineEnd(x) < |x| ==> LineEnd(x + y) == LineEnd(x)
    ensures LineEnd(x) == |x| ==> LineEnd(x + y) == |x| + LineEnd(y)
    decreases |x|
  {
    if x == [] {
      assert x + y == y;
    } else if x[0] != LF {
      assert (x + y)[1..] == x[1..] + y;
      LineEndOfJoined(x[1..], y);
    }
  }

  /** The first line of the buffer, accepted. */
  function FirstLine(d: Decoder, s: Parser): Accepted
    requires LineEnd(s.buffer) < |s.buffer|
  {
    var n := LineEnd(s.buffer);
    Accept(d, s.(buffer := s.buffer[n + 1..]), s.buffer[..n], Size(s.buffer[..n] + [LF]))
  }

  lemma DrainUnfolds(d: Decoder, s: Parser)
    requires LineEnd(s.buffer) < |s.buffer|
    ensures var (t, r) := FirstLine(d, s);
      var (u, rest) := Drain(d, t);
      && Drain(d, s).0 == (if r.Fail? then t else u)
      && (Drain(d, s).1.Fail? <==> r.Fail? || rest.Fail?)
      && (!r.Fail? && !rest.Fail? ==> Drain(d, s).1.value == AsList(r.value) + rest.value)
  {
    hide Accept, Size, LineEnd;
  }

  lemma FirstLineOfJoined(d: Decoder, s: Parser, y: seq<int>)
    requires LineEnd(s.buffer) < |s.buffer|
    ensures LineEnd(s.buffer + y) < |s.buffer + y|
    ensures var (one, two) := (FirstLine(d, s), FirstLine(d, s.(buffer := s.buffer + y)));
      one.1 == two.1 && two.0 == one.0.(buffer := one.0.buffer + y) && |one.0.buffer| < |s.buffer|
  {
    hide Accept, Size, LineEnd;
    var (x, n) := (s.buffer, LineEnd(s.buffer));
    LineEndOfJoined(x, y);
    assert (x + y)[..n] == x[..n] && (x + y)[n + 1..] == x[n + 1..] + y;
    AcceptIgnoresBuffer(d, s, x[n + 1..], x[n + 1..] + y, x[..n], Size(x[..n] + [LF]));
  }

  /** Draining a longer buffer drains the shorter one first. */
  lemma {:induction false} DrainContinues(d: Decoder, s: Parser, y: seq<int>)
    ensures var (t, r) := Drain(d, s);
      var whole := Drain(d, s.(buffer := s.buffer + y));
      if r.Fail? then whole.1.Fail?
      else
        var rest := Drain(d, t.(buffer := t.buffer + y));
        && (whole.1.Ok? <==> rest.1.Ok?)
        && (whole.1.Ok? ==> whole.0 == rest.0 && whole.1.value == r.value + rest.1.value)
    decreases |s.buffer|
  {
    hide Drain, FirstLine, LineEnd;
    if LineEnd(s.buffer) < |s.buffer| {
      FirstLineOfJoined(d, s, y);
      DrainUnfolds(d, s);
      DrainUnfolds(d, s.(buffer := s.buffer + y));
      DrainContinues(d, FirstLine(d, s).0, y);
    } else {
      DrainStops(d, s);
      PrependNothing(d, s.(buffer := s.buffer + y));
    }
  }

  lemma DrainStops(d: Decoder, s: Parser)
    requires LineEnd(s.buffer) == |s.buffer|
    ensures Drain(d, s) == (s, Ok([]))
  {
  }

  lemma PrependNothing(d: Decoder, s: Parser)
    ensures Drain(d, s).1.Ok? ==> [] + Drain(d, s).1.value == Drain(d, s).1.value
  {
    hide Drain;
  }

  lemma AcceptIgnoresBuffer(d: Decoder, s: Parser, one: seq<int>, other: seq<int>, line: seq<int>, size: nat)
    ensures var (a, b) := (Accept(d, s.(buffer := one), line, size), Accept(d, s.(buffer := other), line, size));
      && a.1 == b.1 && a.0.buffer == one && b.0 == a.0.(buffer := other)
  {
  }

  /** A buffered line that is later completed fits the record limit if the completed line does. */
  lemma UnfinishedLineFits(d: Decoder, t: Parser, y: seq<int>)
    requires LineEnd(t.buffer) == |t.buffer|
    requires Drain(d, t.(buffer := t.buffer + y)).1.Ok?
    requires Size(Drain(d, t.(buffer := t.buffer + y)).0.buffer) <= RECORD_LIMIT
    ensures Size(t.buffer) <= RECORD_LIMIT
  {
    hide Accept, Size;
    var joined := t.buffer + y;
    LineEndOfJoined(t.buffer, y);
    var n := LineEnd(joined);
    if n == |joined| { SizeAdds(t.buffer, y); }
    else {
      AcceptConserves(d, t.(buffer := joined[n + 1..]), joined[..n], Size(joined[..n] + [LF]));
      assert joined[..n] + [LF] == t.buffer + (y[..n - |t.buffer|] + [LF]);
      SizeAdds(t.buffer, y[..n - |t.buffer|] + [LF]);
    }
  }

  /** Feeding a text in two parts succeeds exactly when feeding it whole does, with the same result. */
  lemma FeedSplits(d: Decoder, s: Parser, a: seq<int>, b: seq<int>, fed: nat)
    requires Accounts(s, fed)
    ensures var (first, whole) := (FeedText(d, s, a), FeedText(d, s, a + b));
      && (whole.1.Ok? <==> first.1.Ok? && FeedText(d, first.0, b).1.Ok?)
      && (whole.1.Ok? ==>
            whole.0 == FeedText(d, first.0, b).0 && whole.1.value == first.1.value + FeedText(d, first.0, b).1.value)
  {
    hide Accept, Drain, Size;
    if !s.closed && !s.failed {
      var full := s.(buffer := s.buffer + a);
      var (t, r) := Drain(d, full);
      assert s.buffer + (a + b) == full.buffer + b;
      assert full.(buffer := full.buffer + b) == s.(buffer := s.buffer + (a + b));
      SizeAdds(full.buffer, b);
      EncodableParts(full.buffer, b);
      DrainContinues(d, full, b);
      if r.Ok? {
        DrainConserves(d, full);
        SizeAdds(t.buffer, b);
        if Encodable(full.buffer) { EncodableParts(t.buffer, b); }
        var rest := Drain(d, t.(buffer := t.buffer + b));
        if rest.1.Ok? && Size(rest.0.buffer) <= RECORD_LIMIT { UnfinishedLineFits(d, t, b); }
      }
    }
  }

  lemma EncodableParts(a: seq<int>, b: seq<int>)
    ensures Encodable(a + b) <==> Encodable(a) && Encodable(b)
  {
    var joined := a + b;
    if Encodable(joined) {
      forall i | 0 <= i < |a| ensures !Surrogate(a[i]) { assert joined[i] == a[i]; }
      forall i | 0 <= i < |b| ensures !Surrogate(b[i]) { assert joined[|a| + i] == b[i]; }
    }
  }

  /** Feeding chunk after chunk, until one fails. */
  function FeedAll(d: Decoder, s: Parser, chunks: seq<seq<int>>): Fed
    decreases |chunks|
  {
    if chunks == [] then (s, Ok([]))
    else
      var (t, r) := FeedText(d, s, chunks[0]);
      if r.Fail? then (t, r)
      else
        var (u, rest) := FeedAll(d, t, chunks[1..]);
        (u, if rest.Fail? then rest else Ok(r.value + rest.value))
  }

  lemma FeedNothing(d: Decoder, s: Parser, fed: nat)
    requires Accounts(s, fed) && !s.closed && !s.failed
    ensures FeedText(d, s, []) == (s, Ok([]))
  {
    assert s.buffer + [] == s.buffer;
  }

  /** For every cut of a text, feeding the pieces succeeds exactly when feeding the whole does, with the same state
      (so the same plan and the same finish) and the same progress records. */
  lemma {:induction false} ChunksDoNotMatter(d: Decoder, s: Parser, chunks: seq<seq<int>>, fed: nat)
    requires Accounts(s, fed) && !s.closed && !s.failed
    ensures var (pieces, whole) := (FeedAll(d, s, chunks), FeedText(d, s, Concat(chunks)));
      && (pieces.1.Ok? <==> whole.1.Ok?)
      && (whole.1.Ok? ==> pieces == whole)
    decreases |chunks|
  {
    hide FeedText, Accounts;
    if chunks == [] {
      FeedNothing(d, s, fed);
    } else {
      var (t, r) := FeedText(d, s, chunks[0]);
      FeedSplits(d, s, chunks[0], Concat(chunks[1..]), fed);
      FeedAccounts(d, s, chunks[0], fed);
      if r.Ok? {
        StaysOpen(d, s, chunks[0]);
        ChunksDoNotMatter(d, t, chunks[1..], fed + Size(chunks[0]));
      }
    }
  }

  lemma StaysOpen(d: Decoder, s: Parser, text: seq<int>)
    requires FeedText(d, s, text).1.Ok?
    ensures !FeedText(d, s, text).0.closed && !FeedText(d, s, text).0.failed
  {
    DrainConserves(d, s.(buffer := s.buffer + text));
    hide Drain, Size;
  }

  /** Everything a successful stream says: its records cover disjoint rising ranges of the bytes fed. */
  lemma StreamIsOrdered(d: Decoder, chunks: seq<seq<int>>)
    requires FeedAll(d, FRESH, chunks).1.Ok?
    ensures var (t, r) := FeedAll(d, FRESH, chunks);
      && Ordered(r.value, 0, t.consumed, 0) && t.consumed + Size(t.buffer) == Size(Concat(chunks))
      && |r.value| <= MAX_PROGRESS
  {
    hide FeedText, FeedAll, Accounts;
    FreshAccounts();
    ChunksDoNotMatter(d, FRESH, chunks, 0);
    var (t, r) := FeedText(d, FRESH, Concat(chunks));
    FeedAccounts(d, FRESH, Concat(chunks), 0);
    FeedOrders(d, FRESH, Concat(chunks));
    AccountsMean(t, Size(Concat(chunks)));
    IndexesRise(r.value, t.consumed, |r.value|);
  }

  lemma FreshAccounts()
    ensures Accounts(FRESH, 0)
  {
  }

  lemma AccountsMean(s: Parser, fed: nat)
    requires Accounts(s, fed) && !s.failed && !s.closed
    ensures s.consumed + Size(s.buffer) == fed
  {
  }

  lemma FeedOrders(d: Decoder, s: Parser, text: seq<int>)
    requires FeedText(d, s, text).1.Ok?
    ensures var (t, r) := FeedText(d, s, text); Ordered(r.value, s.consumed, t.consumed, s.records) && !t.closed && !t.failed
  {
    hide Drain, Size, Encodable, LineEnd;
    DrainOrders(d, s.(buffer := s.buffer + text));
    StaysOpen(d, s, text);
  }

  lemma {:induction false} IndexesRise(p: seq<Progress>, to: nat, n: nat)
    requires Ordered(p, 0, to, 0) && n <= |p|
    ensures n <= MAX_PROGRESS && (n > 0 ==> n <= p[n - 1].index)
  {
    if n > 0 {
      IndexesRise(p, to, n - 1);
      assert p[n - 1].index <= MAX_PROGRESS && (n > 1 ==> p[n - 2].index < p[n - 1].index);
    }
  }

  // ----- the parser ---------------------------------------------------------

  class PlanningStreamParser {
    const decoder: Decoder
    var buffer: seq<int>
    var consumed: nat
    var records: nat
    var rejected: nat
    var plan: Option<string>
    var closed: bool
    var failed: bool

    ghost function View(): Parser
      reads this
    {
      Parser(buffer, consumed, records, rejected, plan, closed, failed)
    }

    constructor (decoder: Decoder)
      ensures View() == FRESH && this.decoder == decoder
    {
      this.decoder := decoder;
      buffer, consumed, records, rejected := [], 0, 0, 0;
      plan, closed, failed := None, false, false;
    }

    /** The UTF-8 length of a text; none if it holds a surrogate. */
    method Measure(text: seq<int>) returns (size: Option<nat>)
      ensures size == if Encodable(text) then Some(Size(text)) else None
    {
      var n := 0;
      var i := 0;
      while i < |text|
        invariant i <= |text| && n == Size(text[..i]) && forall k :: 0 <= k < i ==> !Surrogate(text[k])
      {
        if Surrogate(text[i]) { return None; }
        assert text[..i + 1][..i] == text[..i];
        n := n + |Octets(text[i])|;
        i := i + 1;
      }
      assert text[..i] == text;
      return Some(n);
    }

    method FindLineEnd() returns (n: nat)
      ensures n == LineEnd(buffer)
    {
      n := 0;
      while n < |buffer| && buffer[n] != LF
        invariant n <= |buffer| && LineEnd(buffer) == n + LineEnd(buffer[n..])
      {
        assert buffer[n..][1..] == buffer[n + 1..];
        n := n + 1;
      }
    }

    method Fail()
      modifies this`buffer, this`failed
      ensures View() == Broken(old(View()))
    {
      failed := true;
      buffer := [];
    }

    method AcceptRecord(line: seq<int>, size: nat) returns (r: Outcome<Option<Progress>, Fault>)
      modifies this`consumed, this`records, this`rejected, this`plan
      ensures (View(), r) == Accept(decoder, old(View()), line, size)
    {
      hide Shown;
      if size > RECORD_LIMIT { return Outcome.Fail(RecordLimit); }
      if decoder.blank(line) { consumed := consumed + size; return Ok(None); }
      if plan.Some? { return Outcome.Fail(AfterPlan); }
      var row := decoder.row(line);
      if row.Undecodable? { return Outcome.Fail(InvalidRecord); }
      if row.BadEnvelope? { return Outcome.Fail(BadVersion); }
      records := records + 1;
      var progress: Option<Progress> := None;
      if row.ProgressRow? {
        if records > MAX_PROGRESS { return Outcome.Fail(ProgressLimit); }
        if !Shown(decoder, row.text) { rejected := rejected + 1; }
        else { progress := Some(ShownText(row.text, size)); }
      } else if row.PlanRow? {
        if row.plan.None? { return Outcome.Fail(PlanNotObject); }
        plan := row.plan;
      } else {
        return Outcome.Fail(UnknownRecord);
      }
      consumed := consumed + size;
      return Ok(progress);
    }

    function ShownText(text: Option<seq<int>>, size: nat): Progress
      reads this
      requires Shown(decoder, text)
    {
      Progress(text.value, records, consumed, consumed + size)
    }

    /** Accepts the complete lines of the buffer. */
    method AcceptLines() returns (r: Outcome<seq<Progress>, Fault>)
      requires Encodable(buffer)
      modifies this`buffer, this`consumed, this`records, this`rejected, this`plan
      ensures (View(), r) == Drain(decoder, old(View())) && (r.Ok? ==> Encodable(buffer))
    {
      hide Accept, LineEnd, Size;
      ghost var start := View();
      var progress: seq<Progress> := [];
      var n := FindLineEnd();
      AfterNothing(Drain(decoder, start));
      while n < |buffer|
        invariant n == LineEnd(buffer) && Encodable(buffer)
        invariant Drain(decoder, start) == After(progress, Drain(decoder, View()))
        decreases |buffer|
      {
        var line := buffer[..n];
        DrainOne(decoder, View(), progress);
        buffer := buffer[n + 1..];
        var size := Measure(line + [LF]);
        assert size.Some?;
        var record := AcceptRecord(line, size.value);
        if record.Fail? { return Outcome.Fail(record.fault); }
        progress := progress + AsList(record.value);
        n := FindLineEnd();
      }
      DrainNone(decoder, View(), progress);
      return Ok(progress);
    }

    method Feed(text: seq<int>) returns (r: Outcome<seq<Progress>, Fault>)
      modifies this
      ensures (View(), r) == FeedText(decoder, old(View()), text)
    {
      hide Drain, Size, Encodable;
      if closed || failed { return Outcome.Fail(ParserClosed); }
      buffer := buffer + text;
      var total := Measure(buffer);
      if total.None? { Fail(); return Outcome.Fail(NotUnicode); }
      if consumed + total.value > TOTAL_LIMIT { Fail(); return Outcome.Fail(TotalLimit); }
      r := AcceptLines();
      if r.Fail? { Fail(); return; }
      var left := Measure(buffer);
      if left.value > RECORD_LIMIT { Fail(); return Outcome.Fail(RecordLimit); }
    }

    method Finish() returns (r: Outcome<string, Fault>)
      modifies this
      ensures (View(), r) == FinishText(decoder, old(View()))
    {
      hide Accept, Size, Encodable;
      if closed || failed { failed := true; return Outcome.Fail(MissingPlan); }
      if buffer != [] {
        var line := buffer;
        buffer := [];
        var size := Measure(line);
        if size.None? { Fail(); return Outcome.Fail(NotUnicode); }
        var record := AcceptRecord(line, size.value);
        if record.Fail? { Fail(); return Outcome.Fail(record.fault); }
        if record.value.Some? { Fail(); return Outcome.Fail(Unterminated); }
      }
      if plan.None? { Fail(); return Outcome.Fail(MissingPlan); }
      closed := true;
      return Ok(plan.value);
    }
  }

  /** The records accepted so far, followed by what draining the rest yields. */
  function After(progress: seq<Progress>, rest: Fed): Fed {
    (rest.0, if rest.1.Fail? then rest.1 else Ok(progress + rest.1.value))
  }

  lemma AfterNothing(rest: Fed)
    ensures After([], rest) == rest
  {
    if rest.1.Ok? { assert [] + rest.1.value == rest.1.value; }
  }

  lemma DrainNone(d: Decoder, s: Parser, progress: seq<Progress>)
    requires LineEnd(s.buffer) == |s.buffer|
    ensures After(progress, Drain(d, s)) == (s, Ok(progress))
  {
    assert progress + [] == progress;
  }

  lemma DrainOne(d: Decoder, s: Parser, progress: seq<Progress>)
    requires LineEnd(s.buffer) < |s.buffer|
    ensures var n := LineEnd(s.buffer);
      var (t, r) := Accept(d, s.(buffer := s.buffer[n + 1..]), s.buffer[..n], Size(s.buffer[..n] + [LF]));
      After(progress, Drain(d, s)) == if r.Fail? then (t, Fail(r.fault)) else After(progress + AsList(r.value), Drain(d, t))
  {
    hide Accept, Size;
    var n := LineEnd(s.buffer);
    var (t, r) := Accept(d, s.(buffer := s.buffer[n + 1..]), s.buffer[..n], Size(s.buffer[..n] + [LF]));
    if r.Ok? && Drain(d, t).1.Ok? {
      var rest := Drain(d, t).1.value;
      assert progress + (AsList(r.value) + rest) == (progress + AsList(r.value)) + rest;
    }
  }
}
