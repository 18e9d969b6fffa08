/** How far a run of a plan gets: what a round does, and which plans can be worked through. */
module PlanProgress {
  import opened Prelude
  import opened Plan
  import opened RunState
  import opened PlanExecution
  import RunStateLaws

  // ----- what a round does --------------------------------------------------

  /** Step `n` is finished, step `m` runs, and nothing else is different. */
  ghost predicate MovesOn(before: seq<TaskStep>, after: seq<TaskStep>, n: nat, m: nat) {
    && n < m <= |before| == |after|
    && after[n].status.Done? && SameWork(before[n], after[n]) && after[n].error == before[n].error
    && (before[n].summary.Some? && before[n].summary.value != "" ==> after[n].summary == before[n].summary)
    && (forall k :: n < k < m ==> before[k].status.Done?)
    && (m < |before| ==> !before[m].status.Done? && after[m] == before[m].(status := Running))
    && (forall k :: 0 <= k < |before| && k != n && k != m ==> after[k] == before[k])
  }

  /** A completed round on a running tool step finishes that step and starts the next unfinished one. */
  lemma CompletedRoundMovesOn(plan: seq<TaskStep>, workIds: seq<string>, s: Snapshot)
    requires Runnable(plan, workIds) && OnPlan(plan, workIds, s)
    requires NextIncomplete(s.steps) < |plan| && s.steps[NextIncomplete(s.steps)].IsTool()
    ensures OnToolRoundCompleted(s, Completed).Ok?
    ensures var (t, n) := (OnToolRoundCompleted(s, Completed).value, NextIncomplete(s.steps));
      && t == s.(steps := t.steps) && OnPlan(plan, workIds, t) && MovesOn(s.steps, t.steps, n, NextIncomplete(t.steps))
  {
    hide Valid, Runnable, OnPlan;
    FinishStaysOnPlan(plan, workIds, s);
    OnPlanIs(plan, workIds, s);
    var n := NextIncomplete(s.steps);
    InLineShape(s.steps);
    assert RunningTool(s.steps) == n;
    var done := s.steps[n := Summarized(s.steps[n], Done, "Planned tool step completed.")];
    FinishedMovesOn(s.steps, n, done);
    NextIsNotConfirm(plan, workIds, s, NextIncomplete(done));
  }

  lemma OnPlanIs(plan: seq<TaskStep>, workIds: seq<string>, s: Snapshot)
    requires OnPlan(plan, workIds, s)
    ensures s.status.RunRunning? && |s.steps| == |plan| && InLine(s.steps)
    ensures forall k :: 0 <= k < |plan| ==> SameWork(plan[k], s.steps[k])
  {
  }

  lemma NextIsNotConfirm(plan: seq<TaskStep>, workIds: seq<string>, s: Snapshot, k: nat)
    requires Runnable(plan, workIds) && OnPlan(plan, workIds, s)
    ensures k < |plan| ==> !s.steps[k].kind.Confirm?
  {
    if k < |plan| { SamePlanKinds(plan, s, k); }
  }

  lemma FinishedMovesOn(steps: seq<TaskStep>, n: nat, done: seq<TaskStep>)
    requires InLine(steps) && n == NextIncomplete(steps) < |steps|
    requires done == steps[n := Summarized(steps[n], Done, "Planned tool step completed.")]
    ensures var m := NextIncomplete(done);
      (m < |steps| ==> !steps[m].kind.Confirm?) ==>
        MovesOn(steps, Advanced(done), n, m) && NextIncomplete(Advanced(done)) == m
  {
    InLineShape(steps);
    var m := NextIncomplete(done);
    if m < |steps| ==> !steps[m].kind.Confirm? {
      assert forall k :: n < k < m ==> done[k] == steps[k] && steps[k].status.Done?;
      assert forall k :: 0 <= k < m ==> Advanced(done)[k] == done[k];
      FirstUnfinished(Advanced(done), m);
    }
  }

  /** Only step `n` is different, it is no longer running, and nothing else runs. */
  ghost predicate Stops(s: Snapshot, t: Snapshot, n: nat, status: StepStatus, error: string) {
    && n < |s.steps| == |t.steps| && t == s.(steps := s.steps[n := t.steps[n]]) && SameWork(s.steps[n], t.steps[n])
    && t.steps[n].status == status && t.steps[n].error == Some(error)
    && forall k :: 0 <= k < |t.steps| ==> !t.steps[k].status.Running?
  }

  lemma StoppingIsValid(plan: seq<TaskStep>, workIds: seq<string>, s: Snapshot, step: TaskStep)
    requires Runnable(plan, workIds) && OnPlan(plan, workIds, s) && NextIncomplete(s.steps) < |plan|
    requires SameWork(s.steps[NextIncomplete(s.steps)], step) && step.status.Finished() && step.error.Some?
    ensures var (n, t) := (NextIncomplete(s.steps), s.(steps := s.steps[NextIncomplete(s.steps) := step]));
      Valid(t) && Stops(s, t, n, step.status, step.error.value)
  {
    InLineIsValid(plan, workIds, s);
    InLineShape(s.steps);
    assert Ids(s.steps[NextIncomplete(s.steps) := step]) == Ids(s.steps);
  }

  lemma RunningToolIsFirst(plan: seq<TaskStep>, workIds: seq<string>, s: Snapshot)
    requires OnPlan(plan, workIds, s) && NextIncomplete(s.steps) < |plan| && s.steps[NextIncomplete(s.steps)].IsTool()
    ensures RunningTool(s.steps) == NextIncomplete(s.steps) && s.status.RunRunning?
  {
    InLineShape(s.steps);
  }

  /** The other outcomes: progress changes nothing, a declined call blocks the step and starts none, the rest are refused. */
  lemma OtherRounds(plan: seq<TaskStep>, workIds: seq<string>, s: Snapshot)
    requires Runnable(plan, workIds) && OnPlan(plan, workIds, s)
    requires NextIncomplete(s.steps) < |plan| && s.steps[NextIncomplete(s.steps)].IsTool()
    ensures OnToolRoundCompleted(s, Progressed) == Ok(s)
    ensures forall outcome: BatchOutcome :: outcome.CanceledBatch? || outcome.RejectedBatch? || outcome.FailedBatch? ==>
      OnToolRoundCompleted(s, outcome) == Fail(BadOutcome)
    ensures OnToolRoundCompleted(s, Declined).Ok?
    ensures Stops(s, OnToolRoundCompleted(s, Declined).value, NextIncomplete(s.steps), Blocked, "approval_rejected")
  {
    hide Valid, Stops, Runnable, NextIncomplete, RunningTool, InLine;
    RunningToolIsFirst(plan, workIds, s);
    StoppingIsValid(plan, workIds, s, s.steps[NextIncomplete(s.steps)].(status := Blocked,
      summary := Some("User declined approval; the planned tool was not executed."), error := Some("approval_rejected")));
  }

  /** A failed round fails the running tool step, with its reason, and starts none. */
  lemma FailedRoundStops(plan: seq<TaskStep>, workIds: seq<string>, s: Snapshot, error: string)
    requires Runnable(plan, workIds) && OnPlan(plan, workIds, s)
    requires NextIncomplete(s.steps) < |plan| && s.steps[NextIncomplete(s.steps)].IsTool()
    ensures OnToolRoundFailed(s, error).Ok?
    ensures Stops(s, OnToolRoundFailed(s, error).value, NextIncomplete(s.steps), Failed,
                  if error == "" then "tool_execution_failed" else error)
  {
    hide Valid, Stops, Runnable, NextIncomplete, RunningTool, InLine;
    RunningToolIsFirst(plan, workIds, s);
    StoppingIsValid(plan, workIds, s, s.steps[NextIncomplete(s.steps)].(status := Failed,
      summary := Some("Tool execution failed; runtime replanning requested."),
      error := Some(if error == "" then "tool_execution_failed" else error)));
  }

  // ----- progress -----------------------------------------------------------

  function Unfinished(steps: seq<TaskStep>): nat {
    if steps == [] then 0
    else Unfinished(steps[..|steps| - 1]) + if steps[|steps| - 1].status.Finished() then 0 else 1
  }

  /** Finishing steps lowers the count. */
  lemma {:induction false} UnfinishedFalls(before: seq<TaskStep>, after: seq<TaskStep>)
    requires |before| == |after|
    requires forall k :: 0 <= k < |before| && before[k].status.Finished() ==> after[k].status.Finished()
    ensures Unfinished(after) <= Unfinished(before)
    ensures (exists k :: 0 <= k < |before| && !before[k].status.Finished() && after[k].status.Finished()) ==>
      Unfinished(after) < Unfinished(before)
    decreases |before|
  {
    if before != [] { UnfinishedFalls(before[..|before| - 1], after[..|after| - 1]); }
  }

  /** What an accepted call does: the steps before the one it starts are done, and all behind are as before. */
  ghost predicate Starts(before: seq<TaskStep>, after: seq<TaskStep>, g: nat) {
    && g < |before| == |after| && after[g] == before[g].(status := Running) && before[g].IsTool()
    && (forall k :: 0 <= k < g ==> SameWork(before[k], after[k]) && after[k].status.Done?)
    && (forall k :: g < k < |before| ==> after[k] == before[k])
  }

  /** The step that a call starts: the first unfinished one, or the next if that is a model step. */
  ghost predicate IsGranting(steps: seq<TaskStep>, g: nat) {
    var n := NextIncomplete(steps);
    && n <= g < |steps| && steps[g].IsTool() && !steps[g].status.Finished()
    && (forall k :: n < k < g ==> steps[k].status.Finished()) && (g != n ==> steps[n].IsModel())
  }

  lemma GrantsExactly(plan: seq<TaskStep>, workIds: seq<string>, s: Snapshot)
    requires Runnable(plan, workIds) && OnPlan(plan, workIds, s)
    ensures AllowedNow(s) != {} <==> exists g: nat :: IsGranting(s.steps, g)
    ensures forall g: nat :: IsGranting(s.steps, g) ==> AllowedNow(s) == Elements(s.steps[g].tools)
  {
    InLineShape(s.steps);
    var n := NextIncomplete(s.steps);
    if n < |plan| {
      SamePlanKinds(plan, s, n);
      var g := if s.steps[n].IsTool() then n else First(s.steps, (t: TaskStep) => !t.status.Finished(), n + 1);
      if g < |plan| { SamePlanKinds(plan, s, g); }
      if g < |plan| && s.steps[g].IsTool() {
        assert IsGranting(s.steps, g) && s.steps[g].tools[0] in Elements(s.steps[g].tools);
      }
      assert forall h: nat :: IsGranting(s.steps, h) ==> h == g;
    }
  }

  lemma AcceptedCallStarts(plan: seq<TaskStep>, workIds: seq<string>, s: Snapshot, g: nat)
    requires Runnable(plan, workIds) && OnPlan(plan, workIds, s) && IsGranting(s.steps, g)
    ensures OnToolCallsStarted(s, AllowedNow(s)).Ok?
    ensures var t := OnToolCallsStarted(s, AllowedNow(s)).value;
      OnPlan(plan, workIds, t) && NextIncomplete(t.steps) == g && Starts(s.steps, t.steps, g)
  {
    GrantsExactly(plan, workIds, s);
    CallsStayOnPlan(plan, workIds, s, AllowedNow(s));
    CallStarts(plan, workIds, s, g);
  }

  /** What an accepted call leaves: the running model step closed, and the tool step behind it started. */
  lemma CallLeaves(s: Snapshot, names: set<string>)
    requires OnToolCallsStarted(s, names).Ok? && s.status.RunRunning?
    ensures var (t, closed) := (OnToolCallsStarted(s, names).value, ModelClosed(s.steps));
      var k := ToolToStart(closed);
      k < |closed| == |s.steps| && t.steps == closed[k := closed[k].(status := Running)]
  {
    hide Valid, ModelClosed, AllowedNow;
  }

  lemma ClosedSteps(steps: seq<TaskStep>, n: nat)
    requires InLine(steps) && n == NextIncomplete(steps) < |steps| && !(steps[n].IsModel() && steps[n].IsTool())
    ensures var closed := ModelClosed(steps);
      && (forall k :: 0 <= k < |steps| && k != n ==> closed[k] == steps[k])
      && (if steps[n].IsModel() then SameWork(steps[n], closed[n]) && closed[n].status.Done? else closed[n] == steps[n])
  {
    InLineShape(steps);
  }

  lemma ToolToStartIs(closed: seq<TaskStep>, g: nat)
    requires g < |closed| && closed[g].IsTool() && !closed[g].status.Finished()
    requires forall k :: 0 <= k < g ==> closed[k].status.Finished()
    requires forall k :: g < k < |closed| ==> !closed[k].status.Running?
    ensures ToolToStart(closed) == g
  {
    FirstUnfinished(closed, g);
  }

  lemma CallStarts(plan: seq<TaskStep>, workIds: seq<string>, s: Snapshot, g: nat)
    requires Runnable(plan, workIds) && OnPlan(plan, workIds, s) && IsGranting(s.steps, g)
    requires OnToolCallsStarted(s, AllowedNow(s)).Ok?
    ensures var t := OnToolCallsStarted(s, AllowedNow(s)).value;
      NextIncomplete(t.steps) == g && Starts(s.steps, t.steps, g)
  {
    hide Valid, OnToolCallsStarted, AllowedNow, ModelClosed, ToolToStart, Runnable;
    InLineShape(s.steps);
    var n := NextIncomplete(s.steps);
    ModelOrTool(plan, workIds, s, n);
    ModelOrTool(plan, workIds, s, g);
    CallLeaves(s, AllowedNow(s));
    ClosedSteps(s.steps, n);
    var closed := ModelClosed(s.steps);
    ToolToStartIs(closed, g);
    var t := closed[g := closed[g].(status := Running)];
    FirstUnfinished(t, g);
  }

  lemma ModelOrTool(plan: seq<TaskStep>, workIds: seq<string>, s: Snapshot, k: nat)
    requires Runnable(plan, workIds) && OnPlan(plan, workIds, s) && k < |plan|
    ensures s.steps[k].IsModel() <==> !s.steps[k].IsTool()
  {
    SamePlanKinds(plan, s, k);
  }

  /** Each accepted call followed by a completed round strictly lowers the number of unfinished steps. */
  lemma CallAndFinishProgress(plan: seq<TaskStep>, workIds: seq<string>, s: Snapshot, names: set<string>)
    requires Runnable(plan, workIds) && OnPlan(plan, workIds, s) && OnToolCallsStarted(s, names).Ok?
    ensures var t := Run(s, [Calls(names), Finish]);
      OnPlan(plan, workIds, t) && Unfinished(t.steps) < Unfinished(s.steps)
  {
    CallsStayOnPlan(plan, workIds, s, names);
    GrantsExactly(plan, workIds, s);
    var g: nat :| IsGranting(s.steps, g);
    CallIsGranted(plan, workIds, s, names, g);
    RoundOf(plan, workIds, s, g);
    hide OnPlan, Runnable, Next, IsGranting, WorkedOff, AllowedNow;
    TwoEvents(s, Calls(names), Finish);
    WorkedOffFalls(s.steps, Run(s, [Calls(names), Finish]).steps, g);
  }

  lemma TwoEvents(s: Snapshot, a: Event, b: Event)
    ensures Run(s, [a, b]) == Next(Next(s, a), b)
  {
    assert [a, b][1..] == [b] && [b][1..] == [];
    assert Run(Next(s, a), [b]) == Run(Next(Next(s, a), b), []);
  }

  lemma CallIsGranted(plan: seq<TaskStep>, workIds: seq<string>, s: Snapshot, names: set<string>, g: nat)
    requires Runnable(plan, workIds) && OnPlan(plan, workIds, s) && OnToolCallsStarted(s, names).Ok? && IsGranting(s.steps, g)
    ensures names == AllowedNow(s)
  {
    CallsStayOnPlan(plan, workIds, s, names);
    GrantsExactly(plan, workIds, s);
    ModelOrTool(plan, workIds, s, g);
    SamePlanKinds(plan, s, g);
    OnlyTool(s.steps[g].tools, names);
  }

  /** Everything up to the tool step `g` is done, and behind it at most one step has been started. */
  ghost predicate WorkedOff(before: seq<TaskStep>, after: seq<TaskStep>, g: nat) {
    && g < |before| == |after|
    && (forall k :: 0 <= k <= g ==> SameWork(before[k], after[k]) && after[k].status.Done?)
    && (forall k :: g < k < |before| ==> SameWork(before[k], after[k]))
    && (forall k :: g < k < |before| ==> (before[k].status.Finished() <==> after[k].status.Finished()))
  }

  lemma RoundOf(plan: seq<TaskStep>, workIds: seq<string>, s: Snapshot, g: nat)
    requires Runnable(plan, workIds) && OnPlan(plan, workIds, s) && IsGranting(s.steps, g)
    ensures var t := Next(Next(s, Calls(AllowedNow(s))), Finish);
      OnPlan(plan, workIds, t) && WorkedOff(s.steps, t.steps, g)
  {
    hide OnToolCallsStarted, OnToolRoundCompleted, AllowedNow, Runnable, OnPlan, InLine, NextIncomplete;
    AcceptedCallStarts(plan, workIds, s, g);
    var t := Next(s, Calls(AllowedNow(s)));
    OnPlanIs(plan, workIds, t);
    StartedIsTool(s.steps, t.steps, g);
    CompletedRoundMovesOn(plan, workIds, t);
    StartsThenMoves(s.steps, t.steps, Next(t, Finish).steps, g, NextIncomplete(Next(t, Finish).steps));
  }

  lemma StartedIsTool(before: seq<TaskStep>, after: seq<TaskStep>, g: nat)
    requires Starts(before, after, g)
    ensures g < |after| && after[g].IsTool()
  {
  }

  lemma StartsThenMoves(a: seq<TaskStep>, b: seq<TaskStep>, c: seq<TaskStep>, g: nat, m: nat)
    requires Starts(a, b, g) && MovesOn(b, c, g, m)
    requires forall k :: g < k < |a| ==> a[k].status.Pending? || a[k].status.Running? || a[k].status.Done?
    ensures WorkedOff(a, c, g)
  {
  }

  lemma WorkedOffFalls(before: seq<TaskStep>, after: seq<TaskStep>, g: nat)
    requires WorkedOff(before, after, g) && !before[g].status.Finished()
    ensures Unfinished(after) < Unfinished(before)
  {
    UnfinishedFalls(before, after);
    assert after[g].status.Finished();
  }

  // ----- which plans can be worked through -----------------------------------

  ghost predicate ToolsDone(steps: seq<TaskStep>) {
    forall k :: 0 <= k < |steps| && steps[k].IsTool() ==> steps[k].status.Done?
  }

  /** Two model steps follow each other, with a tool step behind them that is not done. */
  ghost predicate StuckAt(steps: seq<TaskStep>, i: nat, j: nat, k: nat) {
    && i < j < k < |steps| && steps[i].IsModel() && steps[j].IsModel() && steps[k].IsTool()
    && !steps[i].status.Finished() && !steps[j].status.Finished() && !steps[k].status.Finished()
    && forall m :: i < m < j ==> steps[m].status.Finished()
  }

  ghost predicate Passable(steps: seq<TaskStep>) { !exists i: nat, j: nat, k: nat :: StuckAt(steps, i, j, k) }

  /** In passable steps the unfinished step behind a model step is no model step while a tool step is open behind both. */
  lemma NoModelNext(steps: seq<TaskStep>, i: nat, j: nat, k: nat)
    requires Passable(steps) && i < j <= k < |steps| && steps[i].IsModel() && steps[k].IsTool() && !steps[k].IsModel()
    requires !steps[i].status.Finished() && !steps[j].status.Finished() && !steps[k].status.Finished()
    requires forall m :: i < m < j ==> steps[m].status.Finished()
    ensures !steps[j].IsModel()
  {
    assert !StuckAt(steps, i, j, k);
  }

  /** A step that can be granted exists as long as a tool step is open, unless two model steps are in the way. */
  lemma PassableGrants(plan: seq<TaskStep>, workIds: seq<string>, s: Snapshot)
    requires Runnable(plan, workIds) && OnPlan(plan, workIds, s) && Passable(s.steps) && !ToolsDone(s.steps)
    ensures exists g: nat :: IsGranting(s.steps, g)
  {
    hide Runnable;
    InLineShape(s.steps);
    var n := NextIncomplete(s.steps);
    var k: nat :| k < |s.steps| && s.steps[k].IsTool() && !s.steps[k].status.Done?;
    ModelOrTool(plan, workIds, s, n);
    if s.steps[n].IsTool() { assert IsGranting(s.steps, n); }
    else {
      var g := First(s.steps, (t: TaskStep) => !t.status.Finished(), n + 1);
      assert g <= k;
      ModelOrTool(plan, workIds, s, g);
      ModelOrTool(plan, workIds, s, k);
      NoModelNext(s.steps, n, g, k);
      assert IsGranting(s.steps, g);
    }
  }

  lemma WorkedOffStaysPassable(before: seq<TaskStep>, after: seq<TaskStep>, g: nat)
    requires WorkedOff(before, after, g) && Passable(before)
    ensures Passable(after)
  {
    forall i: nat, j: nat, k: nat | StuckAt(after, i, j, k) ensures StuckAt(before, i, j, k) { }
  }

  /** A run of a passable plan can be brought to the end of its tool steps. */
  lemma {:induction false} PassableGetsDone(plan: seq<TaskStep>, workIds: seq<string>, s: Snapshot) returns (events: seq<Event>)
    requires Runnable(plan, workIds) && OnPlan(plan, workIds, s) && Passable(s.steps)
    ensures ToolsDone(Run(s, events).steps)
    decreases Unfinished(s.steps)
  {
    hide Runnable, OnPlan, Passable, AllowedNow, Next, WorkedOff;
    if ToolsDone(s.steps) { return []; }
    PassableGrants(plan, workIds, s);
    var g: nat :| IsGranting(s.steps, g);
    RoundOf(plan, workIds, s, g);
    var t := Next(Next(s, Calls(AllowedNow(s))), Finish);
    WorkedOffFalls(s.steps, t.steps, g);
    WorkedOffStaysPassable(s.steps, t.steps, g);
    var rest := PassableGetsDone(plan, workIds, t);
    events := [Calls(AllowedNow(s)), Finish] + rest;
    RunTwoMore(s, Calls(AllowedNow(s)), Finish, rest);
  }

  lemma RunTwoMore(s: Snapshot, a: Event, b: Event, rest: seq<Event>)
    ensures Run(s, [a, b] + rest) == Run(Next(Next(s, a), b), rest)
  {
    assert ([a, b] + rest)[1..] == [b] + rest && ([b] + rest)[1..] == rest;
  }

  /** No event gets past two model steps in a row. */
  lemma EventStaysStuck(plan: seq<TaskStep>, workIds: seq<string>, s: Snapshot, e: Event, i: nat, j: nat, k: nat)
    requires Runnable(plan, workIds) && OnPlan(plan, workIds, s) && StuckAt(s.steps, i, j, k)
    ensures StuckAt(Next(s, e).steps, i, j, k)
  {
    match e
    case Delta => DeltaChangesNothing(plan, workIds, s);
    case Progress =>
    case Calls(names) => if OnToolCallsStarted(s, names).Ok? { CallStaysStuck(plan, workIds, s, names, i, j, k); }
    case Finish => FinishStaysStuck(plan, workIds, s, i, j, k);
    hide OnToolCallsStarted, OnModelDelta, StuckAt, OnPlan, Runnable;
  }

  lemma CallStaysStuck(plan: seq<TaskStep>, workIds: seq<string>, s: Snapshot, names: set<string>, i: nat, j: nat, k: nat)
    requires Runnable(plan, workIds) && OnPlan(plan, workIds, s) && StuckAt(s.steps, i, j, k)
    requires OnToolCallsStarted(s, names).Ok?
    ensures StuckAt(OnToolCallsStarted(s, names).value.steps, i, j, k)
  {
    hide OnToolCallsStarted, Runnable, AllowedNow;
    CallsStayOnPlan(plan, workIds, s, names);
    GrantsExactly(plan, workIds, s);
    var g: nat :| IsGranting(s.steps, g);
    CallIsGranted(plan, workIds, s, names, g);
    AcceptedCallStarts(plan, workIds, s, g);
    ModelOrTool(plan, workIds, s, i);
    ModelOrTool(plan, workIds, s, j);
    InLineShape(s.steps);
    assert g < i;
  }

  lemma FinishStaysStuck(plan: seq<TaskStep>, workIds: seq<string>, s: Snapshot, i: nat, j: nat, k: nat)
    requires Runnable(plan, workIds) && OnPlan(plan, workIds, s) && StuckAt(s.steps, i, j, k)
    ensures StuckAt(Next(s, Finish).steps, i, j, k)
  {
    var n := NextIncomplete(s.steps);
    InLineShape(s.steps);
    ModelOrTool(plan, workIds, s, n);
    ModelOrTool(plan, workIds, s, i);
    if s.steps[n].IsTool() {
      CompletedRoundMovesOn(plan, workIds, s);
      hide OnToolRoundCompleted;
      var t := OnToolRoundCompleted(s, Completed).value;
      assert n < i && NextIncomplete(t.steps) <= i;
    } else {
      assert RunningTool(s.steps) == |s.steps|;
    }
  }

  lemma {:induction false} StuckForEver(plan: seq<TaskStep>, workIds: seq<string>, s: Snapshot, events: seq<Event>,
                                        i: nat, j: nat, k: nat)
    requires Runnable(plan, workIds) && OnPlan(plan, workIds, s) && StuckAt(s.steps, i, j, k)
    ensures StuckAt(Run(s, events).steps, i, j, k)
    decreases |events|
  {
    hide Runnable, OnPlan, Next, StuckAt;
    if events != [] {
      EventStaysStuck(plan, workIds, s, events[0], i, j, k);
      EventStaysOnPlan(plan, workIds, s, events[0]);
      StuckForEver(plan, workIds, Next(s, events[0]), events[1..], i, j, k);
    }
  }

  /** The tool steps of a run can all get done exactly if no two model steps follow each other before an open one. */
  lemma ToolsGetDoneExactly(plan: seq<TaskStep>, workIds: seq<string>, s: Snapshot)
    requires Runnable(plan, workIds) && OnPlan(plan, workIds, s)
    ensures (exists events :: ToolsDone(Run(s, events).steps)) <==> Passable(s.steps)
  {
    hide Runnable, OnPlan, Run, StuckAt, ToolsDone;
    if Passable(s.steps) {
      var events := PassableGetsDone(plan, workIds, s);
    } else {
      var i: nat, j: nat, k: nat :| StuckAt(s.steps, i, j, k);
      forall events ensures !ToolsDone(Run(s, events).steps) {
        StuckForEver(plan, workIds, s, events, i, j, k);
        StuckToolIsOpen(Run(s, events).steps, i, j, k);
      }
    }
  }

  lemma StuckToolIsOpen(steps: seq<TaskStep>, i: nat, j: nat, k: nat)
    requires StuckAt(steps, i, j, k)
    ensures !ToolsDone(steps)
  {
  }
}
