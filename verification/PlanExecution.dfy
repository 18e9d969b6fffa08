/** Running a compiled plan: the lowering (src/purra/plan_compiler.py) and the reducer (src/purra/run_state.py) together. */
module PlanExecution {
  import opened Prelude
  import opened Plan
  import opened RunState
  import RunStateLaws
  import PlanCompiler

  /** What the model and its tools do to a run that is neither revised, declined nor failed. */
  datatype Event = Delta | Calls(names: set<string>) | Progress | Finish

  ghost function Respond(s: Snapshot, e: Event): Outcome<Snapshot, Fault> {
    match e
    case Delta => OnModelDelta(s)
    case Calls(names) => OnToolCallsStarted(s, names)
    case Progress => OnToolRoundCompleted(s, Progressed)
    case Finish => OnToolRoundCompleted(s, Completed)
  }

  ghost function Next(s: Snapshot, e: Event): Snapshot {
    match Respond(s, e) case Ok(t) => t case Fail(_) => s
  }

  ghost function Run(s: Snapshot, events: seq<Event>): Snapshot
    decreases |events|
  {
    if events == [] then s else Run(Next(s, events[0]), events[1..])
  }

  // ----- what a run of a plan keeps ------------------------------------------

  ghost predicate Executable(plan: seq<TaskStep>) {
    forall k :: 0 <= k < |plan| ==> ContractFault(plan[k]).None?
  }

  /** No step has gone wrong, and exactly the first unfinished step runs. */
  ghost predicate InLine(steps: seq<TaskStep>) {
    forall k :: 0 <= k < |steps| ==>
      && (steps[k].status.Pending? || steps[k].status.Running? || steps[k].status.Done?)
      && (steps[k].status.Running? <==> k == NextIncomplete(steps))
  }

  ghost predicate OnPlan(plan: seq<TaskStep>, workIds: seq<string>, s: Snapshot) {
    && s.status.RunRunning? && s.workIds == workIds && |s.steps| == |plan|
    && (forall k :: 0 <= k < |plan| ==> SameWork(plan[k], s.steps[k]) && (plan[k].status.Done? ==> s.steps[k].status.Done?))
    && InLine(s.steps)
  }

  /** A step that is still to be done depends on earlier steps only. */
  ghost predicate Grounded(plan: seq<TaskStep>, k: nat)
    requires k < |plan|
  {
    plan[k].status.Done? || BackwardAt(plan, k)
  }

  /** A plan of different steps, those to be done grounded, which the runtime can execute, and whose work is in it. */
  ghost predicate Runnable(plan: seq<TaskStep>, workIds: seq<string>) {
    && Distinct(Ids(plan)) && (forall k {:trigger Grounded(plan, k)} :: 0 <= k < |plan| ==> Grounded(plan, k))
    && Executable(plan) && forall id :: id in workIds ==> id in Ids(plan)
  }

  lemma InLineShape(steps: seq<TaskStep>)
    requires InLine(steps)
    ensures var n := NextIncomplete(steps);
      && RunningIndex(steps) == n
      && (forall k :: 0 <= k < n ==> steps[k].status.Done?)
      && (forall k :: n < k < |steps| ==> steps[k].status.Pending? || steps[k].status.Done?)
  {
  }

  lemma FirstUnfinished(steps: seq<TaskStep>, k: nat)
    requires k <= |steps| && forall i :: 0 <= i < k ==> steps[i].status.Finished()
    requires k < |steps| ==> !steps[k].status.Finished()
    ensures NextIncomplete(steps) == k
  {
    var n := NextIncomplete(steps);
    assert n < |steps| ==> !steps[n].status.Finished();
  }

  /** Steps in line make a valid snapshot. */
  lemma InLineIsValid(plan: seq<TaskStep>, workIds: seq<string>, s: Snapshot)
    requires Runnable(plan, workIds) && OnPlan(plan, workIds, s)
    ensures Valid(s)
  {
    assert Ids(s.steps) == Ids(plan) by {
      forall k | 0 <= k < |plan| ensures s.steps[k].id == plan[k].id { assert SameWork(plan[k], s.steps[k]); }
    }
    InLineShape(s.steps);
    forall k, d | 0 <= k < |plan| && s.steps[k].status.Running? && d in s.steps[k].dependsOn
      ensures exists j :: 0 <= j < |plan| && s.steps[j].id == d && s.steps[j].status.Done?
    {
      assert SameWork(plan[k], s.steps[k]) && Grounded(plan, k);
      var j :| 0 <= j < k && Ids(plan[..k])[j] == d;
      assert SameWork(plan[j], s.steps[j]);
    }
  }

  lemma SamePlanKinds(plan: seq<TaskStep>, s: Snapshot, k: nat)
    requires Executable(plan) && |s.steps| == |plan| && k < |plan| && SameWork(plan[k], s.steps[k])
    ensures !s.steps[k].kind.Confirm? && (s.steps[k].IsModel() <==> !s.steps[k].IsTool())
    ensures s.steps[k].IsTool() <==> s.steps[k].executor.Tool?
    ensures s.steps[k].IsTool() ==> |s.steps[k].tools| == 1
  {
    assert ContractFault(plan[k]).None?;
  }

  /** A run starts in line unless the runtime rejects one of the plan's steps. */
  lemma StartsOnPlan(plan: ExecutionPlan)
    requires ValidSteps(plan.steps) && forall id :: id in plan.workIds ==> id in Ids(plan.steps)
    ensures Initialize(plan).Ok? <==> Executable(plan.steps)
    ensures Initialize(plan).Ok? ==> OnPlan(plan.steps, plan.workIds, Initialize(plan).value)
  {
    var initial := InitialSteps(plan.steps);
    assert FirstFault(initial).None? <==> Executable(plan.steps) by {
      forall k | 0 <= k < |initial| ensures ContractFault(initial[k]) == ContractFault(plan.steps[k]) { }
      if FirstFault(initial).None? {
        forall k | 0 <= k < |initial| ensures ContractFault(plan.steps[k]).None? { assert ContractFault(initial[k]).None?; }
      }
    }
    if Executable(plan.steps) {
      assert forall k {:trigger Grounded(plan.steps, k)} :: 0 <= k < |plan.steps| ==> BackwardAt(plan.steps, k);
      var s := Snapshot(plan.title, plan.goal, RunRunning, Opened(plan.steps), plan.workIds, "", None);
      OpensInLine(plan.steps);
      InLineIsValid(plan.steps, plan.workIds, s);
    }
  }

  lemma OpensInLine(plan: seq<TaskStep>)
    requires Executable(plan)
    ensures InLine(Opened(plan))
    ensures forall k :: 0 <= k < |plan| ==>
      SameWork(plan[k], Opened(plan)[k]) && (plan[k].status.Done? ==> Opened(plan)[k].status.Done?)
  {
    var initial := InitialSteps(plan);
    var n := First(initial, (s: TaskStep) => !s.status.Done? && !s.kind.Confirm?);
    forall k | 0 <= k < |plan| ensures !initial[k].kind.Confirm? { assert ContractFault(plan[k]).None?; }
    assert forall k :: 0 <= k < n ==> Opened(plan)[k].status.Done?;
    FirstUnfinished(Opened(plan), n);
  }

  // ----- one event ----------------------------------------------------------

  /** A model delta changes nothing: the next model step already runs. */
  lemma DeltaChangesNothing(plan: seq<TaskStep>, workIds: seq<string>, s: Snapshot)
    requires Runnable(plan, workIds) && OnPlan(plan, workIds, s)
    ensures OnModelDelta(s) == Ok(s)
  {
    var n := NextIncomplete(s.steps);
    if n < |plan| { SamePlanKinds(plan, s, n); }
    hide Valid;
  }

  /** Exactly the granted calls are accepted, and then the first unfinished tool step runs. */
  lemma CallsStayOnPlan(plan: seq<TaskStep>, workIds: seq<string>, s: Snapshot, names: set<string>)
    requires Runnable(plan, workIds) && OnPlan(plan, workIds, s)
    ensures OnToolCallsStarted(s, names).Ok? <==> names != {} && names <= AllowedNow(s)
    ensures OnToolCallsStarted(s, names).Ok? ==> OnPlan(plan, workIds, OnToolCallsStarted(s, names).value)
    ensures OnToolCallsStarted(s, names).Ok? ==>
      var t := OnToolCallsStarted(s, names).value;
      var n := NextIncomplete(t.steps);
      n < |plan| && t.steps[n].executor.Tool? && t.steps[n].status.Running? && names == Elements(plan[n].tools)
  {
    if names != {} && names <= AllowedNow(s) {
      var r := NextIncomplete(s.steps);
      InLineShape(s.steps);
      SamePlanKinds(plan, s, r);
      assert OneRunning(s.steps);
      RunStateLaws.RunningStepIsUnique(s, r);
      var closed := ModelClosed(s.steps);
      if s.steps[r].IsModel() { RunStateLaws.AfterModelClosed(s, r); }
      RunStateLaws.GrantsComeFromGrantingStep(s);
      var k := ToolToStart(closed);
      assert k == RunStateLaws.GrantingStep(s.steps);
      SamePlanKinds(plan, s, k);
      assert names == Elements(plan[k].tools) by { OnlyTool(plan[k].tools, names); }
      var t := s.(steps := closed[k := closed[k].(status := Running)]);
      StartingKeepsLine(plan, s, closed, r, k, t.steps);
      InLineIsValid(plan, workIds, t);
      hide Valid;
    }
  }

  lemma OnlyTool(tools: seq<string>, names: set<string>)
    requires |tools| == 1 && names != {} && names <= Elements(tools)
    ensures names == Elements(tools)
  {
    var name :| name in names;
    assert name == tools[0];
  }

  lemma StartingKeepsLine(plan: seq<TaskStep>, s: Snapshot, closed: seq<TaskStep>, r: nat, k: nat, steps: seq<TaskStep>)
    requires |s.steps| == |plan| && InLine(s.steps) && r == NextIncomplete(s.steps) < |plan|
    requires forall i :: 0 <= i < |plan| ==> SameWork(plan[i], s.steps[i]) && (plan[i].status.Done? ==> s.steps[i].status.Done?)
    requires |closed| == |plan| && k < |plan| && (forall i :: 0 <= i < |plan| && i != r ==> closed[i] == s.steps[i])
    requires SameWork(plan[r], closed[r]) && steps == closed[k := closed[k].(status := Running)]
    requires k == r || (closed[r].status.Done? && k == First(s.steps, (t: TaskStep) => !t.status.Finished(), r + 1))
    ensures InLine(steps)
    ensures forall i :: 0 <= i < |plan| ==> SameWork(plan[i], steps[i]) && (plan[i].status.Done? ==> steps[i].status.Done?)
  {
    InLineShape(s.steps);
    assert forall i :: 0 <= i < k ==> steps[i].status.Done?;
    FirstUnfinished(steps, k);
  }

  /** The first unfinished step done and the next one started. */
  lemma AdvancingKeepsLine(plan: seq<TaskStep>, steps: seq<TaskStep>, k: nat, done: seq<TaskStep>)
    requires |steps| == |plan| && InLine(steps) && k == NextIncomplete(steps) < |plan| && Executable(plan)
    requires forall i :: 0 <= i < |plan| ==> SameWork(plan[i], steps[i]) && (plan[i].status.Done? ==> steps[i].status.Done?)
    requires done == steps[k := Summarized(steps[k], Done, "Planned tool step completed.")]
    ensures InLine(Advanced(done))
    ensures forall i :: 0 <= i < |plan| ==>
      SameWork(plan[i], Advanced(done)[i]) && (plan[i].status.Done? ==> Advanced(done)[i].status.Done?)
  {
    InLineShape(steps);
    var n := NextIncomplete(done);
    if n < |plan| { assert ContractFault(plan[n]).None? && SameWork(plan[n], done[n]); }
    assert forall i :: 0 <= i < n ==> done[i].status.Done?;
    FirstUnfinished(Advanced(done), n);
  }

  /** A completed round finishes the running tool step and starts the next unfinished step. */
  lemma FinishStaysOnPlan(plan: seq<TaskStep>, workIds: seq<string>, s: Snapshot)
    requires Runnable(plan, workIds) && OnPlan(plan, workIds, s)
    ensures OnToolRoundCompleted(s, Completed).Ok?
    ensures OnPlan(plan, workIds, OnToolRoundCompleted(s, Completed).value)
  {
    hide Valid, Advanced, InLine, SameWork;
    var k := RunningTool(s.steps);
    if k < |plan| {
      InLineShape(s.steps);
      var done := s.steps[k := Summarized(s.steps[k], Done, "Planned tool step completed.")];
      var t := s.(steps := Advanced(done));
      AdvancingKeepsLine(plan, s.steps, k, done);
      InLineIsValid(plan, workIds, t);
    }
  }

  lemma EventStaysOnPlan(plan: seq<TaskStep>, workIds: seq<string>, s: Snapshot, e: Event)
    requires Runnable(plan, workIds) && OnPlan(plan, workIds, s)
    ensures OnPlan(plan, workIds, Next(s, e))
  {
    DeltaChangesNothing(plan, workIds, s);
    if e.Calls? { CallsStayOnPlan(plan, workIds, s, e.names); }
    FinishStaysOnPlan(plan, workIds, s);
    hide OnPlan, Runnable, OnModelDelta, OnToolCallsStarted;
  }

  lemma {:induction false} RunStaysOnPlan(plan: seq<TaskStep>, workIds: seq<string>, s: Snapshot, events: seq<Event>)
    requires Runnable(plan, workIds) && OnPlan(plan, workIds, s)
    ensures OnPlan(plan, workIds, Run(s, events))
    decreases |events|
  {
    hide OnPlan, Runnable, Next;
    if events != [] {
      EventStaysOnPlan(plan, workIds, s, events[0]);
      RunStaysOnPlan(plan, workIds, Next(s, events[0]), events[1..]);
    }
  }

  // ----- revisions ----------------------------------------------------------

  function Anew(step: TaskStep): TaskStep { step.(status := Pending) }

  /** The plan after a revision: what is finished, and then the new plan's other steps. */
  function Replanned(s: Snapshot, plan: ExecutionPlan): seq<TaskStep> {
    var future := Future(s, plan);
    History(s) + seq(|future|, i requires 0 <= i < |future| => Anew(future[i]))
  }

  /** Finished steps of a run in line are done, and stand in it as the plan has them. */
  lemma HistoryOnPlan(plan: seq<TaskStep>, workIds: seq<string>, s: Snapshot)
    requires Runnable(plan, workIds) && OnPlan(plan, workIds, s)
    ensures forall t :: t in History(s) ==> t.status.Done? && ContractFault(t).None?
  {
    forall t | t in History(s) ensures t.status.Done? && ContractFault(t).None? {
      var k :| 0 <= k < |s.steps| && s.steps[k] == t;
      assert SameWork(plan[k], s.steps[k]) && ContractFault(plan[k]).None?;
    }
  }

  lemma FutureIsExecutable(s: Snapshot, plan: ExecutionPlan)
    requires FirstFault(InitialSteps(Detached(Future(s, plan), IdSet(History(s))))).None?
    ensures Executable(Future(s, plan))
  {
    hide Future, History, FirstFault, IdSet;
    var detached := Detached(Future(s, plan), IdSet(History(s)));
    forall k | 0 <= k < |detached| ensures ContractFault(Future(s, plan)[k]).None? {
      assert ContractFault(InitialSteps(detached)[k]).None?;
    }
  }

  /** A dependency of a step of the new plan is history or an earlier one of its steps. */
  lemma ReplannedIsGrounded(s: Snapshot, plan: ExecutionPlan, k: nat)
    requires ValidSteps(Detached(Future(s, plan), IdSet(History(s))))
    requires |History(s)| <= k < |Replanned(s, plan)|
    ensures BackwardAt(Replanned(s, plan), k)
  {
    hide Future, History;
    var (h, future, past, all) := (History(s), Future(s, plan), IdSet(History(s)), Replanned(s, plan));
    var (detached, j) := (Detached(future, past), k - |h|);
    assert BackwardAt(detached, j);
    forall d | d in all[k].dependsOn ensures d in Ids(all[..k]) {
      if d in past {
        var t :| t in h && t.id == d;
        var m :| 0 <= m < |h| && h[m] == t;
        assert Ids(all[..k])[m] == d;
      } else {
        assert d in detached[j].dependsOn;
        var m :| 0 <= m < j && Ids(detached[..j])[m] == d;
        assert Ids(all[..k])[|h| + m] == d;
      }
    }
  }

  lemma RevisedWork(s: Snapshot, plan: ExecutionPlan)
    requires RevisePlan(s, plan).Ok?
    ensures var (all, t) := (Replanned(s, plan), RevisePlan(s, plan).value);
      && |all| == |t.steps| && |History(s)| <= |all|
      && (forall k :: 0 <= k < |History(s)| ==> all[k] == t.steps[k] == History(s)[k])
      && (forall k :: |History(s)| <= k < |all| ==> SameWork(all[k], t.steps[k]) && all[k].status.Pending?)
  {
    hide Future, History, RevisePlan, Valid, RevisedFuture, FirstFault, InitialSteps, ValidSteps, Detached, IdSet, RunsIn;
    hide RunStateLaws.KeepsRunning, RunStateLaws.OpenedFuture;
    RunStateLaws.RevisionPasses(s, plan);
    var (h, future) := (History(s), Future(s, plan));
    RunStateLaws.RevisedAt(s, plan, 0);
    forall k | |h| <= k < |h| + |future|
      ensures SameWork(Replanned(s, plan)[k], RevisePlan(s, plan).value.steps[k])
    {
      RunStateLaws.RevisedAt(s, plan, k - |h|);
    }
  }

  /** What a revision of a run in line leaves can be run again. */
  lemma RevisionIsRunnable(plan: seq<TaskStep>, workIds: seq<string>, s: Snapshot, p: ExecutionPlan)
    requires Runnable(plan, workIds) && OnPlan(plan, workIds, s) && RevisePlan(s, p).Ok?
    ensures Runnable(Replanned(s, p), RevisePlan(s, p).value.workIds)
  {
    hide Runnable, OnPlan, History, Future, RevisePlan, RevisedFuture, Detached, FirstFault, InitialSteps, ValidSteps, IdSet, InLine;
    var (all, t) := (Replanned(s, p), RevisePlan(s, p).value);
    RunStateLaws.RevisionPasses(s, p);
    HistoryOnPlan(plan, workIds, s);
    FutureIsExecutable(s, p);
    RevisedWork(s, p);
    assert Ids(all) == Ids(t.steps);
    forall k | 0 <= k < |all| ensures Grounded(all, k) && ContractFault(all[k]).None? {
      if k < |History(s)| { assert all[k] in History(s); } else { ReplannedIsGrounded(s, p, k); }
    }
    RunnableIs(all, t.workIds);
  }

  lemma RunnableIs(plan: seq<TaskStep>, workIds: seq<string>)
    requires Distinct(Ids(plan)) && forall id :: id in workIds ==> id in Ids(plan)
    requires forall k :: 0 <= k < |plan| ==> Grounded(plan, k) && ContractFault(plan[k]).None?
    ensures Runnable(plan, workIds)
  {
  }

  /** The steps behind a history of done ones are in line exactly if a kept running step comes first. */
  lemma RevisedIsInLine(s: Snapshot, p: ExecutionPlan)
    requires RevisePlan(s, p).Ok? && forall t :: t in History(s) ==> t.status.Done?
    ensures InLine(RevisePlan(s, p).value.steps) <==> RunStateLaws.RunningComesFirst(s, p)
  {
    hide Future, History, RevisePlan, RevisedFuture, RunsIn, Detached, FirstFault, InitialSteps, ValidSteps, IdSet, RunningReady;
    hide RunStateLaws.OpensAt;
    RunStateLaws.RevisionPasses(s, p);
    RunStateLaws.RevisionKeepsOrderExactly(s, p);
    RunStateLaws.RevisedStatuses(s, p);
    var (h, future) := (History(s), Future(s, p));
    var r := RevisedFuture(s, future);
    if InLine(h + r) {
      InLineShape(h + r);
    } else if RunStateLaws.RunningComesFirst(s, p) {
      if RunStateLaws.KeepsRunning(s, p) {
        FirstRunsInLine(h, r);
      } else {
        var k: nat :| k <= |r| && RunStateLaws.OpensAt(r, k);
        OpensInLineBehind(h, r, k);
      }
    }
  }

  lemma FirstRunsInLine(h: seq<TaskStep>, r: seq<TaskStep>)
    requires (forall t :: t in h ==> t.status.Done?) && r != [] && r[0].status.Running? && OneRunning(h + r)
    requires forall k :: 0 <= k < |r| ==> r[k].status.Pending? || r[k].status.Running?
    ensures InLine(h + r)
  {
    var steps := h + r;
    assert steps[|h|] == r[0];
    forall k | 0 <= k < |steps| ensures if k < |h| then steps[k].status.Done? else steps[k] == r[k - |h|] {
      if k < |h| { assert steps[k] in h; }
    }
    FirstUnfinished(steps, |h|);
  }

  lemma OpensInLineBehind(h: seq<TaskStep>, r: seq<TaskStep>, k: nat)
    requires (forall t :: t in h ==> t.status.Done?) && k <= |r| && RunStateLaws.OpensAt(r, k)
    ensures InLine(h + r)
  {
    var steps := h + r;
    forall i | 0 <= i < |steps| ensures if i < |h| then steps[i].status.Done? else steps[i] == r[i - |h|] {
      if i < |h| { assert steps[i] in h; }
    }
    FirstUnfinished(steps, |h| + k);
  }

  /** A revision of a run in line goes on in line exactly if a running step that the new plan keeps comes first. */
  lemma RevisionStaysOnPlanExactly(plan: seq<TaskStep>, workIds: seq<string>, s: Snapshot, p: ExecutionPlan)
    requires Runnable(plan, workIds) && OnPlan(plan, workIds, s) && RevisePlan(s, p).Ok?
    ensures var t := RevisePlan(s, p).value;
      && (InLine(t.steps) <==> RunStateLaws.RunningComesFirst(s, p))
      && (InLine(t.steps) ==> Runnable(Replanned(s, p), t.workIds) && OnPlan(Replanned(s, p), t.workIds, t))
  {
    hide Runnable, History, RevisePlan, Replanned, InLine, RunStateLaws.RunningComesFirst;
    RevisionIsRunnable(plan, workIds, s, p);
    HistoryOnPlan(plan, workIds, s);
    RevisedIsInLine(s, p);
    RevisedWork(s, p);
    RevisionRuns(s, p);
  }

  lemma RevisionRuns(s: Snapshot, p: ExecutionPlan)
    requires RevisePlan(s, p).Ok?
    ensures RevisePlan(s, p).value.status.RunRunning?
  {
    RunStateLaws.RevisionPasses(s, p);
  }

  // ----- runs with revisions ------------------------------------------------

  /** What happens to a run that may also be revised. */
  datatype Turn = Work(event: Event) | Revise(plan: ExecutionPlan)

  ghost function Answer(s: Snapshot, turn: Turn): Snapshot {
    match turn
    case Work(e) => Next(s, e)
    case Revise(p) => match RevisePlan(s, p) case Ok(t) => t case Fail(_) => s
  }

  ghost function RunTurns(s: Snapshot, turns: seq<Turn>): Snapshot
    decreases |turns|
  {
    if turns == [] then s else RunTurns(Answer(s, turns[0]), turns[1..])
  }

  /** The plan that the run follows after a turn. */
  ghost function PlanAfter(plan: seq<TaskStep>, s: Snapshot, turn: Turn): seq<TaskStep> {
    if turn.Revise? && RevisePlan(s, turn.plan).Ok? then Replanned(s, turn.plan) else plan
  }

  ghost function PlanAfterAll(plan: seq<TaskStep>, s: Snapshot, turns: seq<Turn>): seq<TaskStep>
    decreases |turns|
  {
    if turns == [] then plan else PlanAfterAll(PlanAfter(plan, s, turns[0]), Answer(s, turns[0]), turns[1..])
  }

  /** The turn is not a revision that keeps the running step behind another one. */
  ghost predicate Orderly(s: Snapshot, turn: Turn) {
    turn.Revise? && RevisePlan(s, turn.plan).Ok? ==> RunStateLaws.RunningComesFirst(s, turn.plan)
  }

  ghost predicate AllOrderly(s: Snapshot, turns: seq<Turn>)
    decreases |turns|
  {
    turns != [] ==> Orderly(s, turns[0]) && AllOrderly(Answer(s, turns[0]), turns[1..])
  }

  /** At every moment exactly the first unfinished step runs, and nothing has gone wrong. */
  ghost predicate AlwaysInLine(s: Snapshot, turns: seq<Turn>)
    decreases |turns|
  {
    InLine(s.steps) && (turns != [] ==> AlwaysInLine(Answer(s, turns[0]), turns[1..]))
  }

  lemma TurnStaysOnPlanExactly(plan: seq<TaskStep>, workIds: seq<string>, s: Snapshot, turn: Turn)
    requires Runnable(plan, workIds) && OnPlan(plan, workIds, s)
    ensures var t := Answer(s, turn);
      && (InLine(t.steps) <==> Orderly(s, turn))
      && (InLine(t.steps) ==> Runnable(PlanAfter(plan, s, turn), t.workIds) && OnPlan(PlanAfter(plan, s, turn), t.workIds, t))
  {
    hide Runnable, InLine, Next, RevisePlan, Replanned, RunStateLaws.RunningComesFirst;
    match turn
    case Work(e) => EventStaysOnPlan(plan, workIds, s, e);
    case Revise(p) => if RevisePlan(s, p).Ok? { RevisionStaysOnPlanExactly(plan, workIds, s, p); }
  }

  /** Over any turns the run stays in line exactly if every revision puts a running step that it keeps first. */
  lemma {:induction false} RevisedRunsStayInLineExactly(
      plan: seq<TaskStep>, workIds: seq<string>, s: Snapshot, turns: seq<Turn>)
    requires Runnable(plan, workIds) && OnPlan(plan, workIds, s)
    ensures AlwaysInLine(s, turns) <==> AllOrderly(s, turns)
    ensures AllOrderly(s, turns) ==>
      var t := RunTurns(s, turns);
      Runnable(PlanAfterAll(plan, s, turns), t.workIds) && OnPlan(PlanAfterAll(plan, s, turns), t.workIds, t)
    decreases |turns|
  {
    hide Runnable, InLine, Answer, PlanAfter, Orderly;
    assert InLine(s.steps);
    if turns != [] {
      var t := Answer(s, turns[0]);
      TurnStaysOnPlanExactly(plan, workIds, s, turns[0]);
      if InLine(t.steps) { RevisedRunsStayInLineExactly(PlanAfter(plan, s, turns[0]), t.workIds, t, turns[1..]); }
      else { NotInLine(t, turns[1..]); }
    }
    hide OnPlan;
  }

  lemma NotInLine(s: Snapshot, turns: seq<Turn>)
    requires !InLine(s.steps)
    ensures !AlwaysInLine(s, turns)
  {
  }

  // ----- compiled plans -----------------------------------------------------

  ghost predicate FinishedTool(s: Snapshot, tool: string) {
    exists j :: 0 <= j < |s.steps| && PlanCompiler.RunsTool(s.steps[j], tool) && s.steps[j].status.Done?
  }

  /** Whatever the running tool needs was satisfied at the start, is waived, or is the tool of a done step. */
  ghost predicate NeedsMet(env: PlanCompiler.Env, base: set<string>, s: Snapshot) {
    forall k :: 0 <= k < |s.steps| && s.steps[k].IsTool() && s.steps[k].status.Running? ==>
      && |s.steps[k].tools| == 1 && s.steps[k].tools[0] in env.tools
      && forall dep :: dep in env.tools[s.steps[k].tools[0]].prerequisites ==>
           dep in base || (s.steps[k].tools[0], dep) in env.constraints.waived || FinishedTool(s, dep)
  }

  /** Each step still to be done has what its tool needs at the start or earlier in the plan. */
  ghost predicate ReadyAhead(env: PlanCompiler.Env, base: set<string>, plan: seq<TaskStep>) {
    forall k {:trigger PlanCompiler.Ready(env, base, plan, k)} :: 0 <= k < |plan| && !plan[k].status.Done? ==>
      PlanCompiler.Ready(env, base, plan, k)
  }

  lemma AllReadyIsAhead(env: PlanCompiler.Env, base: set<string>, plan: seq<TaskStep>)
    requires PlanCompiler.AllReady(env, base, plan)
    ensures ReadyAhead(env, base, plan)
  {
  }

  lemma OnPlanMeetsNeeds(env: PlanCompiler.Env, base: set<string>, plan: seq<TaskStep>, workIds: seq<string>, s: Snapshot)
    requires Executable(plan) && OnPlan(plan, workIds, s) && ReadyAhead(env, base, plan)
    ensures NeedsMet(env, base, s)
  {
    InLineShape(s.steps);
    forall k | 0 <= k < |plan| && s.steps[k].IsTool() && s.steps[k].status.Running?
      ensures |s.steps[k].tools| == 1 && s.steps[k].tools[0] in env.tools
      ensures forall dep :: PlanCompiler.Needs(env, s.steps[k].tools[0], dep) ==> dep in base || FinishedTool(s, dep)
    {
      SamePlanKinds(plan, s, k);
      assert PlanCompiler.Ready(env, base, plan, k);
      forall dep | PlanCompiler.Needs(env, s.steps[k].tools[0], dep) && dep !in base ensures FinishedTool(s, dep) {
        var j :| 0 <= j < k && PlanCompiler.RunsTool(plan[..k][j], dep);
        assert SameWork(plan[j], s.steps[j]);
      }
    }
  }

  /**
   Compiling a plan and running it: the run starts exactly when the runtime can execute every step, and at
   every later moment the running tool step has all the tools it needs behind it.
   */
  lemma CompiledRunsMeetNeeds(plan: PlanCompiler.WorkPlan, env: PlanCompiler.Env, base: set<string>,
                              out: PlanCompiler.CompiledPlan, places: seq<nat>, events: seq<Event>)
    requires PlanCompiler.Compiles(plan, env, base, out, places)
    ensures Initialize(out.plan).Ok? <==> Executable(out.plan.steps)
    ensures Initialize(out.plan).Ok? ==>
      var s := Run(Initialize(out.plan).value, events);
      Valid(s) && OnPlan(out.plan.steps, out.plan.workIds, s) && NeedsMet(env, base, s)
  {
    var steps, workIds := out.plan.steps, out.plan.workIds;
    PlanCompiler.PlacedIdsAreKnown(plan.steps, steps, places);
    StartsOnPlan(out.plan);
    if Initialize(out.plan).Ok? {
      var s := Run(Initialize(out.plan).value, events);
      RunStaysOnPlan(steps, workIds, Initialize(out.plan).value, events);
      InLineIsValid(steps, workIds, s);
      OnPlanMeetsNeeds(env, base, steps, workIds, s);
    }
  }

  lemma AcceptedCallsMeetNeeds(env: PlanCompiler.Env, base: set<string>, plan: seq<TaskStep>, workIds: seq<string>,
                               s: Snapshot, names: set<string>)
    requires Runnable(plan, workIds) && OnPlan(plan, workIds, s) && PlanCompiler.AllReady(env, base, plan)
    ensures OnToolCallsStarted(s, names).Ok? <==> names != {} && names <= AllowedNow(s)
    ensures OnToolCallsStarted(s, names).Ok? ==>
      exists tool :: names == {tool} && tool in env.tools
        && var t := OnToolCallsStarted(s, names).value;
           forall dep :: PlanCompiler.Needs(env, tool, dep) ==> dep in base || FinishedTool(t, dep)
  {
    hide OnToolCallsStarted, AllowedNow, FinishedTool, PlanCompiler.AllReady;
    CallsStayOnPlan(plan, workIds, s, names);
    if OnToolCallsStarted(s, names).Ok? {
      var t := OnToolCallsStarted(s, names).value;
      AllReadyIsAhead(env, base, plan);
      OnPlanMeetsNeeds(env, base, plan, workIds, t);
      var n := NextIncomplete(t.steps);
      assert SameWork(plan[n], t.steps[n]);
      SamePlanKinds(plan, t, n);
      var tool := t.steps[n].tools[0];
      assert names == {tool};
    }
  }

  /** In such a run a call is accepted exactly when it names the tool of the next unfinished tool step. */
  lemma CompiledRunsAcceptGrantedCalls(plan: PlanCompiler.WorkPlan, env: PlanCompiler.Env, base: set<string>,
                                       out: PlanCompiler.CompiledPlan, places: seq<nat>, events: seq<Event>, names: set<string>)
    requires PlanCompiler.Compiles(plan, env, base, out, places) && Initialize(out.plan).Ok?
    ensures var s := Run(Initialize(out.plan).value, events);
      && (OnToolCallsStarted(s, names).Ok? <==> names != {} && names <= AllowedNow(s))
      && (OnToolCallsStarted(s, names).Ok? ==>
            exists tool :: names == {tool} && tool in env.tools
              && var t := OnToolCallsStarted(s, names).value;
                 forall dep :: PlanCompiler.Needs(env, tool, dep) ==> dep in base || FinishedTool(t, dep))
  {
    hide OnPlan, OnToolCallsStarted, AllowedNow, NeedsMet, Initialize, Run, FinishedTool;
    var steps, workIds := out.plan.steps, out.plan.workIds;
    CompiledRunsMeetNeeds(plan, env, base, out, places, events);
    PlanCompiler.PlacedIdsAreKnown(plan.steps, steps, places);
    AcceptedCallsMeetNeeds(env, base, steps, workIds, Run(Initialize(out.plan).value, events), names);
  }

  // ----- revisions that keep needs met ---------------------------------------

  /** The tools of the done tool steps. */
  ghost function DoneTools(s: Snapshot): set<string> {
    set k | 0 <= k < |s.steps| && s.steps[k].executor.Tool? && |s.steps[k].tools| == 1 && s.steps[k].status.Done? ::
      s.steps[k].tools[0]
  }

  /** The steps that a revision brings in need only each other, what was given, and what is done. */
  ghost predicate BringsReady(env: PlanCompiler.Env, base: set<string>, s: Snapshot, plan: ExecutionPlan) {
    PlanCompiler.AllReady(env, base + DoneTools(s), Future(s, plan))
  }

  lemma DoneToolIsHistory(s: Snapshot, tool: string)
    requires tool in DoneTools(s)
    ensures PlanCompiler.ToolIn(History(s), tool)
  {
    var k :| 0 <= k < |s.steps| && s.steps[k].executor.Tool? && |s.steps[k].tools| == 1 && s.steps[k].status.Done?
      && s.steps[k].tools[0] == tool;
    assert s.steps[k] in History(s);
    var m :| 0 <= m < |History(s)| && History(s)[m] == s.steps[k];
    assert PlanCompiler.RunsTool(History(s)[m], tool);
  }

  lemma ReplannedIsReady(env: PlanCompiler.Env, base: set<string>, s: Snapshot, p: ExecutionPlan)
    requires BringsReady(env, base, s, p) && forall t :: t in History(s) ==> t.status.Done?
    ensures ReadyAhead(env, base, Replanned(s, p))
  {
    hide Future, History, DoneTools;
    var (h, future, all) := (History(s), Future(s, p), Replanned(s, p));
    forall k | 0 <= k < |h| ensures all[k].status.Done? { assert h[k] in h; }
    forall k | 0 <= k < |all| && !all[k].status.Done? ensures PlanCompiler.Ready(env, base, all, k) {
      if k >= |h| {
        var j := k - |h|;
        assert PlanCompiler.Ready(env, base + DoneTools(s), future, j);
        if future[j].executor.Tool? {
          forall dep | PlanCompiler.Needs(env, future[j].tools[0], dep) && dep !in base
            ensures PlanCompiler.ToolIn(all[..k], dep)
          {
            StaysInReplanned(s, p, j, dep);
          }
        }
      }
    }
  }

  lemma StaysInReplanned(s: Snapshot, p: ExecutionPlan, j: nat, dep: string)
    requires j < |Future(s, p)| && (dep in DoneTools(s) || PlanCompiler.ToolIn(Future(s, p)[..j], dep))
    ensures PlanCompiler.ToolIn(Replanned(s, p)[..|History(s)| + j], dep)
  {
    hide Future, History, DoneTools;
    var (h, future) := (History(s), Future(s, p));
    var before := Replanned(s, p)[..|h| + j];
    if dep in DoneTools(s) {
      DoneToolIsHistory(s, dep);
      var m :| 0 <= m < |h| && PlanCompiler.RunsTool(h[m], dep);
      assert PlanCompiler.RunsTool(before[m], dep);
    } else {
      var m :| 0 <= m < |future[..j]| && PlanCompiler.RunsTool(future[..j][m], dep);
      assert before[|h| + m] == Anew(future[m]);
      assert PlanCompiler.RunsTool(before[|h| + m], dep);
    }
  }

  ghost predicate AllBringReady(env: PlanCompiler.Env, base: set<string>, s: Snapshot, turns: seq<Turn>)
    decreases |turns|
  {
    turns != [] ==>
      && (turns[0].Revise? && RevisePlan(s, turns[0].plan).Ok? ==> BringsReady(env, base, s, turns[0].plan))
      && AllBringReady(env, base, Answer(s, turns[0]), turns[1..])
  }

  lemma TurnStaysReady(env: PlanCompiler.Env, base: set<string>, plan: seq<TaskStep>, workIds: seq<string>, s: Snapshot, turn: Turn)
    requires Runnable(plan, workIds) && OnPlan(plan, workIds, s) && ReadyAhead(env, base, plan)
    requires turn.Revise? && RevisePlan(s, turn.plan).Ok? ==> BringsReady(env, base, s, turn.plan)
    ensures ReadyAhead(env, base, PlanAfter(plan, s, turn))
  {
    hide Runnable, OnPlan, ReadyAhead, RevisePlan, Replanned, BringsReady, History;
    HistoryOnPlan(plan, workIds, s);
    if turn.Revise? && RevisePlan(s, turn.plan).Ok? { ReplannedIsReady(env, base, s, turn.plan); }
  }

  /** Whatever is done and revised, a running tool step has all the tools it needs behind it, as long as revisions are
      orderly and bring in steps whose needs are given, done, or theirs. */
  lemma {:induction false} RevisedRunsMeetNeeds(env: PlanCompiler.Env, base: set<string>, plan: seq<TaskStep>,
                                                workIds: seq<string>, s: Snapshot, turns: seq<Turn>)
    requires Runnable(plan, workIds) && OnPlan(plan, workIds, s) && ReadyAhead(env, base, plan)
    requires AllOrderly(s, turns) && AllBringReady(env, base, s, turns)
    ensures NeedsMet(env, base, RunTurns(s, turns))
    decreases |turns|
  {
    hide Runnable, OnPlan, ReadyAhead, Answer, PlanAfter, RevisePlan, Orderly, NeedsMet, BringsReady, InLine;
    if turns == [] {
      RunnableIsExecutable(plan, workIds);
      OnPlanMeetsNeeds(env, base, plan, workIds, s);
    } else {
      TurnStaysOnPlanExactly(plan, workIds, s, turns[0]);
      TurnStaysReady(env, base, plan, workIds, s, turns[0]);
      var t := Answer(s, turns[0]);
      RevisedRunsMeetNeeds(env, base, PlanAfter(plan, s, turns[0]), t.workIds, t, turns[1..]);
    }
  }

  lemma RunnableIsExecutable(plan: seq<TaskStep>, workIds: seq<string>)
    requires Runnable(plan, workIds)
    ensures Executable(plan)
  {
  }

  /** The kept item number `j`, and what was kept before it. */
  lemma {:induction false} KeptFrom<T(!new)>(items: seq<T>, test: T -> bool, j: nat) returns (k: nat)
    requires j < |Keep(items, test)|
    ensures k < |items| && items[k] == Keep(items, test)[j] && Keep(items[..k], test) == Keep(items, test)[..j]
  {
    if test(items[0]) {
      if j == 0 { return 0; }
      k := KeptFrom(items[1..], test, j - 1);
    } else {
      k := KeptFrom(items[1..], test, j);
    }
    k := k + 1;
    assert items[..k][1..] == items[1..][..k - 1];
  }

  /** No step that the revision drops as history would have provided a tool that is neither given nor done. */
  ghost predicate DropsNothingNew(base: set<string>, s: Snapshot, plan: ExecutionPlan) {
    forall t, tool :: t in plan.steps && t.id in IdSet(History(s)) && PlanCompiler.RunsTool(t, tool) ==>
      tool in base + DoneTools(s)
  }

  /** A plan compiled for what is done by now brings in ready steps, whatever steps it names again. */
  lemma CompiledRevisionsBringReady(work: PlanCompiler.WorkPlan, env: PlanCompiler.Env, base: set<string>, s: Snapshot,
                                    out: PlanCompiler.CompiledPlan, places: seq<nat>)
    requires PlanCompiler.Compiles(work, env, base + DoneTools(s), out, places) && DropsNothingNew(base, s, out.plan)
    ensures BringsReady(env, base, s, out.plan)
  {
    hide DoneTools, History;
    var (steps, given, future) := (out.plan.steps, base + DoneTools(s), Future(s, out.plan));
    var past := IdSet(History(s));
    var test := (t: TaskStep) => t.id !in past;
    var kept := Keep(steps, test);
    if kept != [] {
      assert future == kept;
      forall j | 0 <= j < |kept| ensures PlanCompiler.Ready(env, given, kept, j) {
        var k := KeptFrom(steps, test, j);
        assert PlanCompiler.Ready(env, given, steps, k);
        if kept[j].executor.Tool? {
          forall dep | PlanCompiler.Needs(env, kept[j].tools[0], dep) && dep !in given
            ensures PlanCompiler.ToolIn(kept[..j], dep)
          {
            var m :| 0 <= m < k && PlanCompiler.RunsTool(steps[..k][m], dep);
            assert steps[m] == steps[..k][m] && steps[m] in steps && steps[m] in steps[..k];
            assert steps[m] in Keep(steps[..k], test);
            var n :| 0 <= n < j && kept[..j][n] == steps[m];
            assert PlanCompiler.RunsTool(kept[..j][n], dep);
          }
        }
      }
    }
  }

  /** Compiling, running and replanning: needs stay met over every run of a compiled plan whose revisions are orderly
      and bring in ready steps. */
  lemma CompiledRunsWithRevisionsMeetNeeds(
      work: PlanCompiler.WorkPlan, env: PlanCompiler.Env, base: set<string>,
      out: PlanCompiler.CompiledPlan, places: seq<nat>, turns: seq<Turn>)
    requires PlanCompiler.Compiles(work, env, base, out, places) && Initialize(out.plan).Ok?
    requires var s := Initialize(out.plan).value; AllOrderly(s, turns) && AllBringReady(env, base, s, turns)
    ensures var s := Initialize(out.plan).value;
      AlwaysInLine(s, turns) && Valid(RunTurns(s, turns)) && NeedsMet(env, base, RunTurns(s, turns))
  {
    hide OnPlan, InLine, NeedsMet, Initialize, AllOrderly, AllBringReady, AlwaysInLine, RunTurns, PlanAfterAll;
    var (s, steps, workIds) := (Initialize(out.plan).value, out.plan.steps, out.plan.workIds);
    PlanCompiler.PlacedIdsAreKnown(work.steps, steps, places);
    StartsOnPlan(out.plan);
    RevisedRunsStayInLineExactly(steps, workIds, s, turns);
    RevisedRunsMeetNeeds(env, base, steps, workIds, s, turns);
    var t := RunTurns(s, turns);
    InLineIsValid(PlanAfterAll(steps, s, turns), t.workIds, t);
  }
}
