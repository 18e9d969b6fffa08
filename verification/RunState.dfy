/** The reducer of one run and its to-do steps (src/purra/run_state.py). */
module RunState {
  import opened Prelude
  import opened Plan
  import Decimal

  datatype RunStatus = RunRunning | RunDone | RunBlocked | RunFailed | RunCanceled {
    predicate Terminal() { !RunRunning? }
  }

  datatype Snapshot = Snapshot(
    title: string, goal: Option<string>, status: RunStatus, steps: seq<TaskStep>, workIds: seq<string>,
    response: string, error: Option<string>)

  datatype Fault = InvalidSnapshot | OutsideTransition | NotAToolStep | BadOutcome | NoRunningTool
    | TerminalRevision | ConfirmStep | ReadWithoutTool | NotOneTool | ModelWithTools | CoverageMismatch
    | UnknownSteps | EmptyError | InvalidPlan

  datatype BatchOutcome = Progressed | Completed | Declined | CanceledBatch | RejectedBatch | FailedBatch

  // ----- snapshots ----------------------------------------------------------

  ghost predicate OneRunning(steps: seq<TaskStep>) {
    forall i, j :: 0 <= i < |steps| && 0 <= j < |steps| && steps[i].status.Running? && steps[j].status.Running? ==> i == j
  }

  /** A running step has only finished-as-done dependencies. */
  ghost predicate RunningReady(steps: seq<TaskStep>) {
    forall k, d :: 0 <= k < |steps| && steps[k].status.Running? && d in steps[k].dependsOn ==>
      exists j :: 0 <= j < |steps| && steps[j].id == d && steps[j].status.Done?
  }

  /** What the constructor of a snapshot checks. */
  ghost predicate Valid(s: Snapshot) {
    && Distinct(Ids(s.steps)) && OneRunning(s.steps) && RunningReady(s.steps)
    && (s.status.Terminal() ==> forall k :: 0 <= k < |s.steps| ==> !s.steps[k].status.Running?)
    && (forall id :: id in s.workIds ==> id in Ids(s.steps))
  }

  ghost function Checked(s: Snapshot): Outcome<Snapshot, Fault> {
    if Valid(s) then Ok(s) else Fail(InvalidSnapshot)
  }

  // ----- scanning -----------------------------------------------------------

  function NextIncomplete(steps: seq<TaskStep>): nat {
    First(steps, (s: TaskStep) => !s.status.Finished())
  }

  function RunningIndex(steps: seq<TaskStep>): nat {
    First(steps, (s: TaskStep) => s.status.Running?)
  }

  function RunningTool(steps: seq<TaskStep>): nat {
    First(steps, (s: TaskStep) => s.status.Running? && s.IsTool())
  }

  function RunningModel(steps: seq<TaskStep>): nat {
    First(steps, (s: TaskStep) => s.status.Running? && s.IsModel())
  }

  function Summarized(step: TaskStep, status: StepStatus, summary: string): TaskStep {
    step.(status := status, summary := if step.summary.None? || step.summary == Some("") then Some(summary) else step.summary)
  }

  // ----- initialization and revision ----------------------------------------

  function InitialStep(step: TaskStep): TaskStep {
    step.(status := if step.status.Done? then Done else Pending,
          summary := if step.status.Done? then step.summary else None,
          error := None)
  }

  function ContractFault(step: TaskStep): Option<Fault> {
    if step.kind.Confirm? then Some(ConfirmStep)
    else if step.kind.Read? && !step.executor.Tool? then Some(ReadWithoutTool)
    else if step.executor.Tool? && |step.tools| != 1 then Some(NotOneTool)
    else if step.executor.Model? && step.tools != [] then Some(ModelWithTools)
    else None
  }

  function FirstFault(steps: seq<TaskStep>): (f: Option<Fault>)
    ensures f.None? <==> forall k :: 0 <= k < |steps| ==> ContractFault(steps[k]).None?
  {
    if steps == [] then None
    else if ContractFault(steps[0]).Some? then ContractFault(steps[0])
    else FirstFault(steps[1..])
  }

  function InitialSteps(steps: seq<TaskStep>): seq<TaskStep> {
    seq(|steps|, i requires 0 <= i < |steps| => InitialStep(steps[i]))
  }

  /** The initial steps, with the first one that is not done running. */
  function Opened(steps: seq<TaskStep>): (r: seq<TaskStep>)
    ensures |r| == |steps|
  {
    var initial := InitialSteps(steps);
    var k := First(initial, (s: TaskStep) => !s.status.Done? && !s.kind.Confirm?);
    if k < |initial| then initial[k := initial[k].(status := Running)] else initial
  }

  ghost function Initialize(plan: ExecutionPlan): Outcome<Snapshot, Fault> {
    var fault := FirstFault(InitialSteps(plan.steps));
    if fault.Some? then Fail(fault.value)
    else Checked(Snapshot(plan.title, plan.goal, RunRunning, Opened(plan.steps), plan.workIds, "", None))
  }

  function Keep<T(!new)>(items: seq<T>, test: T -> bool): (kept: seq<T>)
    ensures forall x :: x in kept <==> x in items && test(x)
  {
    if items == [] then []
    else if test(items[0]) then [items[0]] + Keep(items[1..], test)
    else Keep(items[1..], test)
  }

  function History(s: Snapshot): seq<TaskStep> { Keep(s.steps, (t: TaskStep) => t.status.Finished()) }

  function IdSet(steps: seq<TaskStep>): set<string> { set t | t in steps :: t.id }

  function NumberedId(base: string): nat -> string { (n: nat) => base + "-" + Decimal.Digits(n) }

  lemma NumberedIdsDiffer(base: string)
    ensures Decimal.Injective(NumberedId(base))
  {
    forall i: nat, j: nat | NumberedId(base)(i) == NumberedId(base)(j) ensures i == j {
      Decimal.NumeralsAreSuffixFree(base, base, '-', Decimal.Digits(i), Decimal.Digits(j));
      Decimal.DigitsInjective(i, j);
    }
  }

  /** The base itself, or the first of base-2, base-3, ... that is not used. */
  function UniqueStepId(base: string, used: set<string>): (id: string)
    ensures id !in used
  {
    NumberedIdsDiffer(base);
    if base !in used then base else NumberedId(base)(Decimal.Search(NumberedId(base), used, 2))
  }

  function RespondStep(id: string): TaskStep {
    TaskStep(id, "Respond", Review, Model, Pending, None, [], [], None, None, None, false, None)
  }

  /** The steps of the new plan that are not history, or one closing model step. */
  function Future(s: Snapshot, plan: ExecutionPlan): (future: seq<TaskStep>)
    ensures future != [] && forall t :: t in future ==> t.id !in IdSet(History(s))
  {
    var past := IdSet(History(s));
    var future := Keep(plan.steps, (t: TaskStep) => t.id !in past);
    if future == [] then [RespondStep(UniqueStepId("respond", past))] else future
  }

  /** The future steps without their dependencies on history. */
  function Detached(future: seq<TaskStep>, past: set<string>): seq<TaskStep> {
    seq(|future|, i requires 0 <= i < |future| =>
      future[i].(dependsOn := Keep(future[i].dependsOn, (d: string) => d !in past)))
  }

  predicate RunsIn(s: Snapshot, id: string) {
    exists t :: t in s.steps && t.status.Running? && t.id == id
  }

  /** A revised step: the running step keeps its progress, and silences every other start. */
  ghost function RevisedStep(s: Snapshot, step: TaskStep, dependsOn: seq<string>, preserve: bool): TaskStep {
    if RunsIn(s, step.id) then
      var current :| current in s.steps && current.status.Running? && current.id == step.id;
      step.(dependsOn := dependsOn, status := Running, summary := current.summary, error := current.error)
    else step.(dependsOn := dependsOn, status := if preserve then Pending else step.status)
  }

  ghost function RevisedFuture(s: Snapshot, future: seq<TaskStep>): seq<TaskStep> {
    var opening := Opened(Detached(future, IdSet(History(s))));
    var preserve := exists t :: t in future && RunsIn(s, t.id);
    seq(|future|, i requires 0 <= i < |future| =>
      RevisedStep(s, opening[i], future[i].dependsOn, preserve))
  }

  /** Finished steps stay as they are; the rest of the plan is replaced. */
  ghost function RevisePlan(s: Snapshot, plan: ExecutionPlan): Outcome<Snapshot, Fault> {
    if s.status.Terminal() then Fail(TerminalRevision)
    else
      var past := IdSet(History(s));
      var future := Future(s, plan);
      var detached := Detached(future, past);
      if !ValidSteps(detached) then Fail(InvalidPlan)
      else
        var fault := FirstFault(InitialSteps(detached));
        if fault.Some? then Fail(fault.value)
        else
          Checked(s.(title := plan.title, goal := plan.goal, steps := History(s) + RevisedFuture(s, future),
                     workIds := Dedupe(Keep(s.workIds, (id: string) => id in past) + plan.workIds)))
  }

  // ----- reducers -----------------------------------------------------------

  ghost function WithSteps(s: Snapshot, steps: seq<TaskStep>): Outcome<Snapshot, Fault> {
    Checked(s.(steps := steps))
  }

  ghost function OnModelDelta(s: Snapshot): Outcome<Snapshot, Fault> {
    var k := NextIncomplete(s.steps);
    if s.status.Terminal() || RunningTool(s.steps) < |s.steps| then Ok(s)
    else if k == |s.steps| || !s.steps[k].IsModel() || s.steps[k].status.Running? then Ok(s)
    else WithSteps(s, s.steps[k := s.steps[k].(status := Running)])
  }

  /** The steps once a running model step, if any, is closed before the tools start. */
  function ModelClosed(steps: seq<TaskStep>): (r: seq<TaskStep>)
    ensures |r| == |steps|
  {
    var m := RunningModel(steps);
    if m == |steps| then steps
    else steps[m := Summarized(steps[m], Done, "Model reasoning completed before tool execution.")]
  }

  function ToolToStart(steps: seq<TaskStep>): nat {
    if RunningTool(steps) < |steps| then RunningTool(steps) else NextIncomplete(steps)
  }

  ghost function OnToolCallsStarted(s: Snapshot, requested: set<string>): Outcome<Snapshot, Fault> {
    if s.status.Terminal() then Ok(s)
    else if requested == {} || !(requested <= AllowedNow(s)) then Fail(OutsideTransition)
    else
      var steps := ModelClosed(s.steps);
      var k := ToolToStart(steps);
      if k == |steps| || !steps[k].IsTool() then Fail(NotAToolStep)
      else WithSteps(s, steps[k := steps[k].(status := Running)])
  }

  ghost function OnToolRoundCompleted(s: Snapshot, outcome: BatchOutcome): Outcome<Snapshot, Fault> {
    var k := RunningTool(s.steps);
    if s.status.Terminal() then Ok(s)
    else if !outcome.Progressed? && !outcome.Completed? && !outcome.Declined? then Fail(BadOutcome)
    else if k == |s.steps| then Ok(s)
    else if outcome.Declined? then
      WithSteps(s, s.steps[k := s.steps[k].(
        status := Blocked, summary := Some("User declined approval; the planned tool was not executed."),
        error := Some("approval_rejected"))])
    else if outcome.Progressed? then Ok(s)
    else
      WithSteps(s, Advanced(s.steps[k := Summarized(s.steps[k], Done, "Planned tool step completed.")]))
  }

  /** The next unfinished step starts, unless it waits for a confirmation. */
  function Advanced(steps: seq<TaskStep>): (r: seq<TaskStep>)
    ensures |r| == |steps|
  {
    var n := NextIncomplete(steps);
    if n < |steps| && !steps[n].kind.Confirm? then steps[n := steps[n].(status := Running)] else steps
  }

  ghost function OnToolRoundFailed(s: Snapshot, error: string): Outcome<Snapshot, Fault> {
    var k := RunningTool(s.steps);
    if s.status.Terminal() then Ok(s)
    else if k == |s.steps| then Fail(NoRunningTool)
    else
      WithSteps(s, s.steps[k := s.steps[k].(
        status := Failed, summary := Some("Tool execution failed; runtime replanning requested."),
        error := Some(if error == "" then "tool_execution_failed" else error))])
  }

  predicate Open(step: TaskStep) { step.status.Pending? || step.status.Running? }

  ghost predicate HasOpenNonModel(steps: seq<TaskStep>) {
    exists k :: 0 <= k < |steps| && Open(steps[k]) && !steps[k].IsModel()
  }

  function CompletedStep(step: TaskStep, hasOpenNonModel: bool): TaskStep {
    if !Open(step) then step
    else if step.IsModel() && (step.status.Running? || !hasOpenNonModel)
    then Summarized(step, Done, "Final response covered this model step.")
    else Summarized(step, Blocked, "This planned step was not executed in the run.")
  }

  function CompletedSteps(steps: seq<TaskStep>, hasOpenNonModel: bool): seq<TaskStep> {
    seq(|steps|, i requires 0 <= i < |steps| => CompletedStep(steps[i], hasOpenNonModel))
  }

  ghost function Complete(s: Snapshot, response: string): Outcome<Snapshot, Fault> {
    if s.status.Terminal() then Ok(s)
    else
      var stuck := HasOpenNonModel(s.steps);
      Checked(s.(steps := CompletedSteps(s.steps, stuck), response := response,
                 status := if stuck then RunBlocked else RunDone))
  }

  function DurablyDone(steps: seq<TaskStep>): seq<TaskStep> {
    seq(|steps|, i requires 0 <= i < |steps| =>
      if steps[i].status.Done? then steps[i]
      else Summarized(steps[i], Done, "Durable execution fulfilled this admitted step."))
  }

  /** Durable completion, with (`close`) or without closing the run. */
  ghost function FinishDurable(s: Snapshot, covered: set<string>, close: bool, response: string): Outcome<Snapshot, Fault> {
    if s.status.Terminal() then Ok(s)
    else if covered != Elements(Ids(s.steps)) then Fail(CoverageMismatch)
    else if close then Checked(s.(steps := DurablyDone(s.steps), status := RunDone, response := response))
    else WithSteps(s, DurablyDone(s.steps))
  }

  function SyncedStep(step: TaskStep, statuses: map<string, StepStatus>): TaskStep {
    if step.id !in statuses || statuses[step.id] == step.status || step.status.Done? then step
    else
      var status := statuses[step.id];
      step.(status := status,
            summary := if status.Done? then Some("Durable execution completed this Planner step.") else step.summary,
            error := if status.Failed? then Some("durable_execution_failed") else None)
  }

  function SyncedSteps(steps: seq<TaskStep>, statuses: map<string, StepStatus>): seq<TaskStep> {
    seq(|steps|, i requires 0 <= i < |steps| => SyncedStep(steps[i], statuses))
  }

  ghost function SyncDurable(s: Snapshot, statuses: map<string, StepStatus>): Outcome<Snapshot, Fault> {
    if s.status.Terminal() then Ok(s)
    else if !(statuses.Keys <= Elements(Ids(s.steps))) then Fail(UnknownSteps)
    else WithSteps(s, SyncedSteps(s.steps, statuses))
  }

  ghost function FailRun(s: Snapshot, error: string): Outcome<Snapshot, Fault> {
    if s.status.Terminal() then Ok(s)
    else if error == "" then Fail(EmptyError)
    else
      Checked(s.(status := RunFailed, error := Some(error), steps :=
        seq(|s.steps|, i requires 0 <= i < |s.steps| =>
          if s.steps[i].status.Running? then s.steps[i].(status := Failed, error := Some(error)) else s.steps[i])))
  }

  ghost function CancelRun(s: Snapshot, reason: string): Outcome<Snapshot, Fault> {
    if s.status.Terminal() then Ok(s)
    else
      Checked(s.(status := RunCanceled, error := Some(if reason == "" then "request_canceled" else reason), steps :=
        seq(|s.steps|, i requires 0 <= i < |s.steps| =>
          if Open(s.steps[i]) then Summarized(s.steps[i], Blocked, "Run was canceled before this step completed.")
          else s.steps[i])))
  }

  // ----- grants -------------------------------------------------------------

  ghost function ToolSet(tools: seq<string>): set<string> { Elements(tools) }

  /** The tools the model may call in the current transition. */
  ghost function AllowedNow(s: Snapshot): set<string> {
    var r := RunningIndex(s.steps);
    if s.status.Terminal() || r == |s.steps| then {}
    else if s.steps[r].IsTool() then ToolSet(s.steps[r].tools)
    else if !s.steps[r].IsModel() then {}
    else
      var n := First(s.steps, (t: TaskStep) => !t.status.Finished(), r + 1);
      if n < |s.steps| && s.steps[n].IsTool() then ToolSet(s.steps[n].tools) else {}
  }

  /** The index from which later grants are counted. */
  function FutureStart(steps: seq<TaskStep>): (k: nat)
    ensures k <= |steps|
  {
    var r := RunningIndex(steps);
    if r == |steps| then r
    else if !steps[r].IsTool() && steps[r].IsModel() then
      var n := First(steps, (t: TaskStep) => !t.status.Finished(), r + 1);
      if n < |steps| && steps[n].IsTool() then n + 1 else r + 1
    else r + 1
  }

  ghost function GrantedFrom(steps: seq<TaskStep>, k: nat): set<string> {
    set i, t | k <= i < |steps| && !steps[i].status.Finished() && steps[i].IsTool() && t in steps[i].tools :: t
  }

  ghost function FutureGrants(s: Snapshot): set<string> {
    if s.status.Terminal() || RunningIndex(s.steps) == |s.steps| then {}
    else GrantedFrom(s.steps, FutureStart(s.steps))
  }
}
