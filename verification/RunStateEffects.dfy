/** What each reducer of a run does to its steps, in any valid run. */
module RunStateEffects {
  import opened Prelude
  import opened Plan
  import opened RunState
  import opened RunStateLaws

  /** Nothing but the steps and, as told, the status, the response and the error differ. */
  ghost predicate OnlySteps(s: Snapshot, t: Snapshot) {
    t == s.(steps := t.steps, status := t.status, response := t.response, error := t.error) && |t.steps| == |s.steps|
  }

  /** The step is not yet finished. */
  predicate Unsettled(step: TaskStep) { step.status.Pending? || step.status.Running? }

  /** The step's summary, or this text if it has none. */
  predicate SummaryIs(before: TaskStep, after: TaskStep, text: string) {
    after.summary == if before.summary.Some? && before.summary.value != "" then before.summary else Some(text)
  }

  /** The step has this status now, with a summary; nothing else of it differs. */
  predicate SettledAs(before: TaskStep, after: TaskStep, status: StepStatus, text: string) {
    after == before.(status := status, summary := after.summary) && SummaryIs(before, after, text)
  }

  /** A run that is over answers every reducer with itself, and refuses a revision. */
  lemma OverIsOver(s: Snapshot, cmd: Command)
    requires s.status.Terminal()
    ensures Apply(s, cmd) == if cmd.DoRevise? then Fail(TerminalRevision) else Ok(s)
  {
  }

  /** A step is a tool step, a model step, or a confirmation: reading is always a tool's work, confirming never a model's. */
  lemma StepKinds(step: TaskStep)
    ensures !(step.IsTool() && step.IsModel())
    ensures step.executor.Tool? || step.kind.Read? ==> step.IsTool()
    ensures !step.IsTool() && !step.IsModel() <==> step.executor.Model? && step.kind.Confirm?
  {
  }

  // ----- model steps --------------------------------------------------------

  ghost predicate DoneIn(steps: seq<TaskStep>, id: string) {
    exists j :: 0 <= j < |steps| && steps[j].id == id && steps[j].status.Done?
  }

  ghost predicate DependenciesDone(steps: seq<TaskStep>, k: nat)
    requires k < |steps|
  {
    forall d :: d in steps[k].dependsOn ==> DoneIn(steps, d)
  }

  ghost predicate NothingRuns(steps: seq<TaskStep>) { forall k :: 0 <= k < |steps| ==> !steps[k].status.Running? }

  /** A model delta starts the first unfinished step exactly if that is a model step; while something runs it changes nothing. */
  lemma DeltaStartsModel(s: Snapshot)
    requires Valid(s) && s.status.RunRunning?
    ensures !NothingRuns(s.steps) && (forall k :: 0 <= k < |s.steps| && s.steps[k].status.Running? ==> k == NextIncomplete(s.steps)) ==>
      OnModelDelta(s) == Ok(s)
    ensures NothingRuns(s.steps) ==>
      var k := NextIncomplete(s.steps);
      if k < |s.steps| && s.steps[k].IsModel()
      then OnModelDelta(s) == if DependenciesDone(s.steps, k) then Ok(s.(steps := s.steps[k := s.steps[k].(status := Running)]))
                              else Fail(InvalidSnapshot)
      else OnModelDelta(s) == Ok(s)
  {
    var k := NextIncomplete(s.steps);
    if k < |s.steps| && NothingRuns(s.steps) { StartedIsValid(s, k); }
    hide Valid;
  }

  lemma StartedIsValid(s: Snapshot, k: nat)
    requires Valid(s) && s.status.RunRunning? && NothingRuns(s.steps) && k < |s.steps| && !s.steps[k].status.Finished()
    ensures Valid(s.(steps := s.steps[k := s.steps[k].(status := Running)])) <==> DependenciesDone(s.steps, k)
  {
    var (steps, t) := (s.steps, s.(steps := s.steps[k := s.steps[k].(status := Running)]));
    assert Ids(t.steps) == Ids(steps);
    assert OneRunning(t.steps);
    assert RunningReady(t.steps) <==> DependenciesDone(steps, k) by {
      forall d ensures DoneIn(steps, d) <==> DoneIn(t.steps, d) {
        if j :| 0 <= j < |steps| && steps[j].id == d && steps[j].status.Done? { assert t.steps[j] == steps[j]; }
        if j :| 0 <= j < |steps| && t.steps[j].id == d && t.steps[j].status.Done? { assert t.steps[j] == steps[j]; }
      }
      if RunningReady(t.steps) {
        assert t.steps[k].status.Running?;
      }
    }
  }

  // ----- the end of a run ---------------------------------------------------

  /** Some step that a final answer does not cover is unfinished. */
  ghost predicate WorkIsLeft(steps: seq<TaskStep>) {
    exists k :: 0 <= k < |steps| && Unsettled(steps[k]) && !steps[k].IsModel()
  }

  /** With the final response every step is finished: model steps are done by it, if they run or no other work is left, and
      what is left is blocked, and the run with it. */
  lemma CompletionSettles(s: Snapshot, response: string)
    requires Valid(s) && s.status.RunRunning?
    ensures Complete(s, response).Ok?
    ensures var (t, left) := (Complete(s, response).value, WorkIsLeft(s.steps));
      && OnlySteps(s, t) && t.response == response && t.error == s.error && t.status == (if left then RunBlocked else RunDone)
      && forall k :: 0 <= k < |s.steps| ==>
           var (u, v) := (s.steps[k], t.steps[k]);
           if !Unsettled(u) then v == u
           else if u.IsModel() && (u.status.Running? || !left) then SettledAs(u, v, Done, "Final response covered this model step.")
           else SettledAs(u, v, Blocked, "This planned step was not executed in the run.")
  {
    assert HasOpenNonModel(s.steps) <==> WorkIsLeft(s.steps);
    var steps := CompletedSteps(s.steps, HasOpenNonModel(s.steps));
    SettledIsValid(s, s.(steps := steps, response := response, status := if WorkIsLeft(s.steps) then RunBlocked else RunDone));
    hide Valid, WorkIsLeft, HasOpenNonModel;
  }

  /** A run none of whose steps runs any more is valid if it was. */
  lemma SettledIsValid(s: Snapshot, t: Snapshot)
    requires Valid(s) && |t.steps| == |s.steps| && t.workIds == s.workIds && NothingRuns(t.steps)
    requires forall k :: 0 <= k < |s.steps| ==> t.steps[k].id == s.steps[k].id
    ensures Valid(t)
  {
    assert Ids(t.steps) == Ids(s.steps);
  }

  /** A failure of the run fails the step that runs, with its reason; a cancellation blocks every unfinished step. */
  lemma FailureAndCancellation(s: Snapshot, reason: string)
    requires Valid(s) && s.status.RunRunning?
    ensures reason == "" ==> FailRun(s, reason) == Fail(EmptyError)
    ensures reason != "" ==>
      && FailRun(s, reason).Ok?
      && var t := FailRun(s, reason).value;
         && OnlySteps(s, t) && t.status.RunFailed? && t.error == Some(reason) && t.response == s.response
         && forall k :: 0 <= k < |s.steps| ==>
              t.steps[k] == if s.steps[k].status.Running? then s.steps[k].(status := Failed, error := Some(reason)) else s.steps[k]
    ensures CancelRun(s, reason).Ok?
    ensures var t := CancelRun(s, reason).value;
      && OnlySteps(s, t) && t.status.RunCanceled? && t.response == s.response
      && t.error == Some(if reason == "" then "request_canceled" else reason)
      && forall k :: 0 <= k < |s.steps| ==>
           if Unsettled(s.steps[k]) then SettledAs(s.steps[k], t.steps[k], Blocked, "Run was canceled before this step completed.")
           else t.steps[k] == s.steps[k]
  {
    FailureEnds(s, reason);
    CancellationEnds(s, reason);
    hide FailRun, CancelRun, Valid;
  }

  lemma FailureEnds(s: Snapshot, reason: string)
    requires Valid(s) && s.status.RunRunning?
    ensures reason == "" ==> FailRun(s, reason) == Fail(EmptyError)
    ensures reason != "" ==>
      && FailRun(s, reason).Ok?
      && var t := FailRun(s, reason).value;
         && OnlySteps(s, t) && t.status.RunFailed? && t.error == Some(reason) && t.response == s.response
         && forall k :: 0 <= k < |s.steps| ==>
              t.steps[k] == if s.steps[k].status.Running? then s.steps[k].(status := Failed, error := Some(reason)) else s.steps[k]
  {
    var steps := seq(|s.steps|, i requires 0 <= i < |s.steps| =>
      if s.steps[i].status.Running? then s.steps[i].(status := Failed, error := Some(reason)) else s.steps[i]);
    SettledIsValid(s, s.(status := RunFailed, error := Some(reason), steps := steps));
    hide Valid;
  }

  lemma CancellationEnds(s: Snapshot, reason: string)
    requires Valid(s) && s.status.RunRunning?
    ensures CancelRun(s, reason).Ok?
    ensures var t := CancelRun(s, reason).value;
      && OnlySteps(s, t) && t.status.RunCanceled? && t.response == s.response
      && t.error == Some(if reason == "" then "request_canceled" else reason)
      && forall k :: 0 <= k < |s.steps| ==>
           if Unsettled(s.steps[k]) then SettledAs(s.steps[k], t.steps[k], Blocked, "Run was canceled before this step completed.")
           else t.steps[k] == s.steps[k]
  {
    var steps := seq(|s.steps|, i requires 0 <= i < |s.steps| =>
      if Open(s.steps[i]) then Summarized(s.steps[i], Blocked, "Run was canceled before this step completed.") else s.steps[i]);
    SettledIsValid(s, s.(status := RunCanceled, steps := steps,
                         error := Some(if reason == "" then "request_canceled" else reason)));
    hide Valid;
  }

  // ----- durable execution --------------------------------------------------

  /** A durable execution that covers exactly the planned steps gets all of them done, and the run too if it is to close. */
  lemma DurableExecutionFinishes(s: Snapshot, covered: set<string>, close: bool, response: string)
    requires Valid(s) && s.status.RunRunning?
    ensures var (r, ids) := (FinishDurable(s, covered, close, response), set t | t in s.steps :: t.id);
      if covered != ids then r == Fail(CoverageMismatch)
      else
        && r.Ok? && OnlySteps(s, r.value) && r.value.error == s.error
        && r.value.status == (if close then RunDone else RunRunning)
        && r.value.response == (if close then response else s.response)
        && forall k :: 0 <= k < |s.steps| ==>
             if s.steps[k].status.Done? then r.value.steps[k] == s.steps[k]
             else SettledAs(s.steps[k], r.value.steps[k], Done, "Durable execution fulfilled this admitted step.")
  {
    IdsAre(s.steps);
    var steps := DurablyDone(s.steps);
    SettledIsValid(s, s.(steps := steps, status := RunDone, response := response));
    SettledIsValid(s, s.(steps := steps));
    hide Valid, Ids;
  }

  lemma IdsAre(steps: seq<TaskStep>)
    ensures Elements(Ids(steps)) == set t | t in steps :: t.id
  {
    forall t | t in steps ensures t.id in Elements(Ids(steps)) {
      var k :| 0 <= k < |steps| && steps[k] == t;
      assert Ids(steps)[k] == t.id;
    }
    forall id | id in Elements(Ids(steps)) ensures id in set t | t in steps :: t.id {
      var k :| 0 <= k < |steps| && Ids(steps)[k] == id;
      assert steps[k] in steps;
    }
  }

  /** What a report makes of its step: done for good, failed with an error, or what is reported. */
  predicate Reported(before: TaskStep, after: TaskStep, status: StepStatus) {
    if before.status == status || before.status.Done? then after == before
    else
      && after == before.(status := status, summary := after.summary, error := after.error)
      && (after.summary == if status.Done? then Some("Durable execution completed this Planner step.") else before.summary)
      && after.error == if status.Failed? then Some("durable_execution_failed") else None
  }

  /** Reports about known steps are taken up step by step, if what they leave is valid; one about an unknown step is refused. */
  lemma ReportsAreTaken(s: Snapshot, statuses: map<string, StepStatus>)
    requires s.status.RunRunning?
    ensures var r := SyncDurable(s, statuses);
      if exists id :: id in statuses && forall k :: 0 <= k < |s.steps| ==> s.steps[k].id != id then r == Fail(UnknownSteps)
      else
        exists t :: OnlySteps(s, t) && t.status == s.status && t.response == s.response && t.error == s.error
          && r == (if Valid(t) then Ok(t) else Fail(InvalidSnapshot))
          && forall k :: 0 <= k < |s.steps| ==>
               if s.steps[k].id in statuses then Reported(s.steps[k], t.steps[k], statuses[s.steps[k].id])
               else t.steps[k] == s.steps[k]
  {
    forall id ensures id in Elements(Ids(s.steps)) <==> exists k :: 0 <= k < |s.steps| && s.steps[k].id == id {
      if k :| 0 <= k < |s.steps| && s.steps[k].id == id { assert Ids(s.steps)[k] == id; }
      if id in Elements(Ids(s.steps)) { var k :| 0 <= k < |s.steps| && Ids(s.steps)[k] == id; assert s.steps[k].id == id; }
    }
    var t := s.(steps := SyncedSteps(s.steps, statuses));
    assert OnlySteps(s, t);
    hide Valid, Ids;
  }

  // ----- revisions ----------------------------------------------------------

  /** A revision takes over the new plan's title and goal, keeps what is finished in front, and counts the work of both. */
  lemma RevisionTakesOver(s: Snapshot, plan: ExecutionPlan)
    requires RevisePlan(s, plan).Ok?
    ensures var t := RevisePlan(s, plan).value;
      && t.title == plan.title && t.goal == plan.goal && t.status == s.status && t.response == s.response && t.error == s.error
      && Distinct(t.workIds)
      && (forall id :: id in t.workIds <==>
            id in plan.workIds || (id in s.workIds && exists k :: 0 <= k < |s.steps| && s.steps[k].id == id && s.steps[k].status.Finished()))
      && |History(s)| <= |t.steps| && t.steps[..|History(s)|] == History(s)
      && (forall step :: step in History(s) <==> step in s.steps && step.status.Finished())
  {
    forall id ensures id in IdSet(History(s)) <==>
      exists k :: 0 <= k < |s.steps| && s.steps[k].id == id && s.steps[k].status.Finished()
    {
      if k :| 0 <= k < |s.steps| && s.steps[k].id == id && s.steps[k].status.Finished() { assert s.steps[k] in History(s); }
      if id in IdSet(History(s)) {
        var step :| step in History(s) && step.id == id;
        var k :| 0 <= k < |s.steps| && s.steps[k] == step;
      }
    }
    hide Future, Valid, RevisedFuture, Detached, FirstFault, InitialSteps, ValidSteps;
  }

  /** A kept running step goes on with its summary and error; any other planned step starts without error, and with a
      summary only if the plan has it done. */
  ghost predicate CarriesOver(s: Snapshot, planned: TaskStep, step: TaskStep) {
    if exists current :: Runs(s, current, planned.id)
    then
      && step.status.Running?
      && exists current :: Runs(s, current, planned.id) && step.summary == current.summary && step.error == current.error
    else step.error.None? && step.summary == if planned.status.Done? then planned.summary else None
  }

  ghost predicate Runs(s: Snapshot, current: TaskStep, id: string) {
    current in s.steps && current.status.Running? && current.id == id
  }

  lemma OpenedCarries(steps: seq<TaskStep>)
    ensures forall k :: 0 <= k < |steps| ==>
      Opened(steps)[k].error.None? && Opened(steps)[k].summary == if steps[k].status.Done? then steps[k].summary else None
  {
  }

  lemma RevisedCarries(s: Snapshot, plan: ExecutionPlan, k: nat)
    requires k < |Future(s, plan)| && k < |RevisedFuture(s, Future(s, plan))|
    ensures CarriesOver(s, Future(s, plan)[k], RevisedFuture(s, Future(s, plan))[k])
  {
    hide Future, History, Opened, IdSet;
    DetachedFuture(s, plan);
    OpenedCarries(Detached(Future(s, plan), IdSet(History(s))));
    var (id, step) := (Future(s, plan)[k].id, RevisedFuture(s, Future(s, plan))[k]);
    if RunsIn(s, id) {
      var t :| t in s.steps && t.status.Running? && t.id == id;
      assert Runs(s, t, id);
      var current :| current in s.steps && current.status.Running? && current.id == id
        && step.summary == current.summary && step.error == current.error;
      assert Runs(s, current, id);
    }
  }

  /** The steps behind the history are the new plan's that are not history, in order, or one closing model step. */
  lemma RevisionPlansAhead(s: Snapshot, plan: ExecutionPlan)
    requires RevisePlan(s, plan).Ok?
    ensures var (t, future) := (RevisePlan(s, plan).value, Future(s, plan));
      && |t.steps| == |History(s)| + |future|
      && forall k :: 0 <= k < |future| ==>
           SameWork(future[k], t.steps[|History(s)| + k]) && CarriesOver(s, future[k], t.steps[|History(s)| + k])
  {
    hide Future, History, Valid, RevisedFuture, RevisePlan, OpenedFuture, RunsIn, KeepsRunning, CarriesOver;
    RevisionPasses(s, plan);
    RevisedAt(s, plan, 0);
    forall k | 0 <= k < |Future(s, plan)|
      ensures SameWork(Future(s, plan)[k], RevisePlan(s, plan).value.steps[|History(s)| + k])
      ensures CarriesOver(s, Future(s, plan)[k], RevisePlan(s, plan).value.steps[|History(s)| + k])
    {
      RevisedAt(s, plan, k);
      RevisedCarries(s, plan, k);
    }
  }

  /** What is ahead: the plan's steps that are not history, or if there are none a closing model step with an unused id. */
  lemma AheadAre(s: Snapshot, plan: ExecutionPlan)
    ensures var (future, past) := (Future(s, plan), IdSet(History(s)));
      if exists t :: t in plan.steps && t.id !in past
      then forall t :: t in future <==> t in plan.steps && t.id !in past
      else
        && |future| == 1 && future[0].id !in past && ("respond" !in past ==> future[0].id == "respond")
        && future[0] == TaskStep(future[0].id, "Respond", Review, Model, Pending, None, [], [], None, None, None, false, None)
  {
    hide History;
    var past := IdSet(History(s));
    var kept := Keep(plan.steps, (t: TaskStep) => t.id !in past);
    if t :| t in plan.steps && t.id !in past { assert t in kept; }
    assert kept != [] ==> kept[0] in kept;
  }

  // ----- the beginning ------------------------------------------------------

  /** A run begins with its plan's steps, done ones kept with their summaries, the first other one running. */
  lemma InitializationBegins(plan: ExecutionPlan)
    requires Initialize(plan).Ok?
    ensures var s := Initialize(plan).value;
      && s.title == plan.title && s.goal == plan.goal && s.workIds == plan.workIds && s.status.RunRunning?
      && s.response == "" && s.error.None? && |s.steps| == |plan.steps|
      && forall k :: 0 <= k < |plan.steps| ==>
           && SameWork(plan.steps[k], s.steps[k]) && s.steps[k].error.None?
           && s.steps[k].summary == (if plan.steps[k].status.Done? then plan.steps[k].summary else None)
           && s.steps[k].status == (if plan.steps[k].status.Done? then Done
                                    else if forall j :: 0 <= j < k ==> plan.steps[j].status.Done? then Running
                                    else Pending)
  {
    OpenedWork(plan.steps);
    OpenedCarries(plan.steps);
    var initial := InitialSteps(plan.steps);
    forall i | 0 <= i < |initial| ensures !initial[i].kind.Confirm? { assert ContractFault(initial[i]).None?; }
    hide Valid, FirstFault;
  }
}
