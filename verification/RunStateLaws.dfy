/** Laws of the run reducer over every command and every sequence of commands. */
module RunStateLaws {
  import opened Prelude
  import opened Plan
  import opened RunState

  datatype Command =
    | DoModelDelta
    | DoCallsStarted(names: set<string>)
    | DoRound(outcome: BatchOutcome)
    | DoRoundFailed(reason: string)
    | DoComplete(response: string)
    | DoFinishDurable(covered: set<string>, close: bool, response: string)
    | DoSync(statuses: map<string, StepStatus>)
    | DoFail(reason: string)
    | DoCancel(reason: string)
    | DoRevise(plan: ExecutionPlan)

  ghost function Apply(s: Snapshot, cmd: Command): Outcome<Snapshot, Fault> {
    match cmd
    case DoModelDelta => OnModelDelta(s)
    case DoCallsStarted(names) => OnToolCallsStarted(s, names)
    case DoRound(outcome) => OnToolRoundCompleted(s, outcome)
    case DoRoundFailed(reason) => OnToolRoundFailed(s, reason)
    case DoComplete(response) => Complete(s, response)
    case DoFinishDurable(covered, close, response) => FinishDurable(s, covered, close, response)
    case DoSync(statuses) => SyncDurable(s, statuses)
    case DoFail(reason) => FailRun(s, reason)
    case DoCancel(reason) => CancelRun(s, reason)
    case DoRevise(plan) => RevisePlan(s, plan)
  }

  /** The snapshot a command leaves; a command that raises leaves it as it was. */
  ghost function Next(s: Snapshot, cmd: Command): Snapshot {
    match Apply(s, cmd) case Ok(t) => t case Fail(_) => s
  }

  // ----- done is for ever ---------------------------------------------------

  ghost predicate KeepsDone(before: seq<TaskStep>, after: seq<TaskStep>) {
    forall t :: t in before && t.status.Done? ==> t in after
  }

  /** Every done step is the same step at the same place. */
  ghost predicate KeepsDoneInPlace(before: seq<TaskStep>, after: seq<TaskStep>) {
    |after| == |before| && forall k :: 0 <= k < |before| && before[k].status.Done? ==> after[k] == before[k]
  }

  lemma InPlaceIsKept(before: seq<TaskStep>, after: seq<TaskStep>)
    requires KeepsDoneInPlace(before, after)
    ensures KeepsDone(before, after)
  {
    forall t | t in before && t.status.Done? ensures t in after {
      var k :| 0 <= k < |before| && before[k] == t;
      assert after[k] == t;
    }
  }

  /** No command ever changes or drops a done step. */
  lemma DoneStaysDone(s: Snapshot, cmd: Command)
    ensures KeepsDone(s.steps, Next(s, cmd).steps)
  {
    if !cmd.DoRevise? {
      RoundsKeepDone(s, cmd);
      InPlaceIsKept(s.steps, Next(s, cmd).steps);
    }
  }

  /** The reducers that touch single steps. */
  lemma CallsKeepDone(s: Snapshot, requested: set<string>)
    requires OnToolCallsStarted(s, requested).Ok?
    ensures KeepsDoneInPlace(s.steps, OnToolCallsStarted(s, requested).value.steps)
  {
    hide Valid, AllowedNow;
  }

  lemma RoundKeepsDone(s: Snapshot, outcome: BatchOutcome)
    requires OnToolRoundCompleted(s, outcome).Ok?
    ensures KeepsDoneInPlace(s.steps, OnToolRoundCompleted(s, outcome).value.steps)
  {
    hide Valid;
  }

  lemma SingleStepsKeepDone(s: Snapshot, cmd: Command)
    requires cmd.DoModelDelta? || cmd.DoCallsStarted? || cmd.DoRound? || cmd.DoRoundFailed?
    ensures KeepsDoneInPlace(s.steps, Next(s, cmd).steps)
  {
    hide Valid, OnToolCallsStarted, OnToolRoundCompleted;
    if cmd.DoCallsStarted? && Apply(s, cmd).Ok? { CallsKeepDone(s, cmd.names); }
    if cmd.DoRound? && Apply(s, cmd).Ok? { RoundKeepsDone(s, cmd.outcome); }
  }

  /** The reducers that sweep over all steps. */
  lemma SweepsKeepDone(s: Snapshot, cmd: Command)
    requires cmd.DoComplete? || cmd.DoFinishDurable? || cmd.DoSync? || cmd.DoFail? || cmd.DoCancel?
    ensures KeepsDoneInPlace(s.steps, Next(s, cmd).steps)
  {
    hide Valid, HasOpenNonModel, Elements, Ids;
  }

  lemma RoundsKeepDone(s: Snapshot, cmd: Command)
    requires !cmd.DoRevise?
    ensures KeepsDoneInPlace(s.steps, Next(s, cmd).steps)
  {
    hide Next, KeepsDoneInPlace;
    if cmd.DoModelDelta? || cmd.DoCallsStarted? || cmd.DoRound? || cmd.DoRoundFailed? { SingleStepsKeepDone(s, cmd); }
    else { SweepsKeepDone(s, cmd); }
  }

  /** A step once done is done, unchanged, after any further commands. */
  lemma {:induction false} DoneForEver(s: Snapshot, cmds: seq<Command>)
    ensures KeepsDone(s.steps, Run(s, cmds).steps)
    decreases |cmds|
  {
    if cmds != [] {
      DoneStaysDone(s, cmds[0]);
      DoneForEver(Next(s, cmds[0]), cmds[1..]);
    }
  }

  ghost function Run(s: Snapshot, cmds: seq<Command>): Snapshot
    decreases |cmds|
  {
    if cmds == [] then s else Run(Next(s, cmds[0]), cmds[1..])
  }

  /** Every command keeps the snapshot valid. */
  lemma NextIsValid(s: Snapshot, cmd: Command)
    requires Valid(s)
    ensures Valid(Next(s, cmd))
  {
    hide Valid, AllowedNow, ValidSteps, Elements;
  }

  lemma {:induction false} RunKeepsValid(s: Snapshot, cmds: seq<Command>)
    requires Valid(s)
    ensures Valid(Run(s, cmds))
    decreases |cmds|
  {
    hide Valid, Next;
    if cmds != [] {
      NextIsValid(s, cmds[0]);
      RunKeepsValid(Next(s, cmds[0]), cmds[1..]);
    }
  }

  // ----- grants -------------------------------------------------------------

  /** Current and future grants together are exactly the tools of the unfinished tool steps from the running step on,
      and there are none once the run is over or no step runs. */
  lemma GrantsAreUnfinishedTools(s: Snapshot)
    ensures AllowedNow(s) + FutureGrants(s) ==
      if s.status.Terminal() || RunningIndex(s.steps) == |s.steps| then {} else GrantedFrom(s.steps, RunningIndex(s.steps))
  {
    if !s.status.Terminal() && RunningIndex(s.steps) < |s.steps| { RunningGrantsAreUnfinishedTools(s); }
  }

  lemma RunningGrantsAreUnfinishedTools(s: Snapshot)
    requires !s.status.Terminal() && RunningIndex(s.steps) < |s.steps|
    ensures AllowedNow(s) + FutureGrants(s) == GrantedFrom(s.steps, RunningIndex(s.steps))
  {
    var steps := s.steps;
    var r := RunningIndex(steps);
    forall x | x in GrantedFrom(steps, r) ensures x in AllowedNow(s) + FutureGrants(s) {
      var i, t :| r <= i < |steps| && !steps[i].status.Finished() && steps[i].IsTool() && t in steps[i].tools && t == x;
      if i < FutureStart(steps) { assert x in AllowedNow(s); }
      else { assert x in GrantedFrom(steps, FutureStart(steps)); }
    }
    forall x | x in AllowedNow(s) ensures x in GrantedFrom(steps, r) {
      assert x in ToolSet(steps[FutureStart(steps) - 1].tools);
    }
  }

  // ----- starting tools -----------------------------------------------------

  /** The step that runs, if any, is the first unfinished one. */
  ghost predicate RunsInOrder(steps: seq<TaskStep>) {
    RunningIndex(steps) == |steps| || RunningIndex(steps) == NextIncomplete(steps)
  }

  /** The step whose tools are granted now: the running tool step, or the first unfinished step after a running model. */
  ghost function GrantingStep(steps: seq<TaskStep>): nat {
    var r := RunningIndex(steps);
    if r == |steps| || steps[r].IsTool() then r
    else First(steps, (t: TaskStep) => !t.status.Finished(), r + 1)
  }

  lemma GrantsComeFromGrantingStep(s: Snapshot)
    requires AllowedNow(s) != {}
    ensures var g := GrantingStep(s.steps);
      g < |s.steps| && s.steps[g].IsTool() && AllowedNow(s) == ToolSet(s.steps[g].tools)
  {
  }

  lemma RunningStepIsUnique(s: Snapshot, r: nat)
    requires OneRunning(s.steps) && r < |s.steps| && s.steps[r].status.Running?
    ensures RunningIndex(s.steps) == r
    ensures RunningTool(s.steps) == if s.steps[r].IsTool() then r else |s.steps|
    ensures RunningModel(s.steps) == if s.steps[r].IsModel() then r else |s.steps|
  {
  }

  /** Closing a running model step that is not the first unfinished one leaves an earlier step to start. */
  lemma AfterModelClosed(s: Snapshot, r: nat)
    requires OneRunning(s.steps) && r < |s.steps| && s.steps[r].status.Running? && !s.steps[r].IsTool() && s.steps[r].IsModel()
    ensures var steps := ModelClosed(s.steps);
      && RunningTool(steps) == |steps|
      && (forall k :: 0 <= k < |steps| && k != r ==> steps[k] == s.steps[k])
      && (ToolToStart(steps) == GrantingStep(s.steps) || ToolToStart(steps) < r)
      && (ToolToStart(steps) < r <==> NextIncomplete(s.steps) < r)
  {
    RunningStepIsUnique(s, r);
    var steps := ModelClosed(s.steps);
    var n, g := NextIncomplete(steps), GrantingStep(s.steps);
    if n > r {
      assert (n < |steps| ==> steps[n] == s.steps[n]) && (g < |steps| ==> steps[g] == s.steps[g]);
      assert n == g;
    }
    if NextIncomplete(s.steps) < r {
      assert !steps[NextIncomplete(s.steps)].status.Finished();
    }
    if n < r { assert !s.steps[n].status.Finished(); }
  }

  /** Starting granted tools leaves exactly the granting step running if and only if the running step is
      a tool step or the first unfinished one. */
  lemma CallsStartTheGrantingStep(s: Snapshot, requested: set<string>)
    requires Valid(s) && OnToolCallsStarted(s, requested).Ok? && !s.status.Terminal()
    ensures var (g, t) := (GrantingStep(s.steps), OnToolCallsStarted(s, requested).value);
      && g < |s.steps| == |t.steps| && s.steps[g].IsTool() && requested <= ToolSet(s.steps[g].tools)
      && (t.steps[g].status.Running? <==> s.steps[RunningIndex(s.steps)].IsTool() || RunsInOrder(s.steps))
      && (t.steps[g].status.Running? ==>
            && RunningIndex(t.steps) == g && t.steps[g] == s.steps[g].(status := Running)
            && forall k :: 0 <= k < |t.steps| && t.steps[k].status.Running? ==> k == g)
  {
    GrantsComeFromGrantingStep(s);
    var t := OnToolCallsStarted(s, requested).value;
    var r, g := RunningIndex(s.steps), GrantingStep(s.steps);
    RunningStepIsUnique(s, r);
    if s.steps[r].IsTool() {
      assert t.steps == s.steps[r := s.steps[r].(status := Running)];
    } else {
      AfterModelClosed(s, r);
      var steps := ModelClosed(s.steps);
      var k := ToolToStart(steps);
      assert t.steps == steps[k := steps[k].(status := Running)];
    }
    hide RunningReady, Ids;
    if t.steps[g].status.Running? { RunningStepIsUnique(t, g); }
  }

  // ----- the order after a revision ------------------------------------------

  /** The new plan keeps a running step. */
  ghost predicate KeepsRunning(s: Snapshot, plan: ExecutionPlan) {
    exists t :: t in Future(s, plan) && RunsIn(s, t.id)
  }

  /** If the new plan keeps the running step, it comes first of all that is not history. */
  ghost predicate RunningComesFirst(s: Snapshot, plan: ExecutionPlan) {
    KeepsRunning(s, plan) ==> RunsIn(s, Future(s, plan)[0].id)
  }

  /** The new plan's steps that are not history, opened without their dependencies on history. */
  function OpenedFuture(s: Snapshot, plan: ExecutionPlan): seq<TaskStep> {
    Opened(Detached(Future(s, plan), IdSet(History(s))))
  }

  /** What an accepted revision has checked, and what it leaves. */
  lemma RevisionPasses(s: Snapshot, plan: ExecutionPlan)
    requires RevisePlan(s, plan).Ok?
    ensures var (future, past, t) := (Future(s, plan), IdSet(History(s)), RevisePlan(s, plan).value);
      && s.status.RunRunning? && t.status == s.status && Valid(t)
      && ValidSteps(Detached(future, past)) && FirstFault(InitialSteps(Detached(future, past))).None?
      && t.steps == History(s) + RevisedFuture(s, future)
  {
    hide Future, History, Valid, RevisedFuture, Detached, FirstFault, InitialSteps, ValidSteps, IdSet, Dedupe;
  }

  /** Opening touches only the progress of a step. */
  lemma OpenedWork(steps: seq<TaskStep>)
    ensures forall k :: 0 <= k < |steps| ==> SameWork(steps[k], Opened(steps)[k])
  {
  }

  lemma DetachedFuture(s: Snapshot, plan: ExecutionPlan)
    ensures var (future, start) := (Future(s, plan), OpenedFuture(s, plan));
      && |start| == |future|
      && forall k :: 0 <= k < |future| ==> SameWork(future[k], start[k].(dependsOn := future[k].dependsOn))
  {
    hide Future, History, Opened, IdSet;
    OpenedWork(Detached(Future(s, plan), IdSet(History(s))));
  }

  lemma HistoryIsFinished(s: Snapshot)
    ensures forall k :: 0 <= k < |History(s)| ==> History(s)[k].status.Finished()
  {
    forall k | 0 <= k < |History(s)| ensures History(s)[k].status.Finished() { assert History(s)[k] in History(s); }
  }

  /** What `Opened` makes of executable steps: done ones up to one that runs, then none that runs. */
  lemma OpenedInOrder(steps: seq<TaskStep>)
    requires FirstFault(InitialSteps(steps)).None?
    ensures exists k: nat :: k <= |steps| && OpensAt(Opened(steps), k)
  {
    var initial := InitialSteps(steps);
    var k := First(initial, (s: TaskStep) => !s.status.Done? && !s.kind.Confirm?);
    forall i | 0 <= i < |initial| ensures !initial[i].kind.Confirm? { assert ContractFault(initial[i]).None?; }
    assert OpensAt(Opened(steps), k);
  }

  ghost predicate OpensAt(steps: seq<TaskStep>, k: nat) {
    && (forall i :: 0 <= i < k && i < |steps| ==> steps[i].status.Done?)
    && (forall i :: 0 <= i < |steps| ==> (steps[i].status.Running? <==> i == k))
    && (forall i :: 0 <= i < |steps| ==> steps[i].status.Pending? || steps[i].status.Running? || steps[i].status.Done?)
  }

  lemma RevisedAt(s: Snapshot, plan: ExecutionPlan, k: nat)
    requires k < |Future(s, plan)|
    ensures var (step, r) := (Future(s, plan)[k], RevisedFuture(s, Future(s, plan)));
      && |OpenedFuture(s, plan)| == |r| == |Future(s, plan)|
      && SameWork(step, r[k])
      && r[k].status == (if RunsIn(s, step.id) then Running
                         else if KeepsRunning(s, plan) then Pending
                         else OpenedFuture(s, plan)[k].status)
  {
    hide Future, History, Opened, RunsIn, IdSet;
    DetachedFuture(s, plan);
  }

  /** The statuses a revision gives: a kept running step silences all others, else the steps are opened anew. */
  lemma RevisedStatuses(s: Snapshot, plan: ExecutionPlan)
    requires RevisePlan(s, plan).Ok?
    ensures var (future, r) := (Future(s, plan), RevisedFuture(s, Future(s, plan)));
      && |r| == |future|
      && (KeepsRunning(s, plan) ==>
            forall k :: 0 <= k < |r| ==> r[k].status == if RunsIn(s, future[k].id) then Running else Pending)
      && (!KeepsRunning(s, plan) ==> exists k: nat :: k <= |r| && OpensAt(r, k))
  {
    hide Future, History, RevisedFuture, RevisePlan, OpenedFuture, RunsIn;
    RevisionPasses(s, plan);
    var (future, r) := (Future(s, plan), RevisedFuture(s, Future(s, plan)));
    forall k | 0 <= k < |future|
      ensures |OpenedFuture(s, plan)| == |r| == |future|
      ensures KeepsRunning(s, plan) ==> r[k].status == if RunsIn(s, future[k].id) then Running else Pending
      ensures !KeepsRunning(s, plan) ==> r[k].status == OpenedFuture(s, plan)[k].status
    {
      RevisedAt(s, plan, k);
      assert future[k] in future;
    }
    assert |r| == |future| by { RevisedAt(s, plan, 0); }
    if !KeepsRunning(s, plan) {
      FutureOpens(s, plan);
      var k: nat :| k <= |r| && OpensAt(OpenedFuture(s, plan), k);
      assert OpensAt(r, k);
    }
  }

  lemma FutureOpens(s: Snapshot, plan: ExecutionPlan)
    requires FirstFault(InitialSteps(Detached(Future(s, plan), IdSet(History(s))))).None?
    ensures exists k: nat :: k <= |Future(s, plan)| && OpensAt(OpenedFuture(s, plan), k)
  {
    hide Future, History, Opened, InitialSteps, IdSet, OpensAt;
    DetachedFuture(s, plan);
    OpenedInOrder(Detached(Future(s, plan), IdSet(History(s))));
  }

  /** A revision leaves the first unfinished step running exactly when a running step that it keeps comes first. */
  lemma RevisionKeepsOrderExactly(s: Snapshot, plan: ExecutionPlan)
    requires RevisePlan(s, plan).Ok?
    ensures RunsInOrder(RevisePlan(s, plan).value.steps) <==> RunningComesFirst(s, plan)
  {
    hide Future, History, RevisedFuture, RevisePlan, Valid, RunsIn, RunsInOrder, OpensAt;
    var (h, future) := (History(s), Future(s, plan));
    var r := RevisedFuture(s, future);
    HistoryIsFinished(s);
    RevisionPasses(s, plan);
    RevisedStatuses(s, plan);
    if KeepsRunning(s, plan) {
      var t :| t in future && RunsIn(s, t.id);
      var k :| 0 <= k < |future| && future[k] == t;
      OrderBehindHistory(h, r, k);
    } else {
      var k: nat :| k <= |r| && OpensAt(r, k);
      OpenBehindHistory(h, r, k);
    }
  }

  lemma OpenBehindHistory(h: seq<TaskStep>, r: seq<TaskStep>, k: nat)
    requires (forall i :: 0 <= i < |h| ==> h[i].status.Finished()) && k <= |r| && OpensAt(r, k)
    ensures RunsInOrder(h + r)
  {
    var steps := h + r;
    assert forall i :: 0 <= i < k ==> steps[|h| + i] == r[i];
    assert k < |r| ==> steps[|h| + k] == r[k];
  }

  /** Behind finished steps, of which none is done and one runs, the order is right exactly if the first one runs. */
  lemma OrderBehindHistory(h: seq<TaskStep>, r: seq<TaskStep>, k: nat)
    requires (forall i :: 0 <= i < |h| ==> h[i].status.Finished()) && k < |r| && r[k].status.Running?
    requires forall i :: 0 <= i < |r| ==> r[i].status.Pending? || r[i].status.Running?
    ensures RunsInOrder(h + r) <==> r[0].status.Running?
  {
    var steps := h + r;
    assert steps[|h| + k] == r[k] && steps[|h|] == r[0];
  }

  const THINK := TaskStep("think", "Think", Analyze, Model, Pending, None, [], [], None, None, None, false, None)
  const FETCH := TaskStep("fetch", "Fetch", Analyze, Tool, Pending, None, ["read"], [], None, None, None, false, None)
  const STORE := TaskStep("store", "Store", Write, Tool, Pending, None, ["write"], [], None, None, None, false, None)
  const THINKING := Snapshot("t", None, RunRunning, [THINK.(status := Running)], [], "", None)
  const FETCH_FIRST := ExecutionPlan("t", None, [FETCH, THINK, STORE], [])
  const REVISED := THINKING.(steps := [FETCH, THINK.(status := Running), STORE])

  lemma TrioIsValid(steps: seq<TaskStep>)
    requires |steps| == 3 && steps[0].id == "fetch" && steps[1].id == "think" && steps[2].id == "store"
    requires forall k :: 0 <= k < 3 ==> steps[k].dependsOn == []
    ensures Distinct(Ids(steps)) && ValidSteps(steps) && RunningReady(steps)
  {
    assert Ids(steps) == ["fetch", "think", "store"];
    assert "fetch"[0] != "think"[0] && "fetch"[0] != "store"[0] && "think"[0] != "store"[0];
  }

  lemma TrioFuture()
    ensures IdSet(History(THINKING)) == {} && History(THINKING) == []
    ensures Future(THINKING, FETCH_FIRST) == FETCH_FIRST.steps
    ensures Detached(FETCH_FIRST.steps, {}) == FETCH_FIRST.steps
  {
    assert THINKING.steps[0].status.Running? && !THINKING.steps[0].status.Finished();
    NoneKept(THINKING.steps, (t: TaskStep) => t.status.Finished());
    assert IdSet(History(THINKING)) == {};
    AllKept(FETCH_FIRST.steps, (t: TaskStep) => t.id !in IdSet(History(THINKING)));
    assert Detached(FETCH_FIRST.steps, {}) == FETCH_FIRST.steps;
  }

  lemma TrioOpens()
    ensures InitialSteps(FETCH_FIRST.steps) == FETCH_FIRST.steps && FirstFault(FETCH_FIRST.steps).None?
    ensures Opened(FETCH_FIRST.steps) == [FETCH.(status := Running), THINK, STORE]
  {
    assert InitialSteps(FETCH_FIRST.steps) == FETCH_FIRST.steps;
    assert FirstFault(FETCH_FIRST.steps[1..][1..][1..]).None?;
  }

  lemma TrioRevised()
    ensures RevisedFuture(THINKING, FETCH_FIRST.steps) == REVISED.steps
  {
    TrioFuture();
    TrioOpens();
    assert THINKING.steps[0].id == "think" && THINKING.steps[0].status.Running?;
    assert RunsIn(THINKING, "think");
    assert "fetch"[0] != "think"[0] && "store"[0] != "think"[0];
    assert !RunsIn(THINKING, "fetch") && !RunsIn(THINKING, "store");
    assert THINK in FETCH_FIRST.steps;
    hide Opened, RunsIn;
  }

  lemma ThinkingIsValid()
    ensures Valid(THINKING) && RunsInOrder(THINKING.steps)
  {
    assert THINKING.steps[0].status.Running?;
    RunningStepIsUnique(THINKING, 0);
  }

  lemma RevisedIsValid()
    ensures Valid(REVISED) && !RunsInOrder(REVISED.steps)
  {
    TrioIsValid(REVISED.steps);
    assert !REVISED.steps[0].status.Finished() && REVISED.steps[1].status.Running?;
    hide Ids, RunningReady;
    RunningStepIsUnique(REVISED, 1);
  }

  /** A revision can put a new step before the preserved running step ... */
  lemma RevisionPutsStepBeforeRunning()
    ensures Valid(THINKING) && RunsInOrder(THINKING.steps)
    ensures RevisePlan(THINKING, FETCH_FIRST) == Ok(REVISED)
    ensures Valid(REVISED) && !RunsInOrder(REVISED.steps)
  {
    ThinkingIsValid();
    RevisedIsValid();
    hide Valid, RunsInOrder;
    TrioFuture();
    TrioOpens();
    TrioRevised();
    TrioIsValid(FETCH_FIRST.steps);
    assert [] + REVISED.steps == REVISED.steps;
    NothingToDedupe(IdSet(History(THINKING)));
    hide Future, Detached, FirstFault, InitialSteps, RevisedFuture, ValidSteps, History, Keep, Dedupe, IdSet;
  }

  lemma NothingToDedupe(past: set<string>)
    ensures Dedupe(Keep([], (id: string) => id in past) + []) == []
  {
  }

  /** ... and the next granted call then starts the new step, although it never granted the called tool. */
  lemma RevisionCanMisplaceTheStart()
    ensures OnToolCallsStarted(REVISED, {"write"}).Ok?
    ensures var t := OnToolCallsStarted(REVISED, {"write"}).value;
      t.steps[0].tools == ["read"] && t.steps[0].status.Running? && t.steps[2].status.Pending?
  {
    assert REVISED.steps[1].status.Running? && !REVISED.steps[0].status.Running? && !REVISED.steps[2].status.Running?;
    RunningStepIsUnique(REVISED, 1);
    assert !REVISED.steps[2].status.Finished() && GrantingStep(REVISED.steps) == 2;
    assert "write" in REVISED.steps[2].tools && AllowedNow(REVISED) == {"write"};
    var closed := ModelClosed(REVISED.steps);
    assert ToolToStart(closed) == 0;
    var u := REVISED.(steps := closed[0 := closed[0].(status := Running)]);
    TrioIsValid(u.steps);
    hide Ids, RunningReady;
    assert Valid(u);
  }

  lemma {:induction false} AllKept<T(!new)>(items: seq<T>, test: T -> bool)
    requires forall x :: x in items ==> test(x)
    ensures Keep(items, test) == items
  {
    if items != [] { AllKept(items[1..], test); }
  }

  lemma {:induction false} NoneKept<T(!new)>(items: seq<T>, test: T -> bool)
    requires forall x :: x in items ==> !test(x)
    ensures Keep(items, test) == []
  {
    if items != [] { NoneKept(items[1..], test); }
  }
}
