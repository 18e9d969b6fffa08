/** The reducers and grants that scan the steps with loops (src/purra/run_state.py), proved against RunState. */
module RunStateLoops {
  import opened Prelude
  import opened Plan
  import opened RunState
  import Decimal

  method HasIncompleteNonModel(steps: seq<TaskStep>) returns (found: bool)
    ensures found == HasOpenNonModel(steps)
  {
    var i := 0;
    while i < |steps|
      invariant i <= |steps| && forall k :: 0 <= k < i ==> !(Open(steps[k]) && !steps[k].IsModel())
    {
      if Open(steps[i]) && !steps[i].IsModel() { return true; }
      i := i + 1;
    }
    return false;
  }

  /** The steps and the status a completed run ends with. */
  method Complete(steps: seq<TaskStep>) returns (ended: seq<TaskStep>, status: RunStatus)
    ensures ended == CompletedSteps(steps, HasOpenNonModel(steps))
    ensures status == if HasOpenNonModel(steps) then RunBlocked else RunDone
    ensures forall k :: 0 <= k < |ended| ==> ended[k].status.Finished()
  {
    var stuck := HasIncompleteNonModel(steps);
    ended := steps;
    var i := 0;
    while i < |steps|
      invariant i <= |steps| == |ended|
      invariant forall k :: 0 <= k < i ==> ended[k] == CompletedStep(steps[k], stuck)
      invariant forall k :: i <= k < |steps| ==> ended[k] == steps[k]
    {
      if Open(steps[i]) {
        var covered := steps[i].IsModel() && (steps[i].status.Running? || !stuck);
        ended := ended[i :=
          if covered then Summarized(steps[i], Done, "Final response covered this model step.")
          else Summarized(steps[i], Blocked, "This planned step was not executed in the run.")];
      }
      i := i + 1;
    }
    status := if stuck then RunBlocked else RunDone;
  }

  /** The place of the step with an id. */
  method IndexOf(steps: seq<TaskStep>, id: string) returns (k: nat)
    requires id in Ids(steps)
    ensures k < |steps| && steps[k].id == id
  {
    ghost var i :| 0 <= i < |steps| && Ids(steps)[i] == id;
    k := 0;
    while steps[k].id != id
      invariant k <= i && forall j :: 0 <= j < k ==> steps[j].id != id
      decreases i - k
    {
      k := k + 1;
    }
  }

  lemma KnownIds(steps: seq<TaskStep>, ids: set<string>)
    requires ids <= Elements(Ids(steps))
    ensures forall id :: id in ids ==> id in Ids(steps)
  {
  }

  lemma SameIndex(steps: seq<TaskStep>, k: nat, j: nat)
    requires Distinct(Ids(steps)) && k < |steps| && j < |steps| && steps[k].id == steps[j].id
    ensures k == j
  {
    assert Ids(steps)[k] == Ids(steps)[j];
  }

  /** The steps with the reported statuses, taken up one report after the other in any order. */
  method Sync(steps: seq<TaskStep>, statuses: map<string, StepStatus>) returns (synced: seq<TaskStep>)
    requires Distinct(Ids(steps)) && statuses.Keys <= Elements(Ids(steps))
    ensures synced == SyncedSteps(steps, statuses)
  {
    hide Distinct, Elements;
    KnownIds(steps, statuses.Keys);
    synced := steps;
    var rest := statuses.Keys;
    while rest != {}
      invariant rest <= statuses.Keys && |synced| == |steps|
      invariant forall k :: 0 <= k < |steps| ==>
        synced[k] == if steps[k].id in rest then steps[k] else SyncedStep(steps[k], statuses)
      decreases |rest|
    {
      var id :| id in rest;
      var at := IndexOf(steps, id);
      forall k | 0 <= k < |steps| && steps[k].id == id ensures k == at { SameIndex(steps, k, at); }
      var (step, status) := (steps[at], statuses[id]);
      if step.status != status && !step.status.Done? {
        synced := synced[at := step.(
          status := status,
          summary := if status.Done? then Some("Durable execution completed this Planner step.") else step.summary,
          error := if status.Failed? then Some("durable_execution_failed") else None)];
      }
      rest := rest - {id};
    }
  }

  /** The unfinished tool grants strictly after the current transition. */
  method FutureToolNames(s: Snapshot) returns (names: set<string>)
    ensures names == FutureGrants(s)
  {
    if s.status.Terminal() { return {}; }
    var steps := s.steps;
    var running := FindRunning(steps);
    if running == |steps| { return {}; }
    var start := running + 1;
    if !steps[running].IsTool() && steps[running].IsModel() {
      var next := FindUnfinished(steps, running + 1);
      if next < |steps| && steps[next].IsTool() { start := next + 1; }
    }
    assert start == FutureStart(steps);
    names := {};
    var i := start;
    while i < |steps|
      invariant start <= i <= |steps|
      invariant names == set k, t | start <= k < i && !steps[k].status.Finished() && steps[k].IsTool() && t in steps[k].tools :: t
    {
      if !steps[i].status.Finished() && steps[i].IsTool() { names := names + set t | t in steps[i].tools; }
      i := i + 1;
    }
  }

  method FindRunning(steps: seq<TaskStep>) returns (k: nat)
    ensures k == RunningIndex(steps)
  {
    k := 0;
    while k < |steps| && !steps[k].status.Running?
      invariant k <= |steps| && forall j :: 0 <= j < k ==> !steps[j].status.Running?
    {
      k := k + 1;
    }
  }

  method FindUnfinished(steps: seq<TaskStep>, from: nat) returns (k: nat)
    requires from <= |steps|
    ensures k == First(steps, (t: TaskStep) => !t.status.Finished(), from)
  {
    k := from;
    while k < |steps| && steps[k].status.Finished()
      invariant from <= k <= |steps| && forall j :: from <= j < k ==> steps[j].status.Finished()
    {
      k := k + 1;
    }
  }

  /** The first of base, base-2, base-3, ... that is not used; the loop stops because only finitely many are. */
  method FindStepId(base: string, used: set<string>) returns (id: string)
    ensures id == UniqueStepId(base, used)
  {
    NumberedIdsDiffer(base);
    if base !in used { return base; }
    var f := NumberedId(base);
    var suffix := 2;
    while f(suffix) in used
      invariant 2 <= suffix && Decimal.Search(f, used, 2) == Decimal.Search(f, used, suffix)
      decreases |Decimal.Taken(f, used, suffix)|
    {
      Decimal.TakenShrinks(f, used, suffix);
      suffix := suffix + 1;
    }
    return f(suffix);
  }
}
