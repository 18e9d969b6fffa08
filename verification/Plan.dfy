/** Plans as the planner writes them and as the runtime executes them (src/purra/contracts/plans.py). */
module Plan {
  import opened Prelude

  datatype StepStatus = Pending | Running | Done | Blocked | Failed {
    predicate Finished() { Done? || Blocked? || Failed? }
  }

  datatype StepType = Read | Analyze | Write | Review | Confirm
  datatype Executor = Model | Tool
  datatype Risk = ReadRisk | WriteRisk | DestructiveRisk

  datatype WorkStep = WorkStep(
    id: string, title: string, kind: StepType, executor: Executor, risk: Option<Risk>,
    capabilities: seq<string>, dependsOn: seq<string>, description: Option<string>)

  datatype TaskStep = TaskStep(
    id: string, title: string, kind: StepType, executor: Executor, status: StepStatus, risk: Option<Risk>,
    tools: seq<string>, dependsOn: seq<string>, description: Option<string>,
    summary: Option<string>, error: Option<string>, hidden: bool, capability: Option<string>)
  {
    predicate IsTool() { executor.Tool? || kind.Read? }
    predicate IsModel() { executor.Model? && !kind.Read? && !kind.Confirm? }
  }

  /** The same planned step, possibly further along. */
  ghost predicate SameWork(planned: TaskStep, step: TaskStep) {
    step == planned.(status := step.status, summary := step.summary, error := step.error)
  }

  datatype ExecutionPlan = ExecutionPlan(title: string, goal: Option<string>, steps: seq<TaskStep>, workIds: seq<string>)

  function Ids(steps: seq<TaskStep>): seq<string> {
    seq(|steps|, i requires 0 <= i < |steps| => steps[i].id)
  }

  /** Every dependency of step `k` is an earlier step. */
  ghost predicate BackwardAt(steps: seq<TaskStep>, k: nat)
    requires k < |steps|
  {
    forall d :: d in steps[k].dependsOn ==> d in Ids(steps[..k])
  }

  /** What the constructor of an execution plan checks. */
  ghost predicate ValidSteps(steps: seq<TaskStep>) {
    Distinct(Ids(steps)) && forall k {:trigger BackwardAt(steps, k)} :: 0 <= k < |steps| ==> BackwardAt(steps, k)
  }
}
