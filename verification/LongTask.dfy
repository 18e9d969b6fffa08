/**
 One durable long task: its units, its record and every step that changes them
 (src/purra/adapters/durable_memory.py, src/purra/adapters/_long_task_mixins.py).
 The units are listed in the order of the source's dictionary.
 */
module LongTask {
  import opened Prelude
  import DependencyGraph

  datatype TaskStatus = TaskPending | TaskRunning | TaskPaused | TaskCompleted | TaskFailed | TaskCanceled {
    predicate Terminal() { TaskCompleted? || TaskFailed? || TaskCanceled? }
  }

  datatype UnitStatus =
    | Pending | WaitingRetry | Claimed | Running | NeedsSplit | Blocked | Expanded | Completed | Failed | Canceled
  {
    predicate Terminal() { Completed? || Expanded? || Failed? || Canceled? }
    predicate Leased() { Claimed? || Running? }
    predicate Waiting() { Pending? || WaitingRetry? }
    predicate Recoverable() { Blocked? || Failed? || Canceled? }
  }

  datatype Disposition = RetryAttempt | ResumeCheckpoint | PauseRecoverable | SplitPart | FailPermanent | CancelTask

  datatype Decision = Decision(code: string, disposition: Disposition, systemic: bool)

  datatype Output = Output(ref: string, run: Option<string>, digest: Option<string>, receipt: string, metadata: map<string, string>)

  datatype Unit = Unit(
    id: string, position: nat, key: string, dependencies: seq<string>, parent: Option<string>, required: bool,
    status: UnitStatus, attempt: nat, maxAttempts: pos, worker: Option<string>, epoch: nat, expires: Option<nat>,
    settledBy: Option<string>, run: Option<string>, output: Option<string>, digest: Option<string>, receipt: string,
    disposition: Option<Disposition>, error: Option<string>, metadata: map<string, string>)

  /** A unit as its author describes it. */
  datatype Spec = Spec(
    id: string, position: nat, key: string, dependencies: seq<string>, parent: Option<string>, required: bool,
    maxAttempts: pos, metadata: map<string, string>)

  datatype Split = Split(children: seq<Spec>, replacements: seq<string>)

  datatype Usage = Usage(invocations: nat, unreported: nat, input: nat, generation: nat, reasoning: Option<nat>)

  datatype Limits = Limits(
    invocations: Option<nat>, input: Option<nat>, generation: Option<nat>, reasoning: Option<nat>)

  datatype Record = Record(
    status: TaskStatus, revision: nat, total: pos, completed: nat, failed: nat, maxParallelism: pos,
    deadline: Option<nat>, limits: Limits, pauseOnBudget: bool, cancelRequestedAt: Option<nat>, usage: Usage)

  /** A stored task; `usages` lists each Run's usage once, in the order of arrival. */
  datatype Task = Task(record: Record, units: seq<Unit>, usages: seq<(string, Usage)>)

  datatype Fault = UnitMissing | LeaseLost | DeadlineExceeded | RevisionConflict | NotPending | DeadlineNotElapsed
    | CannotPause | CannotResume | NeedsAttempts | NoAttemptsNeeded | CannotCancel | UsageConflict | RunConflict
    | NotASplit | NoChildren | ChildConflict | DependsOnParent | NoReplacement | DependencyCycle | InvalidRecord

  /** What a step leaves and what it returns: a unit, or nothing besides the record. */
  datatype Result = Result(task: Task, reply: Outcome<Option<Unit>, Fault>)

  // ----- reading the units --------------------------------------------------

  function UnitIds(units: seq<Unit>): seq<string> {
    seq(|units|, i requires 0 <= i < |units| => units[i].id)
  }

  function Keys(units: seq<Unit>): seq<string> {
    seq(|units|, i requires 0 <= i < |units| => units[i].key)
  }

  function Named(id: string): Unit -> bool { (u: Unit) => u.id == id }

  function Find(units: seq<Unit>, id: string): nat { First(units, Named(id)) }

  function Count(units: seq<Unit>, test: Unit -> bool): nat {
    if units == [] then 0
    else Count(units[..|units| - 1], test) + if test(units[|units| - 1]) then 1 else 0
  }

  function Sweep(units: seq<Unit>, f: Unit -> Unit): (r: seq<Unit>)
    ensures |r| == |units|
  {
    seq(|units|, i requires 0 <= i < |units| => f(units[i]))
  }

  ghost predicate AnyUnit(units: seq<Unit>, test: Unit -> bool) {
    exists k :: 0 <= k < |units| && test(units[k])
  }

  ghost predicate DoneIn(units: seq<Unit>, id: string) {
    exists k :: 0 <= k < |units| && units[k].id == id && units[k].status.Completed?
  }

  ghost predicate DependenciesDone(units: seq<Unit>, u: Unit) {
    forall d :: d in u.dependencies ==> DoneIn(units, d)
  }

  function ExpiresAt(u: Unit): nat { if u.expires.Some? then u.expires.value else 0 }

  function Live(now: nat): Unit -> bool { (u: Unit) => u.status.Leased() && ExpiresAt(u) > now }

  function Required(): Unit -> bool { (u: Unit) => u.required }
  function RequiredCompleted(): Unit -> bool { (u: Unit) => u.required && u.status.Completed? }
  function RequiredFailed(): Unit -> bool { (u: Unit) => u.required && u.status.Failed? }
  function RequiredBlocked(): Unit -> bool { (u: Unit) => u.required && u.status.Blocked? }
  function RequiredOpen(): Unit -> bool { (u: Unit) => u.required && !u.status.Completed? }

  /** Something is being worked on or can be claimed. */
  ghost predicate HasRunnableWork(units: seq<Unit>, now: nat) {
    exists k :: 0 <= k < |units| &&
      (Live(now)(units[k]) ||
       (units[k].status.Waiting() && units[k].attempt < units[k].maxAttempts && DependenciesDone(units, units[k])))
  }

  // ----- changing the record ------------------------------------------------

  function Touch(t: Task): Task { t.(record := t.record.(revision := t.record.revision + 1)) }

  function SetStatus(t: Task, status: TaskStatus): Task {
    if t.record.status == status then t else Touch(t.(record := t.record.(status := status)))
  }

  /** Recounts the required units and sets the status; a record without required units is invalid and not stored. */
  function Refresh(t: Task, status: TaskStatus): Result {
    var total := Count(t.units, Required());
    if total == 0 then Result(t, Fail(InvalidRecord))
    else
      var record := t.record.(total := total, completed := Count(t.units, RequiredCompleted()),
                              failed := Count(t.units, RequiredFailed()));
      Result(SetStatus(Touch(t.(record := record)), status), Ok(None))
  }

  function Released(u: Unit, status: UnitStatus): Unit { u.(status := status, worker := None, expires := None) }

  function Or(error: Option<string>, code: string): Option<string> {
    if error.Some? && error.value != "" then error else Some(code)
  }

  function CancelUnit(): Unit -> Unit { (u: Unit) => if u.status.Terminal() then u else Released(u, Canceled) }

  function CancelUnless(id: string): Unit -> Unit {
    (u: Unit) =>
      if u.id == id || u.status.Terminal() then u
      else Released(u, Canceled).(error := Or(u.error, "task_failed_dependency"))
  }

  function ExpireUnit(): Unit -> Unit {
    (u: Unit) => if u.status.Terminal() then u else Released(u, Failed).(error := Some("long_task_deadline_exceeded"))
  }

  function ReleaseUnit(reason: string): Unit -> Unit {
    (u: Unit) =>
      if u.status.Leased() then Released(u, Pending).(maxAttempts := u.maxAttempts + 1, error := Some(reason)) else u
  }

  function BudgetUnit(pause: bool, kind: string): Unit -> Unit {
    (u: Unit) =>
      if u.status.Terminal() then u
      else
        var stopped := Released(u, if pause then Blocked else Failed).(
          error := Some("runtime_budget_exceeded"), metadata := u.metadata["budgetKind" := kind]);
        if pause then stopped.(disposition := Some(PauseRecoverable)) else stopped
  }

  function CancelAll(t: Task): Task { SetStatus(t.(units := Sweep(t.units, CancelUnit())), TaskCanceled) }

  function FailTask(t: Task, failed: string): Result {
    Refresh(t.(units := Sweep(t.units, CancelUnless(failed))), TaskFailed)
  }

  function ExpireDeadline(t: Task): Result { Refresh(t.(units := Sweep(t.units, ExpireUnit())), TaskFailed) }

  function FailBudget(t: Task, kind: string): Result {
    Refresh(t.(units := Sweep(t.units, BudgetUnit(t.record.pauseOnBudget, kind))),
            if t.record.pauseOnBudget then TaskPaused else TaskFailed)
  }

  predicate DeadlineElapsed(t: Task, now: nat) { t.record.deadline.Some? && t.record.deadline.value <= now }

  predicate Beyond(value: nat, limit: Option<nat>, exceededOnly: bool) {
    limit.Some? && (value > limit.value || (!exceededOnly && value >= limit.value))
  }

  function BudgetExhaustion(record: Record, exceededOnly: bool): Option<string> {
    var (usage, limits) := (record.usage, record.limits);
    if usage.unreported != 0 && (limits.input.Some? || limits.generation.Some? || limits.reasoning.Some?)
    then Some("provider_usage_unreported")
    else if limits.reasoning.Some? && usage.reasoning.None? then Some("reasoning_tokens_unreported")
    else if Beyond(usage.invocations, limits.invocations, exceededOnly) then Some("model_attempts")
    else if Beyond(usage.input, limits.input, exceededOnly) then Some("input_tokens")
    else if Beyond(usage.generation, limits.generation, exceededOnly) then Some("generation_tokens")
    else if usage.reasoning.Some? && Beyond(usage.reasoning.value, limits.reasoning, exceededOnly)
    then Some("reasoning_tokens")
    else None
  }

  // ----- usage --------------------------------------------------------------

  const NO_USAGE := Usage(0, 0, 0, 0, None)

  function Aggregate(usages: seq<(string, Usage)>): Usage {
    if usages == [] then Usage(0, 0, 0, 0, Some(0))
    else
      var rest, last := Aggregate(usages[..|usages| - 1]), usages[|usages| - 1].1;
      Usage(rest.invocations + last.invocations, rest.unreported + last.unreported, rest.input + last.input,
            rest.generation + last.generation,
            if rest.reasoning.None? || last.reasoning.None? then None
            else Some(rest.reasoning.value + last.reasoning.value))
  }

  function UsageOf(usages: seq<(string, Usage)>, run: string): Option<Usage> {
    if usages == [] then None
    else if usages[|usages| - 1].0 == run then Some(usages[|usages| - 1].1)
    else UsageOf(usages[..|usages| - 1], run)
  }

  function RecordUsage(t: Task, run: string, usage: Usage, expected: nat): Result {
    var existing := UsageOf(t.usages, run);
    if existing.Some? then Result(t, if existing.value == usage then Ok(None) else Fail(UsageConflict))
    else if t.record.revision != expected then Result(t, Fail(RevisionConflict))
    else
      var usages := t.usages + [(run, usage)];
      var counted := t.(usages := usages, record := t.record.(usage := Aggregate(usages)));
      var kind := BudgetExhaustion(counted.record, true);
      if kind.Some? then FailBudget(counted, kind.value) else Result(Touch(counted), Ok(None))
  }

  // ----- steps of the task --------------------------------------------------

  function Start(t: Task, now: nat, expected: nat): Result {
    if DeadlineElapsed(t, now) then ExpireDeadline(t)
    else if t.record.cancelRequestedAt.Some? then Result(CancelAll(t), Ok(None))
    else if t.record.status.TaskRunning? then Result(t, Ok(None))
    else if !t.record.status.TaskPending? then Result(t, Fail(NotPending))
    else if t.record.revision != expected then Result(t, Fail(RevisionConflict))
    else Result(SetStatus(t, TaskRunning), Ok(None))
  }

  function Expire(t: Task, now: nat): Result {
    if t.record.status.Terminal() then Result(t, Ok(None))
    else if !DeadlineElapsed(t, now) then Result(t, Fail(DeadlineNotElapsed))
    else ExpireDeadline(t)
  }

  function ReleaseAll(t: Task, reason: string): Task {
    SetStatus(t.(units := Sweep(t.units, ReleaseUnit(reason))), TaskPaused)
  }

  function Pause(t: Task, expected: Option<nat>, reason: string): Result {
    if expected.Some? && t.record.revision != expected.value then Result(t, Fail(RevisionConflict))
    else if t.record.status.TaskPaused? then Result(t, Ok(None))
    else if !t.record.status.TaskPending? && !t.record.status.TaskRunning? then Result(t, Fail(CannotPause))
    else Result(ReleaseAll(t, if reason == "" then "execution_paused" else reason), Ok(None))
  }

  function ReviveUnit(extra: nat): Unit -> Unit {
    (u: Unit) => if u.status.Recoverable() then Released(u, Pending).(maxAttempts := u.maxAttempts + extra) else u
  }

  function IsRecoverable(): Unit -> bool { (u: Unit) => u.status.Recoverable() }
  function IsBlocked(): Unit -> bool { (u: Unit) => u.status.Blocked? }

  /** The attempts a resume grants: one when only blocked units wait and none are asked for. */
  function GrantedAttempts(units: seq<Unit>, asked: nat): nat {
    var targets := Count(units, IsRecoverable());
    if Count(units, IsBlocked()) > 0 && Count(units, IsBlocked()) == targets && asked == 0 then 1 else asked
  }

  function Resume(t: Task, asked: nat): Result {
    var targets := Count(t.units, IsRecoverable());
    var extra := GrantedAttempts(t.units, asked);
    if t.record.status.TaskRunning? then Result(t, Ok(None))
    else if !t.record.status.TaskPaused? && !t.record.status.TaskFailed? then Result(t, Fail(CannotResume))
    else if targets > 0 && extra == 0 then Result(t, Fail(NeedsAttempts))
    else if targets == 0 && extra > 0 then Result(t, Fail(NoAttemptsNeeded))
    else
      var revived := t.(units := Sweep(t.units, ReviveUnit(extra)), record := t.record.(failed := 0));
      Result(SetStatus(revived, TaskRunning), Ok(None))
  }

  function Cancel(t: Task): Result {
    if t.record.status.TaskCanceled? then Result(t, Ok(None))
    else if t.record.status.Terminal() then Result(t, Fail(CannotCancel))
    else Result(CancelAll(t), Ok(None))
  }

  function RequestCancel(t: Task, at: nat): Result {
    if t.record.status.Terminal() || t.record.cancelRequestedAt.Some? then Result(t, Ok(None))
    else Result(Touch(t.(record := t.record.(cancelRequestedAt := Some(at)))), Ok(None))
  }

  function Strand(u: Unit): Unit { Released(u, Failed).(error := Or(u.error, "long_task_no_runnable_work")) }

  ghost function Finalize(t: Task, now: nat): Result {
    var stranded := First(t.units, RequiredOpen());
    if DeadlineElapsed(t, now) then ExpireDeadline(t)
    else if t.record.cancelRequestedAt.Some? then Result(CancelAll(t), Ok(None))
    else if !t.record.status.TaskRunning? then Result(t, Ok(None))
    else if AnyUnit(t.units, RequiredFailed()) then Result(SetStatus(t, TaskFailed), Ok(None))
    else if !AnyUnit(t.units, RequiredOpen()) then Result(SetStatus(t, TaskCompleted), Ok(None))
    else if HasRunnableWork(t.units, now) then Result(t, Ok(None))
    else if AnyUnit(t.units, RequiredBlocked()) then Result(SetStatus(t, TaskPaused), Ok(None))
    else if stranded == |t.units| then Result(t, Ok(None))
    else FailTask(t.(units := t.units[stranded := Strand(t.units[stranded])]), t.units[stranded].id)
  }

  function HoldsTime(wall: nat): Unit -> bool {
    (u: Unit) => u.status.Leased() && u.expires.Some? && u.expires.value > wall
  }

  /** Recovery after a restart; `wall` is the wall clock, not the store's clock. */
  ghost function Recover(t: Task, wall: nat, reason: string): Result {
    if !t.record.status.TaskRunning? || AnyUnit(t.units, HoldsTime(wall)) then Result(t, Ok(None))
    else if t.record.cancelRequestedAt.Some? then Result(CancelAll(t), Ok(None))
    else Result(ReleaseAll(t, reason), Ok(None))
  }

  // ----- claiming -----------------------------------------------------------

  function Exhausted(now: nat): Unit -> bool {
    (u: Unit) => u.status.Leased() && ExpiresAt(u) <= now && u.attempt >= u.maxAttempts
  }

  function ExhaustUnit(now: nat): Unit -> Unit {
    (u: Unit) =>
      if Exhausted(now)(u) then Released(u, Failed).(error := Some("lease_expired_attempts_exhausted")) else u
  }

  function ExhaustedRequired(now: nat): Unit -> bool { (u: Unit) => u.required && Exhausted(now)(u) }

  ghost predicate Eligible(units: seq<Unit>, now: nat, only: Option<string>, u: Unit) {
    && (only.Some? ==> u.id == only.value)
    && (u.status.Waiting() || (u.status.Leased() && ExpiresAt(u) <= now))
    && u.attempt < u.maxAttempts
    && DependenciesDone(units, u)
  }

  /** The eligible unit with the least position, the earliest one of several. */
  ghost predicate Chosen(units: seq<Unit>, now: nat, only: Option<string>, k: nat)
    requires k < |units|
  {
    && Eligible(units, now, only, units[k])
    && forall j :: 0 <= j < |units| && Eligible(units, now, only, units[j]) ==>
         units[k].position < units[j].position || (units[k].position == units[j].position && k <= j)
  }

  function Grant(u: Unit, now: nat, worker: string, duration: pos): Unit {
    u.(status := Claimed, attempt := u.attempt + 1, worker := Some(worker), epoch := u.epoch + 1,
       expires := Some(now + duration), settledBy := None, run := None)
  }

  /** Expired leases without attempts left fail first; a required one fails the task. */
  function Exhaust(t: Task, now: nat): Result {
    var failed := First(t.units, ExhaustedRequired(now));
    var swept := t.(units := Sweep(t.units, ExhaustUnit(now)));
    if First(t.units, Exhausted(now)) == |t.units| then Result(t, Ok(None))
    else if failed < |t.units| then FailTask(swept, t.units[failed].id)
    else Result(Touch(swept), Ok(None))
  }

  ghost function GrantNext(t: Task, now: nat, worker: string, duration: pos, only: Option<string>): Result {
    if Count(t.units, Live(now)) >= t.record.maxParallelism then Result(t, Ok(None))
    else if k: nat :| k < |t.units| && Chosen(t.units, now, only, k) then
      var claimed := Grant(t.units[k], now, worker, duration);
      Result(Touch(t.(units := t.units[k := claimed])), Ok(Some(claimed)))
    else Result(t, Ok(None))
  }

  ghost function Claim(t: Task, now: nat, worker: string, duration: pos, only: Option<string>): Result {
    var kind := BudgetExhaustion(t.record, false);
    if DeadlineElapsed(t, now) then ExpireDeadline(t)
    else if kind.Some? then FailBudget(t, kind.value)
    else if !t.record.status.TaskRunning? || t.record.cancelRequestedAt.Some? then Result(t, Ok(None))
    else
      var swept := Exhaust(t, now);
      if First(t.units, ExhaustedRequired(now)) < |t.units| then swept
      else GrantNext(swept.task, now, worker, duration, only)
  }

  // ----- working on a claimed unit ------------------------------------------

  predicate HoldsLease(t: Task, u: Unit, now: nat, worker: string, epoch: nat) {
    && t.record.status.TaskRunning? && u.status.Leased() && u.worker == Some(worker) && u.epoch == epoch
    && u.expires.Some? && u.expires.value > now
  }

  /** Why a worker may not touch a unit now, if it may not. */
  function Refused(t: Task, u: Unit, now: nat, worker: string, epoch: nat): Option<Result> {
    if DeadlineElapsed(t, now) then
      var expired := ExpireDeadline(t);
      Some(if expired.reply.Fail? then expired else expired.(reply := Fail(DeadlineExceeded)))
    else if !HoldsLease(t, u, now, worker, epoch) then Some(Result(t, Fail(LeaseLost)))
    else None
  }

  function UsesRun(id: string, run: string): Unit -> bool { (u: Unit) => u.id != id && u.run == Some(run) }

  function Put(t: Task, k: nat, u: Unit): Task
    requires k < |t.units|
  {
    t.(units := t.units[k := u])
  }

  function Stored(t: Task, k: nat, u: Unit): Result
    requires k < |t.units|
  {
    Result(Touch(Put(t, k, u)), Ok(Some(u)))
  }

  ghost function BindRun(t: Task, now: nat, k: nat, worker: string, epoch: nat, run: string): Result
    requires k < |t.units|
  {
    var u := t.units[k];
    var refused := Refused(t, u, now, worker, epoch);
    if refused.Some? then refused.value
    else if u.run.Some? then Result(t, if u.run.value != run then Fail(RunConflict) else Ok(Some(u)))
    else if AnyUnit(t.units, UsesRun(u.id, run)) then Result(t, Fail(RunConflict))
    else Stored(t, k, u.(status := Running, run := Some(run)))
  }

  function Renew(t: Task, now: nat, k: nat, worker: string, epoch: nat, duration: pos): Result
    requires k < |t.units|
  {
    var refused := Refused(t, t.units[k], now, worker, epoch);
    if refused.Some? then refused.value else Stored(t, k, t.units[k].(expires := Some(now + duration)))
  }

  function Progress(t: Task, now: nat, k: nat, worker: string, epoch: nat, metadata: map<string, string>): Result
    requires k < |t.units|
  {
    var refused := Refused(t, t.units[k], now, worker, epoch);
    if refused.Some? then refused.value else Stored(t, k, t.units[k].(metadata := t.units[k].metadata + metadata))
  }

  predicate Matches(u: Unit, output: Output) {
    && u.output == Some(output.ref) && (output.run.None? || u.run == output.run)
    && u.digest == output.digest && u.receipt == output.receipt
  }

  function Done(u: Unit, worker: string, output: Output): Unit {
    Released(u, Completed).(settledBy := Some(worker), run := if output.run.Some? then output.run else u.run,
      output := Some(output.ref), digest := output.digest, receipt := output.receipt, disposition := None,
      error := None, metadata := u.metadata + output.metadata)
  }

  ghost function Complete(t: Task, now: nat, k: nat, worker: string, epoch: nat, output: Output): Result
    requires k < |t.units|
  {
    var u := t.units[k];
    var refused := Refused(t, u, now, worker, epoch);
    var done := Done(u, worker, output);
    if u.status.Completed? then
      Result(t, if u.epoch == epoch && u.settledBy == Some(worker) && Matches(u, output) then Ok(None) else Fail(LeaseLost))
    else if refused.Some? then refused.value
    else if u.run.Some? && output.run.Some? && output.run != u.run then Result(t, Fail(RunConflict))
    else if done.run.Some? && AnyUnit(t.units, UsesRun(u.id, done.run.value)) then Result(t, Fail(RunConflict))
    else Refresh(Put(t, k, done), t.record.status)
  }

  function Target(disposition: Disposition): UnitStatus {
    match disposition
    case RetryAttempt => WaitingRetry
    case ResumeCheckpoint => WaitingRetry
    case PauseRecoverable => Blocked
    case SplitPart => NeedsSplit
    case CancelTask => Canceled
    case FailPermanent => Failed
  }

  function Settled(u: Unit, decision: Decision): Unit {
    Released(u, Target(decision.disposition)).(error := Some(decision.code), disposition := Some(decision.disposition),
      maxAttempts := if decision.disposition.ResumeCheckpoint? && u.attempt >= u.maxAttempts then u.maxAttempts + 1
                     else u.maxAttempts)
  }

  ghost function SettleFailure(t: Task, now: nat, k: nat, worker: string, epoch: nat, decision: Decision): Result
    requires k < |t.units|
  {
    var refused := Refused(t, t.units[k], now, worker, epoch);
    var put := Put(t, k, Settled(t.units[k], decision));
    var target := Target(decision.disposition);
    if refused.Some? then refused.value
    else if target.Canceled? then Result(CancelAll(put), Ok(None))
    else if target.Failed? then FailTask(put, t.units[k].id)
    else if target.Blocked? && (decision.systemic || !HasRunnableWork(put.units, now))
    then Result(ReleaseAll(put, decision.code), Ok(None))
    else Result(Touch(put), Ok(None))
  }

  function Interrupt(t: Task, now: nat, k: nat, worker: string, epoch: nat, reason: string): Result
    requires k < |t.units|
  {
    var refused := Refused(t, t.units[k], now, worker, epoch);
    var u := t.units[k];
    if refused.Some? then refused.value
    else
      Result(SetStatus(Put(t, k, Released(u, Pending).(maxAttempts := u.maxAttempts + 1, error := Some(reason))), TaskPaused),
             Ok(None))
  }

  // ----- splitting a unit ---------------------------------------------------

  function NewUnit(spec: Spec): Unit {
    Unit(spec.id, spec.position, spec.key, spec.dependencies, spec.parent, spec.required, Pending, 0, spec.maxAttempts,
         None, 0, None, None, None, None, None, "", None, None, spec.metadata)
  }

  /** What the constructors of a split and of its children check (long_tasks/contracts.py). */
  ghost predicate ValidSplit(split: Split) {
    && (forall i, j :: 0 <= i < j < |split.children| ==>
          split.children[i].id != split.children[j].id && split.children[i].key != split.children[j].key)
    && (forall r :: r in split.replacements ==> exists c :: c in split.children && c.id == r)
  }

  function ChildDependencies(parent: Unit, child: Spec): seq<string> { Dedupe(parent.dependencies + child.dependencies) }

  function ChildUnit(parent: Unit, child: Spec): Unit {
    NewUnit(child.(dependencies := ChildDependencies(parent, child),
                   parent := if child.parent.Some? then child.parent else Some(parent.id)))
  }

  function ChildUnits(parent: Unit, children: seq<Spec>): seq<Unit> {
    seq(|children|, i requires 0 <= i < |children| => ChildUnit(parent, children[i]))
  }

  /** The dependencies with the parent replaced by the split's replacements. */
  function Replaced(dependencies: seq<string>, parent: string, replacements: seq<string>): seq<string> {
    if dependencies == [] then []
    else (if dependencies[0] == parent then replacements else [dependencies[0]])
         + Replaced(dependencies[1..], parent, replacements)
  }

  function Rewire(parent: string, replacements: seq<string>): Unit -> Unit {
    (u: Unit) =>
      if u.id != parent && parent in u.dependencies
      then u.(dependencies := Dedupe(Replaced(u.dependencies, parent, replacements)))
      else u
  }

  function WaitsFor(parent: string): Unit -> bool { (u: Unit) => u.id != parent && parent in u.dependencies }

  function Mentions(parent: string): Unit -> bool { (u: Unit) => parent in u.dependencies }

  function KnownDependencies(units: seq<Unit>): seq<seq<string>> {
    seq(|units|, i requires 0 <= i < |units| => Known(units[i].dependencies, UnitIds(units)))
  }

  function Known(ids: seq<string>, known: seq<string>): seq<string> {
    if ids == [] then [] else (if ids[0] in known then [ids[0]] else []) + Known(ids[1..], known)
  }

  /** No dependency cycle; a dependency on an unknown unit is not an edge. */
  ghost predicate Acyclic(units: seq<Unit>) {
    DependencyGraph.WellFormed(UnitIds(units), KnownDependencies(units))
  }

  predicate ChildClashes(units: seq<Unit>, children: seq<Spec>) {
    exists u, c :: u in units && c in children && (u.id == c.id || u.key == c.key || u.position == c.position)
  }

  function Expansion(parent: Unit, worker: string, decision: Decision): Unit {
    Released(parent, Expanded).(required := false, settledBy := Some(worker), error := Some(decision.code),
      disposition := Some(decision.disposition))
  }

  /** All units with the children appended and the rest of the task waiting for them. */
  function Prospect(units: seq<Unit>, parent: Unit, split: Split): seq<Unit> {
    Sweep(units + ChildUnits(parent, split.children), Rewire(parent.id, split.replacements))
  }

  ghost function Expand(t: Task, now: nat, k: nat, worker: string, epoch: nat, split: Split, decision: Decision): Result
    requires k < |t.units|
  {
    var parent := t.units[k];
    var refused := Refused(t, parent, now, worker, epoch);
    var prospect := Prospect(t.units, parent, split);
    if parent.status.Expanded? then
      Result(t, if parent.epoch == epoch && parent.settledBy == Some(worker) then Ok(None) else Fail(LeaseLost))
    else if refused.Some? then refused.value
    else if ChildClashes(t.units, split.children) then Result(t, Fail(ChildConflict))
    else if AnyUnit(ChildUnits(parent, split.children), Mentions(parent.id)) then Result(t, Fail(DependsOnParent))
    else if AnyUnit(t.units, WaitsFor(parent.id)) && split.replacements == [] then Result(t, Fail(NoReplacement))
    else if !Acyclic(prospect) then Result(t, Fail(DependencyCycle))
    else Refresh(t.(units := prospect[k := Expansion(parent, worker, decision)]), t.record.status)
  }

  // ----- all steps ----------------------------------------------------------

  datatype Op =
    | DoStart(expected: nat)
    | DoExpire
    | DoPause(expectedRevision: Option<nat>, why: string)
    | DoResume(extra: nat)
    | DoCancel
    | DoRequestCancel(at: Option<nat>)
    | DoFinalize
    | DoRecover(wall: nat, why: string)
    | DoRecordUsage(run: string, usage: Usage, expected: nat)
    | DoClaim(worker: string, duration: pos, only: Option<string>)
    | OnUnit(id: string, worker: string, epoch: nat, act: UnitOp)

  datatype UnitOp =
    | Bind(run: string)
    | RenewLease(duration: pos)
    | Report(metadata: map<string, string>)
    | CompleteWith(output: Output)
    | SettleWith(decision: Decision)
    | ExpandInto(split: Split, decision: Decision)
    | InterruptFor(reason: string)

  /** What the constructors of the arguments guarantee. */
  ghost predicate Admissible(op: Op) {
    op.OnUnit? && op.act.ExpandInto? ==> ValidSplit(op.act.split)
  }

  ghost function UnitStep(t: Task, now: nat, k: nat, worker: string, epoch: nat, act: UnitOp): Result
    requires k < |t.units|
  {
    match act
    case Bind(run) => BindRun(t, now, k, worker, epoch, run)
    case RenewLease(duration) => Renew(t, now, k, worker, epoch, duration)
    case Report(metadata) => Progress(t, now, k, worker, epoch, metadata)
    case CompleteWith(output) => Complete(t, now, k, worker, epoch, output)
    case SettleWith(decision) => SettleFailure(t, now, k, worker, epoch, decision)
    case ExpandInto(split, decision) => Expand(t, now, k, worker, epoch, split, decision)
    case InterruptFor(reason) => Interrupt(t, now, k, worker, epoch, reason)
  }

  ghost function Step(t: Task, now: nat, op: Op): Result {
    match op
    case DoStart(expected) => Start(t, now, expected)
    case DoExpire => Expire(t, now)
    case DoPause(expected, why) => Pause(t, expected, why)
    case DoResume(extra) => Resume(t, extra)
    case DoCancel => Cancel(t)
    case DoRequestCancel(at) => RequestCancel(t, if at.Some? then at.value else now)
    case DoFinalize => Finalize(t, now)
    case DoRecover(wall, why) => Recover(t, wall, why)
    case DoRecordUsage(run, usage, expected) => RecordUsage(t, run, usage, expected)
    case DoClaim(worker, duration, only) => Claim(t, now, worker, duration, only)
    case OnUnit(id, worker, epoch, act) =>
      if act.ExpandInto? && !act.decision.disposition.SplitPart? then Result(t, Fail(NotASplit))
      else if act.ExpandInto? && act.split.children == [] then Result(t, Fail(NoChildren))
      else if Find(t.units, id) == |t.units| then Result(t, Fail(UnitMissing))
      else UnitStep(t, now, Find(t.units, id), worker, epoch, act)
  }

  // ----- creating a task ----------------------------------------------------

  datatype CreateCommand = CreateCommand(
    units: seq<Spec>, maxParallelism: pos, deadline: Option<nat>, limits: Limits, pauseOnBudget: bool)

  function NewUnits(specs: seq<Spec>): seq<Unit> {
    seq(|specs|, i requires 0 <= i < |specs| => NewUnit(specs[i]))
  }

  /** What the constructor of a create command checks. */
  ghost predicate ValidCommand(c: CreateCommand) {
    var units := NewUnits(c.units);
    && (exists k :: 0 <= k < |units| && units[k].required)
    && Distinct(UnitIds(units)) && Distinct(Keys(units))
    && (forall u, d :: u in units && d in u.dependencies ==> d in UnitIds(units))
    && Acyclic(units)
  }

  ghost function Created(c: CreateCommand): Task
    requires Count(NewUnits(c.units), Required()) > 0
  {
    var units := NewUnits(c.units);
    Task(Record(TaskPending, 1, Count(units, Required()), 0, 0, c.maxParallelism, c.deadline, c.limits,
                c.pauseOnBudget, None, NO_USAGE), units, [])
  }
}
