/** What each step of a long task does, told unit by unit. */
module LongTaskEffects {
  import opened Prelude
  import opened LongTask
  import opened LongTaskInvariant
  import opened LongTaskSteps

  // ----- how all units may be stopped at once -------------------------------

  /** The unit is over or set back; it keeps everything else but its lease. */
  predicate StoppedAs(u: Unit, v: Unit, status: UnitStatus) {
    v == u.(status := status, worker := None, expires := None, maxAttempts := v.maxAttempts, error := v.error,
            disposition := v.disposition, metadata := v.metadata)
  }

  predicate KeepsPlan(u: Unit, v: Unit) {
    v.maxAttempts == u.maxAttempts && v.disposition == u.disposition && v.metadata == u.metadata
  }

  /** The unit's error, or this code if it has none. */
  predicate ErrorIs(u: Unit, v: Unit, code: string) {
    v.error == if u.error.Some? && u.error.value != "" then u.error else Some(code)
  }

  /** The task has ended with this status; its limits and its usage stand. */
  predicate RecordEnds(t: Task, s: Task, status: TaskStatus) {
    && s.record.status == status && s.usages == t.usages && s.record.usage == t.record.usage
    && s.record.limits == t.record.limits && s.record.deadline == t.record.deadline
    && s.record.maxParallelism == t.record.maxParallelism && s.record.cancelRequestedAt == t.record.cancelRequestedAt
    && s.record.pauseOnBudget == t.record.pauseOnBudget
  }

  /** Past its deadline the task fails, and so does every unit that was not settled. */
  ghost predicate EndsByDeadline(t: Task, s: Task) {
    && RecordEnds(t, s, TaskFailed) && |s.units| == |t.units|
    && forall k :: 0 <= k < |t.units| ==>
         var (u, v) := (t.units[k], s.units[k]);
         if u.status.Completed? || u.status.Expanded? || u.status.Failed? || u.status.Canceled? then v == u
         else StoppedAs(u, v, Failed) && KeepsPlan(u, v) && v.error == Some("long_task_deadline_exceeded")
  }

  ghost predicate EndsCanceled(t: Task, s: Task) {
    && RecordEnds(t, s, TaskCanceled) && |s.units| == |t.units|
    && forall k :: 0 <= k < |t.units| ==>
         var (u, v) := (t.units[k], s.units[k]);
         if u.status.Completed? || u.status.Expanded? || u.status.Failed? || u.status.Canceled? then v == u
         else StoppedAs(u, v, Canceled) && KeepsPlan(u, v) && v.error == u.error
  }

  /** The task waits to be resumed; who worked on a unit gives it back, with the attempt. */
  ghost predicate EndsPaused(t: Task, s: Task, reason: string) {
    && RecordEnds(t, s, TaskPaused) && |s.units| == |t.units|
    && forall k :: 0 <= k < |t.units| ==>
         var (u, v) := (t.units[k], s.units[k]);
         if !u.status.Claimed? && !u.status.Running? then v == u
         else
           && StoppedAs(u, v, Pending) && v.error == Some(reason) && v.maxAttempts == u.maxAttempts + 1
           && v.disposition == u.disposition && v.metadata == u.metadata
  }

  /** The task fails for one unit; the others that were not settled are canceled. */
  ghost predicate EndsFailed(t: Task, s: Task, id: string) {
    && RecordEnds(t, s, TaskFailed) && |s.units| == |t.units|
    && forall k :: 0 <= k < |t.units| ==>
         var (u, v) := (t.units[k], s.units[k]);
         if u.id == id || u.status.Completed? || u.status.Expanded? || u.status.Failed? || u.status.Canceled? then v == u
         else StoppedAs(u, v, Canceled) && KeepsPlan(u, v) && ErrorIs(u, v, "task_failed_dependency")
  }

  /** Out of budget, what was not settled is blocked and the task paused, or both fail. */
  ghost predicate EndsByBudget(t: Task, s: Task, kind: string) {
    && RecordEnds(t, s, if t.record.pauseOnBudget then TaskPaused else TaskFailed) && |s.units| == |t.units|
    && forall k :: 0 <= k < |t.units| ==>
         var (u, v) := (t.units[k], s.units[k]);
         if u.status.Completed? || u.status.Expanded? || u.status.Failed? || u.status.Canceled? then v == u
         else
           && StoppedAs(u, v, if t.record.pauseOnBudget then Blocked else Failed)
           && v.error == Some("runtime_budget_exceeded") && v.metadata == u.metadata["budgetKind" := kind]
           && v.maxAttempts == u.maxAttempts
           && v.disposition == (if t.record.pauseOnBudget then Some(PauseRecoverable) else u.disposition)
  }

  lemma SweptRequired(t: Task, f: Unit -> Unit)
    requires HasRequired(t.units) && forall u :: f(u).required == u.required
    ensures HasRequired(Sweep(t.units, f))
  {
    CountsAgree(t.units, Sweep(t.units, f), Required());
  }

  /** Recounting does not touch what an ending is told by. */
  lemma Refreshed(t: Task, s: Task, status: TaskStatus)
    requires HasRequired(s.units) && s.record == t.record && s.usages == t.usages
    ensures var r := Refresh(s, status); r.reply == Ok(None) && r.task.units == s.units && RecordEnds(t, r.task, status)
  {
    hide Count;
  }

  lemma DeadlineEnds(t: Task)
    requires HasRequired(t.units)
    ensures ExpireDeadline(t).reply == Ok(None) && EndsByDeadline(t, ExpireDeadline(t).task)
  {
    SweptRequired(t, ExpireUnit());
    hide Refresh, HasRequired, RecordEnds;
    Refreshed(t, t.(units := Sweep(t.units, ExpireUnit())), TaskFailed);
  }

  lemma BudgetEnds(t: Task, kind: string)
    requires HasRequired(t.units)
    ensures FailBudget(t, kind).reply == Ok(None) && EndsByBudget(t, FailBudget(t, kind).task, kind)
  {
    SweptRequired(t, BudgetUnit(t.record.pauseOnBudget, kind));
    hide Refresh, HasRequired, RecordEnds;
    Refreshed(t, t.(units := Sweep(t.units, BudgetUnit(t.record.pauseOnBudget, kind))),
              if t.record.pauseOnBudget then TaskPaused else TaskFailed);
  }

  lemma FailureEnds(t: Task, id: string)
    requires HasRequired(t.units)
    ensures FailTask(t, id).reply == Ok(None) && EndsFailed(t, FailTask(t, id).task, id)
  {
    SweptRequired(t, CancelUnless(id));
    hide Refresh, HasRequired, RecordEnds;
    Refreshed(t, t.(units := Sweep(t.units, CancelUnless(id))), TaskFailed);
  }

  lemma CancelingEnds(t: Task)
    ensures EndsCanceled(t, CancelAll(t))
  {
  }

  lemma ReleasingEnds(t: Task, reason: string)
    ensures EndsPaused(t, ReleaseAll(t, reason), reason)
  {
  }

  // ----- the task as a whole ------------------------------------------------

  predicate PastDeadline(t: Task, now: nat) { t.record.deadline.Some? && t.record.deadline.value <= now }

  /** Nothing differs but the status and, if that differs, the revision. */
  ghost predicate OnlyStatus(t: Task, s: Task, status: TaskStatus) {
    s == t.(record := t.record.(status := status, revision := s.record.revision))
  }

  /** A pending task starts, unless its deadline has passed or its cancellation was requested. */
  lemma StartStarts(t: Task, now: nat, expected: nat)
    requires HasRequired(t.units)
    ensures var r := Start(t, now, expected);
      if PastDeadline(t, now) then r.reply.Ok? && EndsByDeadline(t, r.task)
      else if t.record.cancelRequestedAt.Some? then r.reply.Ok? && EndsCanceled(t, r.task)
      else if t.record.status.TaskPending? && t.record.revision == expected
      then r.reply.Ok? && OnlyStatus(t, r.task, TaskRunning)
      else r.task == t && (r.reply.Ok? <==> t.record.status.TaskRunning?)
  {
    hide EndsByDeadline, EndsCanceled, ExpireDeadline, CancelAll, HasRequired;
    DeadlineEnds(t);
    CancelingEnds(t);
  }

  /** A task ends by its deadline exactly when that has passed and the task was not over. */
  lemma ExpiryEnds(t: Task, now: nat)
    requires HasRequired(t.units)
    ensures var r := Expire(t, now);
      if !t.record.status.Terminal() && PastDeadline(t, now) then r.reply.Ok? && EndsByDeadline(t, r.task)
      else r.task == t && (r.reply.Ok? <==> t.record.status.Terminal())
  {
    hide EndsByDeadline, ExpireDeadline, HasRequired;
    DeadlineEnds(t);
  }

  /** A pending or running task pauses, whoever works on it giving back its unit; a paused one stays so. */
  lemma PauseStops(t: Task, expected: Option<nat>, why: string)
    ensures var r := Pause(t, expected, why);
      if (expected.Some? ==> t.record.revision == expected.value) && (t.record.status.TaskPending? || t.record.status.TaskRunning?)
      then r.reply.Ok? && EndsPaused(t, r.task, if why == "" then "execution_paused" else why)
      else
        && r.task == t
        && (r.reply.Ok? <==> t.record.status.TaskPaused? && (expected.Some? ==> t.record.revision == expected.value))
  {
    hide EndsPaused, ReleaseAll;
    ReleasingEnds(t, if why == "" then "execution_paused" else why);
  }

  /** A cancellation cancels what is not over; only a completed or failed task refuses it. */
  lemma CancelStops(t: Task)
    ensures var r := Cancel(t);
      if t.record.status.Terminal() then r.task == t && (r.reply.Ok? <==> t.record.status.TaskCanceled?)
      else r.reply.Ok? && EndsCanceled(t, r.task)
  {
    hide EndsCanceled, CancelAll;
    CancelingEnds(t);
  }

  /** The first request is remembered with its time; it takes effect at a later step. */
  lemma RequestIsRemembered(t: Task, at: nat)
    ensures var r := RequestCancel(t, at);
      && r.reply.Ok?
      && if t.record.status.Terminal() || t.record.cancelRequestedAt.Some? then r.task == t
         else r.task == t.(record := t.record.(cancelRequestedAt := Some(at), revision := t.record.revision + 1))
  {
  }

  /** After a restart a running task that nobody still works on is paused, or canceled if that was requested. */
  lemma RecoveryStops(t: Task, wall: nat, why: string)
    ensures var r := Recover(t, wall, why);
      && r.reply.Ok?
      && if !t.record.status.TaskRunning?
            || exists k :: 0 <= k < |t.units| && (t.units[k].status.Claimed? || t.units[k].status.Running?)
                           && t.units[k].expires.Some? && t.units[k].expires.value > wall
         then r.task == t
         else if t.record.cancelRequestedAt.Some? then EndsCanceled(t, r.task)
         else EndsPaused(t, r.task, why)
  {
    hide EndsPaused, EndsCanceled, ReleaseAll, CancelAll;
    CancelingEnds(t);
    ReleasingEnds(t, why);
  }

  // ----- finalization -------------------------------------------------------

  ghost predicate Completed(units: seq<Unit>, id: string) {
    exists j :: 0 <= j < |units| && units[j].id == id && units[j].status.Completed?
  }

  /** Somebody works on the unit, or somebody could begin to. */
  ghost predicate CanProceed(units: seq<Unit>, now: nat, k: nat)
    requires k < |units|
  {
    var u := units[k];
    || ((u.status.Claimed? || u.status.Running?) && u.expires.Some? && u.expires.value > now)
    || ((u.status.Pending? || u.status.WaitingRetry?) && u.attempt < u.maxAttempts
        && forall d :: d in u.dependencies ==> Completed(units, d))
  }

  ghost predicate SomethingCanProceed(units: seq<Unit>, now: nat) {
    exists k :: 0 <= k < |units| && CanProceed(units, now, k)
  }

  ghost predicate SomeRequired(units: seq<Unit>, status: UnitStatus) {
    exists k :: 0 <= k < |units| && units[k].required && units[k].status == status
  }

  ghost predicate AllRequiredCompleted(units: seq<Unit>) {
    forall k :: 0 <= k < |units| && units[k].required ==> units[k].status.Completed?
  }

  lemma RunnableIs(units: seq<Unit>, now: nat)
    ensures HasRunnableWork(units, now) <==> SomethingCanProceed(units, now)
  {
    forall k | 0 <= k < |units|
      ensures CanProceed(units, now, k) <==>
        (Live(now)(units[k]) ||
         (units[k].status.Waiting() && units[k].attempt < units[k].maxAttempts && DependenciesDone(units, units[k])))
    {
      assert forall d :: DoneIn(units, d) <==> Completed(units, d);
    }
    if HasRunnableWork(units, now) {
      var k :| 0 <= k < |units| &&
        (Live(now)(units[k]) ||
         (units[k].status.Waiting() && units[k].attempt < units[k].maxAttempts && DependenciesDone(units, units[k])));
      assert CanProceed(units, now, k);
    }
  }

  /** Nothing required is left that could go on: the first open unit fails, and with it the task. */
  ghost predicate EndsStranded(t: Task, s: Task) {
    exists k :: 0 <= k < |t.units| && StrandedAt(t, s, k)
  }

  ghost predicate StrandedAt(t: Task, s: Task, k: nat)
    requires k < |t.units|
  {
    var u := t.units[k];
    && u.required && !u.status.Completed? && (forall j :: 0 <= j < k && t.units[j].required ==> t.units[j].status.Completed?)
    && |s.units| == |t.units| && StoppedAs(u, s.units[k], Failed) && KeepsPlan(u, s.units[k])
    && ErrorIs(u, s.units[k], "long_task_no_runnable_work")
    && EndsFailed(t.(units := t.units[k := s.units[k]]), s, u.id)
  }

  lemma StrandingEnds(t: Task, k: nat)
    requires k == First(t.units, RequiredOpen()) < |t.units|
    ensures var r := FailTask(t.(units := t.units[k := Strand(t.units[k])]), t.units[k].id);
      r.reply == Ok(None) && EndsStranded(t, r.task) && r.task.record.status.TaskFailed?
  {
    var s := t.(units := t.units[k := Strand(t.units[k])]);
    assert Required()(s.units[k]);
    CountIsZero(s.units, Required());
    FailureEnds(s, t.units[k].id);
    var r := FailTask(s, t.units[k].id).task;
    hide FailTask, HasRequired;
    assert r.units[k] == s.units[k];
    assert StrandedAt(t, r, k);
  }

  /** The units' tests, in the words above. */
  lemma UnitTests(units: seq<Unit>)
    ensures AnyUnit(units, RequiredFailed()) <==> SomeRequired(units, Failed)
    ensures AnyUnit(units, RequiredBlocked()) <==> SomeRequired(units, Blocked)
    ensures AnyUnit(units, RequiredOpen()) <==> !AllRequiredCompleted(units)
    ensures First(units, RequiredOpen()) == |units| <==> AllRequiredCompleted(units)
  {
    if k :| 0 <= k < |units| && units[k].required && units[k].status == Failed { assert RequiredFailed()(units[k]); }
    if k :| 0 <= k < |units| && units[k].required && units[k].status == Blocked { assert RequiredBlocked()(units[k]); }
    if k :| 0 <= k < |units| && units[k].required && !units[k].status.Completed? { assert RequiredOpen()(units[k]); }
    assert forall k :: 0 <= k < |units| && RequiredOpen()(units[k]) ==> units[k].required && !units[k].status.Completed?;
  }

  /** The task has failed for one of its required units, or for want of work. */
  ghost predicate MustFail(t: Task, now: nat) {
    || SomeRequired(t.units, Failed)
    || (!AllRequiredCompleted(t.units) && !SomeRequired(t.units, Blocked) && !SomethingCanProceed(t.units, now))
  }

  ghost predicate MustPause(t: Task, now: nat) {
    SomeRequired(t.units, Blocked) && !SomeRequired(t.units, Failed) && !SomethingCanProceed(t.units, now)
  }

  /** How a finalization ends a running task, exactly by what its units say; otherwise it leaves the task alone. */
  lemma FinalizationOutcome(t: Task, now: nat)
    requires t.record.status.TaskRunning? && !PastDeadline(t, now) && t.record.cancelRequestedAt.None?
    ensures var r := Finalize(t, now);
      && r.reply == Ok(None)
      && (r.task.record.status.TaskFailed? <==> MustFail(t, now))
      && (r.task.record.status.TaskCompleted? <==> AllRequiredCompleted(t.units))
      && (r.task.record.status.TaskPaused? <==> MustPause(t, now))
      && (!MustFail(t, now) && !AllRequiredCompleted(t.units) && !MustPause(t, now) ==> r.task == t)
      && (MustFail(t, now) && !SomeRequired(t.units, Failed) ==> EndsStranded(t, r.task))
      && (!MustFail(t, now) || SomeRequired(t.units, Failed) ==> OnlyStatus(t, r.task, r.task.record.status))
  {
    hide HasRunnableWork, AnyUnit, SomethingCanProceed, FailTask, EndsStranded, CanProceed, Strand;
    UnitTests(t.units);
    RunnableIs(t.units, now);
    var k := First(t.units, RequiredOpen());
    if k < |t.units| { StrandingEnds(t, k); }
  }

  /** In every other state a finalization ends the task by its deadline or its cancellation, or leaves it alone. */
  lemma FinalizationElsewhere(t: Task, now: nat)
    requires HasRequired(t.units)
    requires !t.record.status.TaskRunning? || PastDeadline(t, now) || t.record.cancelRequestedAt.Some?
    ensures var r := Finalize(t, now);
      && r.reply.Ok?
      && if PastDeadline(t, now) then EndsByDeadline(t, r.task)
         else if t.record.cancelRequestedAt.Some? then EndsCanceled(t, r.task)
         else r.task == t
  {
    hide EndsByDeadline, EndsCanceled, ExpireDeadline, CancelAll, HasRequired, FailTask, HasRunnableWork, AnyUnit;
    DeadlineEnds(t);
    CancelingEnds(t);
  }

  // ----- resuming and usage -------------------------------------------------

  predicate Resumable(u: Unit) { u.status.Blocked? || u.status.Failed? || u.status.Canceled? }

  /** Units that stopped wait again, with more attempts; the others stand. */
  ghost predicate Revives(t: Task, s: Task, extra: nat) {
    && s.record == t.record.(status := TaskRunning, failed := 0, revision := s.record.revision)
    && s.usages == t.usages && |s.units| == |t.units|
    && forall k :: 0 <= k < |t.units| ==>
         if Resumable(t.units[k])
         then s.units[k] == t.units[k].(status := Pending, worker := None, expires := None, maxAttempts := t.units[k].maxAttempts + extra)
         else s.units[k] == t.units[k]
  }

  ghost predicate SomeUnit(units: seq<Unit>, status: UnitStatus) { exists k :: 0 <= k < |units| && units[k].status == status }

  /** How many attempts a resume adds to each stopped unit: what was asked, but one if nothing was and all are blocked. */
  ghost function Added(units: seq<Unit>, asked: nat): nat {
    if asked == 0 && SomeUnit(units, Blocked) && !SomeUnit(units, Failed) && !SomeUnit(units, Canceled) then 1 else asked
  }

  lemma ResumableNext(init: seq<Unit>, last: Unit)
    ensures (exists k :: 0 <= k < |init + [last]| && Resumable((init + [last])[k])) <==>
      Resumable(last) || exists k :: 0 <= k < |init| && Resumable(init[k])
  {
    var units := init + [last];
    if k :| 0 <= k < |units| && Resumable(units[k]) { assert k < |init| ==> units[k] == init[k]; }
    if k :| 0 <= k < |init| && Resumable(init[k]) { assert Resumable(units[k]); }
    assert Resumable(last) ==> Resumable(units[|init|]);
  }

  lemma {:induction false} CountsSome(units: seq<Unit>)
    ensures Count(units, IsRecoverable()) > 0 <==> exists k :: 0 <= k < |units| && Resumable(units[k])
    ensures Count(units, IsBlocked()) > 0 <==> SomeUnit(units, Blocked)
    ensures Count(units, IsBlocked()) == Count(units, IsRecoverable()) <==> !SomeUnit(units, Failed) && !SomeUnit(units, Canceled)
    decreases |units|
  {
    hide SomeUnit;
    if units != [] {
      var (init, last) := (units[..|units| - 1], units[|units| - 1]);
      CountsSome(init);
      BlockedAreRecoverable(init);
      assert units == init + [last];
      SomeNext(init, last, Blocked);
      SomeNext(init, last, Failed);
      SomeNext(init, last, Canceled);
      ResumableNext(init, last);
    } else {
      NoUnit();
    }
  }

  lemma NoUnit()
    ensures forall status :: !SomeUnit([], status)
  {
  }

  lemma {:induction false} BlockedAreRecoverable(units: seq<Unit>)
    ensures Count(units, IsBlocked()) <= Count(units, IsRecoverable())
    decreases |units|
  {
    if units != [] { BlockedAreRecoverable(units[..|units| - 1]); }
  }

  lemma SomeNext(init: seq<Unit>, last: Unit, status: UnitStatus)
    ensures SomeUnit(init + [last], status) <==> SomeUnit(init, status) || last.status == status
  {
    var units := init + [last];
    if k :| 0 <= k < |init| && init[k].status == status { assert units[k].status == status; }
    if last.status == status { assert units[|init|].status == status; }
  }

  lemma AddedIs(units: seq<Unit>, asked: nat)
    ensures GrantedAttempts(units, asked) == Added(units, asked)
    ensures Count(units, IsRecoverable()) > 0 <==> exists k :: 0 <= k < |units| && Resumable(units[k])
  {
    hide Count;
    CountsSome(units);
  }

  lemma RevivedIs(t: Task, extra: nat)
    requires !t.record.status.TaskRunning?
    ensures Revives(t, SetStatus(t.(units := Sweep(t.units, ReviveUnit(extra)), record := t.record.(failed := 0)), TaskRunning), extra)
  {
  }

  /** A paused or failed task is resumed exactly if attempts are given to those that stopped, and to nobody else. */
  lemma ResumeRevives(t: Task, asked: nat)
    ensures var (r, some) := (Resume(t, asked), exists k :: 0 <= k < |t.units| && Resumable(t.units[k]));
      if t.record.status.TaskRunning? then r == Result(t, Ok(None))
      else if (t.record.status.TaskPaused? || t.record.status.TaskFailed?) && (some <==> Added(t.units, asked) > 0)
      then r.reply == Ok(None) && Revives(t, r.task, Added(t.units, asked))
      else r.reply.Fail? && r.task == t
  {
    hide Count, Added, GrantedAttempts, Revives, Sweep, SetStatus, Resumable;
    AddedIs(t.units, asked);
    if !t.record.status.TaskRunning? { RevivedIs(t, Added(t.units, asked)); }
  }

  /** A Run's first report is counted into the totals; only if they then pass a limit the task stops. */
  lemma UsageCounts(t: Task, run: string, usage: Usage, expected: nat)
    requires HasRequired(t.units)
    requires forall k :: 0 <= k < |t.usages| ==> t.usages[k].0 != run
    ensures var r := RecordUsage(t, run, usage, expected);
      if t.record.revision != expected then r == Result(t, Fail(RevisionConflict))
      else
        && r.reply.Ok? && r.task.usages == t.usages + [(run, usage)]
        && r.task.record.usage == Aggregate(t.usages + [(run, usage)])
        && var counted := t.(usages := r.task.usages, record := t.record.(usage := r.task.record.usage));
           var over := BudgetExhaustion(counted.record, true);
           if over.Some? then EndsByBudget(counted, r.task, over.value)
           else r.task == counted.(record := counted.record.(revision := r.task.record.revision))
  {
    NoUsageOf(t.usages, run);
    hide EndsByBudget, FailBudget, BudgetExhaustion, Aggregate, HasRequired;
    var usages := t.usages + [(run, usage)];
    var counted := t.(usages := usages, record := t.record.(usage := Aggregate(usages)));
    var over := BudgetExhaustion(counted.record, true);
    if over.Some? { BudgetEnds(counted, over.value); BudgetKeepsUsages(counted, over.value); }
  }

  /** More was used than allowed; when something is still to begin, as much as allowed is enough. */
  predicate Spent(used: nat, limit: Option<nat>, beginning: bool) {
    limit.Some? && (limit.value < used || (beginning && limit.value == used))
  }

  /** Which limit stops a task: unknown usage first, then the limits in their order. */
  lemma BudgetStopsExactly(record: Record, beginning: bool)
    ensures var (used, limits, kind) := (record.usage, record.limits, BudgetExhaustion(record, !beginning));
      var tokens := limits.input.Some? || limits.generation.Some? || limits.reasoning.Some?;
      && (kind == Some("provider_usage_unreported") <==> used.unreported > 0 && tokens)
      && (used.unreported == 0 || !tokens ==>
            kind == (if limits.reasoning.Some? && used.reasoning.None? then Some("reasoning_tokens_unreported")
                     else if Spent(used.invocations, limits.invocations, beginning) then Some("model_attempts")
                     else if Spent(used.input, limits.input, beginning) then Some("input_tokens")
                     else if Spent(used.generation, limits.generation, beginning) then Some("generation_tokens")
                     else if used.reasoning.Some? && Spent(used.reasoning.value, limits.reasoning, beginning)
                     then Some("reasoning_tokens")
                     else None))
  {
    assert "provider_usage_unreported"[0] == 'p' && "reasoning_tokens_unreported"[0] == 'r' && "model_attempts"[0] == 'm'
      && "input_tokens"[0] == 'i' && "generation_tokens"[0] == 'g' && "reasoning_tokens"[0] == 'r';
  }

  lemma BudgetKeepsUsages(t: Task, kind: string)
    ensures FailBudget(t, kind).task.usages == t.usages && FailBudget(t, kind).task.record.usage == t.record.usage
  {
  }

  lemma {:induction false} NoUsageOf(usages: seq<(string, Usage)>, run: string)
    requires forall k :: 0 <= k < |usages| ==> usages[k].0 != run
    ensures UsageOf(usages, run).None?
    decreases |usages|
  {
    if usages != [] { NoUsageOf(usages[..|usages| - 1], run); }
  }

  // ----- claiming -----------------------------------------------------------

  predicate Lapsed(u: Unit, now: nat) {
    (u.status.Claimed? || u.status.Running?) && (u.expires.Some? ==> u.expires.value <= now)
  }

  predicate WorkedOn(u: Unit, now: nat) {
    (u.status.Claimed? || u.status.Running?) && u.expires.Some? && u.expires.value > now
  }

  predicate UsedUp(u: Unit, now: nat) { Lapsed(u, now) && u.attempt >= u.maxAttempts }

  /** Units whose last attempt lapsed have failed; the others stand. */
  ghost predicate FailsUsedUp(units: seq<Unit>, after: seq<Unit>, now: nat) {
    && |after| == |units|
    && forall k :: 0 <= k < |units| ==>
         if UsedUp(units[k], now)
         then StoppedAs(units[k], after[k], Failed) && KeepsPlan(units[k], after[k])
              && after[k].error == Some("lease_expired_attempts_exhausted")
         else after[k] == units[k]
  }

  /** The unit is asked for, free or lapsed, with attempts left and all it depends on completed. */
  ghost predicate CanBeGiven(units: seq<Unit>, now: nat, only: Option<string>, k: nat)
    requires k < |units|
  {
    var u := units[k];
    && (only.Some? ==> u.id == only.value) && (u.status.Pending? || u.status.WaitingRetry? || Lapsed(u, now))
    && u.attempt < u.maxAttempts && forall d :: d in u.dependencies ==> Completed(units, d)
  }

  /** No unit that could be given has a lower position, and none of the same position is earlier. */
  ghost predicate ComesFirst(units: seq<Unit>, now: nat, only: Option<string>, k: nat)
    requires k < |units|
  {
    && CanBeGiven(units, now, only, k)
    && forall j :: 0 <= j < |units| && CanBeGiven(units, now, only, j) ==>
         units[k].position < units[j].position || (units[k].position == units[j].position && k <= j)
  }

  ghost predicate SomethingCanBeGiven(units: seq<Unit>, now: nat, only: Option<string>) {
    exists k :: 0 <= k < |units| && CanBeGiven(units, now, only, k)
  }

  /** The claim gives out unit `k` under a lease of its own epoch. */
  ghost predicate Gives(units: seq<Unit>, t: Task, r: Result, now: nat, worker: string, duration: pos, only: Option<string>, k: nat)
    requires k < |units|
  {
    && ComesFirst(units, now, only, k) && k < |r.task.units|
    && var (u, v) := (units[k], r.task.units[k]);
       && r.reply == Ok(Some(v)) && r.task.units == units[k := v]
       && v == u.(status := Claimed, attempt := u.attempt + 1, worker := Some(worker), epoch := u.epoch + 1,
                  expires := Some(now + duration), settledBy := None, run := None)
       && r.task.usages == t.usages && r.task.record == t.record.(revision := r.task.record.revision)
  }

  lemma EligibleIs(units: seq<Unit>, now: nat, only: Option<string>)
    ensures forall k :: 0 <= k < |units| ==> (Eligible(units, now, only, units[k]) <==> CanBeGiven(units, now, only, k))
  {
    assert forall d :: DoneIn(units, d) <==> Completed(units, d);
  }

  lemma ChosenIs(units: seq<Unit>, now: nat, only: Option<string>)
    ensures forall k :: 0 <= k < |units| ==> (Chosen(units, now, only, k) <==> ComesFirst(units, now, only, k))
  {
    hide Eligible, CanBeGiven;
    EligibleIs(units, now, only);
  }

  /** One of the units that could be given comes first. */
  lemma {:induction false} SomeComesFirst(units: seq<Unit>, now: nat, only: Option<string>, n: nat) returns (k: nat)
    requires n <= |units| && exists j :: 0 <= j < n && CanBeGiven(units, now, only, j)
    ensures k < n && CanBeGiven(units, now, only, k)
    ensures forall j :: 0 <= j < n && CanBeGiven(units, now, only, j) ==>
      units[k].position < units[j].position || (units[k].position == units[j].position && k <= j)
    decreases n
  {
    hide CanBeGiven;
    if exists j :: 0 <= j < n - 1 && CanBeGiven(units, now, only, j) {
      k := SomeComesFirst(units, now, only, n - 1);
      if CanBeGiven(units, now, only, n - 1) && units[n - 1].position < units[k].position { k := n - 1; }
    } else {
      k := n - 1;
    }
  }

  lemma GrantGives(t: Task, now: nat, worker: string, duration: pos, only: Option<string>)
    ensures var r := GrantNext(t, now, worker, duration, only);
      if Count(t.units, Live(now)) < t.record.maxParallelism && SomethingCanBeGiven(t.units, now, only)
      then exists k :: 0 <= k < |t.units| && Gives(t.units, t, r, now, worker, duration, only, k)
      else r == Result(t, Ok(None))
  {
    hide Eligible, CanBeGiven, Chosen, ComesFirst;
    ChosenIs(t.units, now, only);
    if SomethingCanBeGiven(t.units, now, only) {
      var k := SomeComesFirst(t.units, now, only, |t.units|);
      FirstIs(t.units, now, only, k);
    } else if k :| 0 <= k < |t.units| && ComesFirst(t.units, now, only, k) {
      FirstCanBeGiven(t.units, now, only, k);
    }
    var r := GrantNext(t, now, worker, duration, only);
    if r.reply.value.Some? {
      var k: nat :| k < |t.units| && Chosen(t.units, now, only, k)
        && r == Result(Touch(t.(units := t.units[k := Grant(t.units[k], now, worker, duration)])),
                       Ok(Some(Grant(t.units[k], now, worker, duration))));
      GrantedIs(t, now, worker, duration, only, k);
    }
  }

  lemma GrantedIs(t: Task, now: nat, worker: string, duration: pos, only: Option<string>, k: nat)
    requires k < |t.units| && ComesFirst(t.units, now, only, k)
    ensures var v := Grant(t.units[k], now, worker, duration);
      Gives(t.units, t, Result(Touch(t.(units := t.units[k := v])), Ok(Some(v))), now, worker, duration, only, k)
  {
    hide ComesFirst;
  }

  lemma FirstIs(units: seq<Unit>, now: nat, only: Option<string>, k: nat)
    requires k < |units| && CanBeGiven(units, now, only, k)
    requires forall j :: 0 <= j < |units| && CanBeGiven(units, now, only, j) ==>
      units[k].position < units[j].position || (units[k].position == units[j].position && k <= j)
    ensures ComesFirst(units, now, only, k)
  {
  }

  lemma FirstCanBeGiven(units: seq<Unit>, now: nat, only: Option<string>, k: nat)
    requires k < |units| && ComesFirst(units, now, only, k)
    ensures SomethingCanBeGiven(units, now, only)
  {
  }

  ghost function WorkedOnCount(units: seq<Unit>, now: nat): nat { Count(units, (u: Unit) => WorkedOn(u, now)) }

  lemma LiveIsWorkedOn(units: seq<Unit>, now: nat)
    ensures Count(units, Live(now)) == WorkedOnCount(units, now)
  {
    CountsAgree(units, units, Live(now));
    LiveCounts(units, Live(now), (u: Unit) => WorkedOn(u, now));
  }

  lemma {:induction false} LiveCounts(units: seq<Unit>, p: Unit -> bool, q: Unit -> bool)
    requires forall u :: p(u) <==> q(u)
    ensures Count(units, p) == Count(units, q)
    decreases |units|
  {
    if units != [] { LiveCounts(units[..|units| - 1], p, q); }
  }

  /** A required unit is used up, and no earlier one is. */
  ghost predicate FirstUsedUp(units: seq<Unit>, now: nat, k: nat) {
    && k < |units| && units[k].required && UsedUp(units[k], now)
    && forall j :: 0 <= j < k && units[j].required ==> !UsedUp(units[j], now)
  }

  /** The task as the sweep of used-up units leaves it. */
  ghost function AfterSweep(t: Task, now: nat): Task { t.(units := Sweep(t.units, ExhaustUnit(now))) }

  lemma ExhaustedIs(now: nat)
    ensures forall u: Unit :: Exhausted(now)(u) <==> UsedUp(u, now)
    ensures forall u: Unit :: ExhaustUnit(now)(u).required == u.required
    ensures forall u: Unit :: WorkedOn(ExhaustUnit(now)(u), now) <==> WorkedOn(u, now)
  {
  }

  lemma SweepFailsUsedUp(t: Task, now: nat)
    ensures FailsUsedUp(t.units, AfterSweep(t, now).units, now)
    ensures First(t.units, ExhaustedRequired(now)) == |t.units| <==> !exists k: nat :: FirstUsedUp(t.units, now, k)
    ensures var k := First(t.units, ExhaustedRequired(now)); k < |t.units| ==> FirstUsedUp(t.units, now, k)
    ensures First(t.units, Exhausted(now)) == |t.units| ==> AfterSweep(t, now) == t
  {
    ExhaustedIs(now);
    forall k: nat | FirstUsedUp(t.units, now, k) ensures k < |t.units| && ExhaustedRequired(now)(t.units[k]) { }
    var k := First(t.units, ExhaustedRequired(now));
    if k < |t.units| { assert FirstUsedUp(t.units, now, k); }
  }

  lemma SweepKeepsWorkedOn(t: Task, now: nat)
    ensures WorkedOnCount(AfterSweep(t, now).units, now) == WorkedOnCount(t.units, now)
  {
    ExhaustedIs(now);
    hide WorkedOn, ExhaustUnit;
    var swept := AfterSweep(t, now).units;
    assert forall k :: 0 <= k < |t.units| ==> swept[k] == ExhaustUnit(now)(t.units[k]);
    CountsAgree(t.units, swept, (u: Unit) => WorkedOn(u, now));
  }

  /** What a claim on a running task within its limits does: used-up units fail, a required one with the task; otherwise
      the first unit that can be given is given out exactly if fewer are worked on than may be. */
  lemma ClaimOutcome(t: Task, now: nat, worker: string, duration: pos, only: Option<string>)
    requires HasRequired(t.units) && t.record.status.TaskRunning? && t.record.cancelRequestedAt.None?
    requires !PastDeadline(t, now) && BudgetExhaustion(t.record, false).None?
    ensures var (r, swept) := (Claim(t, now, worker, duration, only), AfterSweep(t, now));
      && FailsUsedUp(t.units, swept.units, now)
      && if exists k: nat :: FirstUsedUp(t.units, now, k)
         then exists k: nat :: FirstUsedUp(t.units, now, k) && r.reply == Ok(None) && EndsFailed(swept, r.task, t.units[k].id)
         else if WorkedOnCount(t.units, now) < t.record.maxParallelism && SomethingCanBeGiven(swept.units, now, only)
         then exists k :: 0 <= k < |t.units| && Gives(swept.units, t, r, now, worker, duration, only, k)
         else r.reply == Ok(None) && r.task == swept.(record := swept.record.(revision := r.task.record.revision))
  {
    hide FailTask, GrantNext, BudgetExhaustion, FirstUsedUp, FailsUsedUp, EndsFailed, Gives, HasRequired, Count, Live, AfterSweep;
    hide SomethingCanBeGiven, WorkedOnCount, ExhaustUnit;
    SweepFailsUsedUp(t, now);
    var (swept, k) := (AfterSweep(t, now), First(t.units, ExhaustedRequired(now)));
    AfterSweepIs(t, now);
    if k < |t.units| {
      SweptRequired(t, ExhaustUnit(now));
      FailureEnds(swept, t.units[k].id);
    } else {
      SweepKeepsWorkedOn(t, now);
      var s := Exhaust(t, now).task;
      LiveIsWorkedOn(s.units, now);
      GrantGives(s, now, worker, duration, only);
      GivesFrom(s, t, Claim(t, now, worker, duration, only), now, worker, duration, only);
    }
  }

  lemma AfterSweepIs(t: Task, now: nat)
    ensures AfterSweep(t, now) == t.(units := Sweep(t.units, ExhaustUnit(now)))
    ensures forall u: Unit :: ExhaustUnit(now)(u).required == u.required
  {
    ExhaustedIs(now);
  }

  lemma GivesFrom(s: Task, t: Task, r: Result, now: nat, worker: string, duration: pos, only: Option<string>)
    requires s.usages == t.usages && s.record == t.record.(revision := s.record.revision)
    ensures forall k :: 0 <= k < |s.units| && Gives(s.units, s, r, now, worker, duration, only, k) ==>
      Gives(s.units, t, r, now, worker, duration, only, k)
  {
  }

  /** In every other state a claim gives nothing out. */
  lemma ClaimElsewhere(t: Task, now: nat, worker: string, duration: pos, only: Option<string>)
    requires HasRequired(t.units)
    ensures var (r, spent) := (Claim(t, now, worker, duration, only), BudgetExhaustion(t.record, false));
      && (PastDeadline(t, now) ==> r.reply == Ok(None) && EndsByDeadline(t, r.task))
      && (!PastDeadline(t, now) && spent.Some? ==> r.reply == Ok(None) && EndsByBudget(t, r.task, spent.value))
      && (!PastDeadline(t, now) && spent.None? && (!t.record.status.TaskRunning? || t.record.cancelRequestedAt.Some?) ==>
            r == Result(t, Ok(None)))
  {
    hide EndsByDeadline, EndsByBudget, ExpireDeadline, FailBudget, HasRequired, BudgetExhaustion, GrantNext, Exhaust;
    DeadlineEnds(t);
    var spent := BudgetExhaustion(t.record, false);
    if spent.Some? { BudgetEnds(t, spent.value); }
  }

  // ----- working on a claimed unit ------------------------------------------

  /** The worker holds the unit now, under this epoch. */
  predicate Holds(t: Task, u: Unit, now: nat, worker: string, epoch: nat) {
    t.record.status.TaskRunning? && WorkedOn(u, now) && u.worker == Some(worker) && u.epoch == epoch
  }

  /** Past the deadline the call ends the task instead; without the lease it changes nothing. */
  ghost predicate TurnedAway(t: Task, now: nat, r: Result) {
    if PastDeadline(t, now) then r.reply == Fail(DeadlineExceeded) && EndsByDeadline(t, r.task)
    else r == Result(t, Fail(LeaseLost))
  }

  lemma RefusedExactly(t: Task, u: Unit, now: nat, worker: string, epoch: nat)
    requires HasRequired(t.units)
    ensures Refused(t, u, now, worker, epoch).None? <==> !PastDeadline(t, now) && Holds(t, u, now, worker, epoch)
    ensures Refused(t, u, now, worker, epoch).Some? ==> TurnedAway(t, now, Refused(t, u, now, worker, epoch).value)
  {
    hide EndsByDeadline, ExpireDeadline, HasRequired;
    DeadlineEnds(t);
  }

  /** Only unit `k` differs, and the revision. */
  ghost predicate OnlyUnit(t: Task, s: Task, k: nat) {
    && k < |t.units| == |s.units|
    && s == t.(units := t.units[k := s.units[k]], record := t.record.(revision := s.record.revision))
  }

  ghost predicate RunIsTaken(units: seq<Unit>, id: string, run: string) {
    exists j :: 0 <= j < |units| && units[j].id != id && units[j].run == Some(run)
  }

  lemma TakenIs(units: seq<Unit>, id: string, run: string)
    ensures AnyUnit(units, UsesRun(id, run)) <==> RunIsTaken(units, id, run)
  {
    if j :| 0 <= j < |units| && units[j].id != id && units[j].run == Some(run) { assert UsesRun(id, run)(units[j]); }
  }

  /** Binding a Run starts the unit, unless another Run is bound to it or the Run to another unit. */
  lemma BindingBinds(t: Task, now: nat, k: nat, worker: string, epoch: nat, run: string)
    requires HasRequired(t.units) && k < |t.units|
    ensures var (u, r) := (t.units[k], BindRun(t, now, k, worker, epoch, run));
      if PastDeadline(t, now) || !Holds(t, u, now, worker, epoch) then TurnedAway(t, now, r)
      else if u.run == Some(run) then r == Result(t, Ok(Some(u)))
      else if u.run.Some? || RunIsTaken(t.units, u.id, run) then r == Result(t, Fail(RunConflict))
      else
        && OnlyUnit(t, r.task, k) && r.task.units[k] == u.(status := Running, run := Some(run))
        && r.reply == Ok(Some(r.task.units[k]))
  {
    hide TurnedAway, HasRequired, Refused, Holds, AnyUnit;
    RefusedExactly(t, t.units[k], now, worker, epoch);
    TakenIs(t.units, t.units[k].id, run);
  }

  /** Renewing moves the end of the lease; a report adds metadata; nothing else changes. */
  lemma RenewalAndReport(t: Task, now: nat, k: nat, worker: string, epoch: nat, duration: pos, metadata: map<string, string>)
    requires HasRequired(t.units) && k < |t.units|
    ensures var (u, r) := (t.units[k], Renew(t, now, k, worker, epoch, duration));
      if PastDeadline(t, now) || !Holds(t, u, now, worker, epoch) then TurnedAway(t, now, r)
      else
        OnlyUnit(t, r.task, k) && r.task.units[k] == u.(expires := Some(now + duration)) && r.reply == Ok(Some(r.task.units[k]))
    ensures var (u, r) := (t.units[k], Progress(t, now, k, worker, epoch, metadata));
      if PastDeadline(t, now) || !Holds(t, u, now, worker, epoch) then TurnedAway(t, now, r)
      else
        OnlyUnit(t, r.task, k) && r.task.units[k] == u.(metadata := u.metadata + metadata) && r.reply == Ok(Some(r.task.units[k]))
  {
    hide TurnedAway, HasRequired, Refused, Holds;
    RefusedExactly(t, t.units[k], now, worker, epoch);
  }

  /** The unit is completed with this output, by this worker. */
  predicate CompletedWith(u: Unit, v: Unit, worker: string, output: Output) {
    && v == u.(status := UnitStatus.Completed, worker := None, expires := None, settledBy := Some(worker), run := v.run,
               output := Some(output.ref), digest := output.digest, receipt := output.receipt, disposition := None,
               error := None, metadata := u.metadata + output.metadata)
    && v.run == if output.run.Some? then output.run else u.run
  }

  /** Only unit `k` differs, and the record's totals are those of a recount. */
  ghost predicate OnlyUnitCounted(t: Task, s: Task, k: nat) {
    && k < |t.units| == |s.units| && s.units == t.units[k := s.units[k]] && s.usages == t.usages && Counted(s)
    && s.record == t.record.(total := s.record.total, completed := s.record.completed, failed := s.record.failed,
                             revision := s.record.revision)
  }

  /** The holder completes the unit, unless its Run is not the unit's or belongs to another; the totals then count it. */
  lemma CompletionCompletes(t: Task, now: nat, k: nat, worker: string, epoch: nat, output: Output)
    requires HasRequired(t.units) && k < |t.units| && !t.units[k].status.Completed?
    ensures var (u, r) := (t.units[k], Complete(t, now, k, worker, epoch, output));
      var run := if output.run.Some? then output.run else u.run;
      if PastDeadline(t, now) || !Holds(t, u, now, worker, epoch) then TurnedAway(t, now, r)
      else if (u.run.Some? && run != u.run) || (run.Some? && RunIsTaken(t.units, u.id, run.value))
      then r == Result(t, Fail(RunConflict))
      else r.reply == Ok(None) && OnlyUnitCounted(t, r.task, k) && CompletedWith(u, r.task.units[k], worker, output)
  {
    hide TurnedAway, HasRequired, Refused, Holds, AnyUnit, Refresh;
    RefusedExactly(t, t.units[k], now, worker, epoch);
    var u := t.units[k];
    var done := Done(u, worker, output);
    if done.run.Some? { TakenIs(t.units, u.id, done.run.value); }
    PutRequired(t, k, done);
    RecountedAt(t, k, done);
  }

  lemma PutRequired(t: Task, k: nat, v: Unit)
    requires HasRequired(t.units) && k < |t.units| && v.required == t.units[k].required
    ensures HasRequired(Put(t, k, v).units)
  {
    CountsAgree(t.units, Put(t, k, v).units, Required());
  }

  lemma RecountedAt(t: Task, k: nat, v: Unit)
    requires k < |t.units| && HasRequired(Put(t, k, v).units)
    ensures var r := Refresh(Put(t, k, v), t.record.status);
      r.reply == Ok(None) && OnlyUnitCounted(t, r.task, k) && r.task.units[k] == v
  {
    Refreshing(Put(t, k, v), t.record.status);
    hide Count;
  }

  /** A completed unit accepts only its own completion again. */
  lemma CompletedUnitStands(t: Task, now: nat, k: nat, worker: string, epoch: nat, output: Output)
    requires k < |t.units| && t.units[k].status.Completed?
    ensures var (u, r) := (t.units[k], Complete(t, now, k, worker, epoch, output));
      && r.task == t && (r.reply.Ok? || r.reply == Fail(LeaseLost))
      && (r.reply.Ok? <==>
            && u.epoch == epoch && u.settledBy == Some(worker) && u.output == Some(output.ref) && u.digest == output.digest
            && u.receipt == output.receipt && (output.run.Some? ==> u.run == output.run))
  {
    hide Refused;
  }

  /** What a failed attempt makes of its unit. */
  predicate FailedAttempt(u: Unit, v: Unit, decision: Decision) {
    && StoppedAs(u, v, v.status) && v.metadata == u.metadata
    && v.error == Some(decision.code) && v.disposition == Some(decision.disposition)
    && v.maxAttempts == u.maxAttempts + (if decision.disposition.ResumeCheckpoint? && u.attempt >= u.maxAttempts then 1 else 0)
    && match decision.disposition
       case RetryAttempt | ResumeCheckpoint => v.status.WaitingRetry?
       case PauseRecoverable => v.status.Blocked?
       case SplitPart => v.status.NeedsSplit?
       case FailPermanent => v.status.Failed?
       case CancelTask => v.status.Canceled?
  }

  /** A settled failure sets its unit aside as decided; canceling, failing for good, and blocking what cannot go on without
      reach the whole task. */
  lemma SettlementSettles(t: Task, now: nat, k: nat, worker: string, epoch: nat, decision: Decision)
    requires HasRequired(t.units) && k < |t.units|
    ensures var (u, r) := (t.units[k], SettleFailure(t, now, k, worker, epoch, decision));
      if PastDeadline(t, now) || !Holds(t, u, now, worker, epoch) then TurnedAway(t, now, r)
      else
        r.reply == Ok(None) && exists v :: FailedAttempt(u, v, decision) && SettledWith(t, r.task, now, k, v, decision)
  {
    hide TurnedAway, HasRequired, Refused, Holds, HasRunnableWork, SomethingCanProceed, CancelAll, FailTask, ReleaseAll;
    hide EndsCanceled, EndsFailed, EndsPaused;
    RefusedExactly(t, t.units[k], now, worker, epoch);
    var v := Settled(t.units[k], decision);
    var put := Put(t, k, v);
    assert FailedAttempt(t.units[k], v, decision);
    RunnableIs(put.units, now);
    CancelingEnds(put);
    ReleasingEnds(put, decision.code);
    PutRequired(t, k, v);
    FailureEnds(put, t.units[k].id);
    if !PastDeadline(t, now) && Holds(t, t.units[k], now, worker, epoch) {
      assert SettledWith(t, SettleFailure(t, now, k, worker, epoch, decision).task, now, k, v, decision);
    }
  }

  /** The task after unit `k` became `v`. */
  ghost predicate SettledWith(t: Task, s: Task, now: nat, k: nat, v: Unit, decision: Decision)
    requires k < |t.units|
  {
    var put := t.(units := t.units[k := v]);
    match decision.disposition
    case CancelTask => EndsCanceled(put, s)
    case FailPermanent => EndsFailed(put, s, t.units[k].id)
    case PauseRecoverable =>
      if decision.systemic || !SomethingCanProceed(put.units, now) then EndsPaused(put, s, decision.code)
      else s == put.(record := put.record.(revision := s.record.revision))
    case _ => s == put.(record := put.record.(revision := s.record.revision))
  }

  /** An interrupted unit waits again with its attempt given back, and the task is paused. */
  lemma InterruptionPauses(t: Task, now: nat, k: nat, worker: string, epoch: nat, reason: string)
    requires HasRequired(t.units) && k < |t.units|
    ensures var (u, r) := (t.units[k], Interrupt(t, now, k, worker, epoch, reason));
      if PastDeadline(t, now) || !Holds(t, u, now, worker, epoch) then TurnedAway(t, now, r)
      else
        && r.reply == Ok(None) && |r.task.units| == |t.units|
        && OnlyStatus(t.(units := t.units[k := r.task.units[k]]), r.task, TaskPaused)
        && r.task.units[k] == u.(status := Pending, worker := None, expires := None, maxAttempts := u.maxAttempts + 1,
                                 error := Some(reason))
  {
    hide TurnedAway, HasRequired, Refused, Holds;
    RefusedExactly(t, t.units[k], now, worker, epoch);
  }

  // ----- splitting ----------------------------------------------------------

  /** The child as its author described it, waiting for what the parent waited for as well. */
  ghost predicate IsChild(parent: Unit, spec: Spec, v: Unit) {
    && v.id == spec.id && v.position == spec.position && v.key == spec.key && v.required == spec.required
    && v.maxAttempts == spec.maxAttempts && v.metadata == spec.metadata
    && v.parent == (if spec.parent.Some? then spec.parent else Some(parent.id))
    && v.status.Pending? && v.attempt == 0 && v.worker.None? && v.epoch == 0 && v.expires.None? && v.run.None?
    && v.settledBy.None? && v.output.None? && v.digest.None? && v.receipt == "" && v.disposition.None? && v.error.None?
    && Distinct(v.dependencies)
    && forall d :: d in v.dependencies <==> d in parent.dependencies || d in spec.dependencies
  }

  /** Whoever waited for the parent waits for its replacements instead, and for nothing else besides. */
  ghost predicate Rewired(u: Unit, v: Unit, parent: string, replacements: seq<string>) {
    && v == u.(dependencies := v.dependencies)
    && if parent in u.dependencies
       then
         && Distinct(v.dependencies)
         && forall d :: d in v.dependencies <==> (d in u.dependencies && d != parent) || d in replacements
       else v.dependencies == u.dependencies
  }

  /** The parent is set aside, the others wait for its replacements, and its children stand behind them. */
  ghost predicate SplitInto(t: Task, s: Task, k: nat, worker: string, split: Split, decision: Decision)
    requires k < |t.units|
  {
    && |s.units| == |t.units| + |split.children|
    && s.units[k] == t.units[k].(status := Expanded, worker := None, expires := None, required := false,
                                 settledBy := Some(worker), error := Some(decision.code),
                                 disposition := Some(decision.disposition), dependencies := s.units[k].dependencies)
    && s.units[k].dependencies == t.units[k].dependencies
    && (forall j :: 0 <= j < |t.units| && j != k ==> Rewired(t.units[j], s.units[j], t.units[k].id, split.replacements))
    && (forall j :: 0 <= j < |split.children| ==> IsChild(t.units[k], split.children[j], s.units[|t.units| + j]))
  }

  lemma {:induction false} ReplacedIs(dependencies: seq<string>, parent: string, replacements: seq<string>)
    ensures forall d :: d in Replaced(dependencies, parent, replacements) <==>
      (d in dependencies && d != parent) || (parent in dependencies && d in replacements)
  {
    if dependencies != [] { ReplacedIs(dependencies[1..], parent, replacements); }
  }

  /** An accepted split leaves exactly these units. */
  lemma ExpandingIsSplit(t: Task, k: nat, worker: string, split: Split, decision: Decision)
    requires Sound(t) && k < |t.units|
    requires !AnyUnit(ChildUnits(t.units[k], split.children), Mentions(t.units[k].id))
    requires forall c :: c in split.children ==> c.id != t.units[k].id
    ensures SplitInto(t, t.(units := Expanding(t.units, k, split, worker, decision)), k, worker, split, decision)
  {
    var (parent, after) := (t.units[k], Expanding(t.units, k, split, worker, decision));
    forall j | 0 <= j < |t.units| && j != k ensures Rewired(t.units[j], after[j], parent.id, split.replacements) {
      OtherId(t, j, k);
      RewireIs(t.units[j], parent.id, split.replacements);
    }
    forall j | 0 <= j < |split.children| ensures IsChild(parent, split.children[j], after[|t.units| + j]) {
      var child := ChildUnits(parent, split.children)[j];
      assert !Mentions(parent.id)(child);
      ChildIs(parent, split.children[j]);
    }
  }

  lemma OtherId(t: Task, j: nat, k: nat)
    requires Sound(t) && j < |t.units| && k < |t.units| && j != k
    ensures t.units[j].id != t.units[k].id
  {
    assert UnitIds(t.units)[j] != UnitIds(t.units)[k];
  }

  lemma RewireIs(u: Unit, parent: string, replacements: seq<string>)
    requires u.id != parent
    ensures Rewired(u, Rewire(parent, replacements)(u), parent, replacements)
  {
    ReplacedIs(u.dependencies, parent, replacements);
    hide Replaced;
  }

  lemma ChildIs(parent: Unit, spec: Spec)
    ensures IsChild(parent, spec, ChildUnit(parent, spec))
  {
  }

  /** Every reason for which the holder's split is refused. */
  ghost predicate SplitClashes(t: Task, k: nat, split: Split)
    requires k < |t.units|
  {
    var parent := t.units[k];
    || (exists j, c :: 0 <= j < |t.units| && c in split.children
                       && (t.units[j].id == c.id || t.units[j].key == c.key || t.units[j].position == c.position))
    || (split.children != [] && parent.id in parent.dependencies) || (exists c :: c in split.children && parent.id in c.dependencies)
    || (split.replacements == [] && exists j :: 0 <= j < |t.units| && t.units[j].id != parent.id && parent.id in t.units[j].dependencies)
    || !Acyclic(Prospect(t.units, parent, split))
  }

  lemma ClashIs(t: Task, k: nat, split: Split)
    requires k < |t.units|
    ensures SplitClashes(t, k, split) <==>
      || ChildClashes(t.units, split.children)
      || AnyUnit(ChildUnits(t.units[k], split.children), Mentions(t.units[k].id))
      || (AnyUnit(t.units, WaitsFor(t.units[k].id)) && split.replacements == [])
      || !Acyclic(Prospect(t.units, t.units[k], split))
  {
    hide Acyclic, Prospect;
    var parent := t.units[k];
    ClashingIs(t.units, split.children);
    MentioningIs(parent, split.children);
    assert AnyUnit(t.units, WaitsFor(parent.id)) <==>
      exists j :: 0 <= j < |t.units| && t.units[j].id != parent.id && parent.id in t.units[j].dependencies by {
      if j :| 0 <= j < |t.units| && t.units[j].id != parent.id && parent.id in t.units[j].dependencies {
        assert WaitsFor(parent.id)(t.units[j]);
      }
    }
  }

  lemma ClashingIs(units: seq<Unit>, children: seq<Spec>)
    ensures ChildClashes(units, children) <==>
      exists j, c :: 0 <= j < |units| && c in children
                     && (units[j].id == c.id || units[j].key == c.key || units[j].position == c.position)
  {
    if u, c :| u in units && c in children && (u.id == c.id || u.key == c.key || u.position == c.position) {
      var j :| 0 <= j < |units| && units[j] == u;
    }
  }

  lemma MentioningIs(parent: Unit, children: seq<Spec>)
    ensures AnyUnit(ChildUnits(parent, children), Mentions(parent.id)) <==>
      (children != [] && parent.id in parent.dependencies) || exists c :: c in children && parent.id in c.dependencies
  {
    var units := ChildUnits(parent, children);
    forall i | 0 <= i < |children|
      ensures Mentions(parent.id)(units[i]) <==> parent.id in parent.dependencies || parent.id in children[i].dependencies
    {
      ChildIs(parent, children[i]);
    }
    if children != [] && parent.id in parent.dependencies { assert Mentions(parent.id)(units[0]); }
    if c :| c in children && parent.id in c.dependencies {
      var i :| 0 <= i < |children| && children[i] == c;
      assert Mentions(parent.id)(units[i]);
    }
  }

  /** The holder's split is carried out unless it clashes with the task's units or would make them wait in a circle; the
      record then counts them, or is refused if none of them is required any more. */
  lemma SplitSplits(t: Task, now: nat, k: nat, worker: string, epoch: nat, split: Split, decision: Decision)
    requires Sound(t) && HasRequired(t.units) && k < |t.units| && !t.units[k].status.Expanded?
    ensures var (u, r) := (t.units[k], Expand(t, now, k, worker, epoch, split, decision));
      if PastDeadline(t, now) || !Holds(t, u, now, worker, epoch) then TurnedAway(t, now, r)
      else if SplitClashes(t, k, split)
      then
        && r.task == t
        && (r.reply == Fail(ChildConflict) || r.reply == Fail(DependsOnParent) || r.reply == Fail(NoReplacement)
            || r.reply == Fail(DependencyCycle))
      else
        && SplitInto(t, r.task, k, worker, split, decision) && r.task.usages == t.usages
        && (r.reply == if HasRequired(r.task.units) then Ok(None) else Fail(InvalidRecord))
        && (HasRequired(r.task.units) ==> Counted(r.task)) && (!HasRequired(r.task.units) ==> r.task.record == t.record)
  {
    hide TurnedAway, HasRequired, Refused, Holds, AnyUnit, ChildClashes, Acyclic, Prospect, Refresh, SplitInto, Sound, SplitClashes;
    RefusedExactly(t, t.units[k], now, worker, epoch);
    ClashIs(t, k, split);
    if !SplitClashes(t, k, split) {
      NoChildIsParent(t, k, split);
      ExpandingIsSplit(t, k, worker, split, decision);
      var after := t.(units := Expanding(t.units, k, split, worker, decision));
      Refreshing(after, t.record.status);
      SplitStays(t, after, Refresh(after, t.record.status).task, k, worker, split, decision);
    }
  }

  lemma NoChildIsParent(t: Task, k: nat, split: Split)
    requires k < |t.units| && !ChildClashes(t.units, split.children)
    ensures forall c :: c in split.children ==> c.id != t.units[k].id
  {
    assert t.units[k] in t.units;
  }

  lemma SplitStays(t: Task, s: Task, r: Task, k: nat, worker: string, split: Split, decision: Decision)
    requires k < |t.units| && SplitInto(t, s, k, worker, split, decision) && r.units == s.units
    ensures SplitInto(t, r, k, worker, split, decision)
  {
  }

  // ----- creation -----------------------------------------------------------

  /** A created task is pending, with each unit as its author described it, free and never tried. */
  lemma CreationCreates(c: CreateCommand)
    requires ValidCommand(c)
    ensures HasRequired(NewUnits(c.units))
    ensures var t := Created(c);
      && t.record.status.TaskPending? && t.record.revision == 1 && t.record.maxParallelism == c.maxParallelism
      && t.record.deadline == c.deadline && t.record.limits == c.limits && t.record.pauseOnBudget == c.pauseOnBudget
      && t.record.cancelRequestedAt.None? && t.record.usage == NO_USAGE && t.usages == [] && Counted(t)
      && |t.units| == |c.units|
      && forall k :: 0 <= k < |c.units| ==>
           var (spec, u) := (c.units[k], t.units[k]);
           && u.id == spec.id && u.position == spec.position && u.key == spec.key && u.dependencies == spec.dependencies
           && u.parent == spec.parent && u.required == spec.required && u.maxAttempts == spec.maxAttempts
           && u.metadata == spec.metadata && u.status.Pending? && u.attempt == 0 && u.epoch == 0 && u.worker.None?
           && u.expires.None? && u.run.None? && u.settledBy.None? && u.output.None? && u.digest.None? && u.receipt == ""
           && u.disposition.None? && u.error.None?
  {
    var units := NewUnits(c.units);
    CountIsZero(units, Required());
    NewUnitsAreOpen(units);
    hide Acyclic, ValidCommand;
  }

  lemma {:induction false} NewUnitsAreOpen(units: seq<Unit>)
    requires forall k :: 0 <= k < |units| ==> units[k].status.Pending?
    ensures Count(units, RequiredCompleted()) == 0 && Count(units, RequiredFailed()) == 0
    decreases |units|
  {
    if units != [] { NewUnitsAreOpen(units[..|units| - 1]); }
  }
}
