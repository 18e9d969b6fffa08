/**
 The stored long task as the adapter keeps it: a record and a dictionary of units that every operation updates in
 place (src/purra/adapters/durable_memory.py, src/purra/adapters/_long_task_mixins.py).
 */
module LongTaskStore {
  import opened Prelude
  import opened LongTask
  import opened LongTaskInvariant
  import LongTaskSteps
  import DependencyGraph

  type Reply = Outcome<Option<Unit>, Fault>

  class StoredLongTask {
    var record: Record
    var units: seq<Unit>
    var usages: seq<(string, Usage)>

    ghost function View(): Task
      reads this
    {
      Task(record, units, usages)
    }

    ghost predicate Valid()
      reads this
    {
      Sound(View())
    }

    constructor (command: CreateCommand)
      requires ValidCommand(command)
      ensures HasRequired(NewUnits(command.units)) && View() == Created(command) && Valid()
    {
      LongTaskSteps.CreatedIsSound(command);
      var specs := command.units;
      var made: seq<Unit> := [];
      var total := 0;
      var i := 0;
      while i < |specs|
        invariant i <= |specs| && made == NewUnits(specs)[..i] && total == Count(made, Required())
      {
        assert NewUnits(specs)[..i + 1][..i] == NewUnits(specs)[..i];
        made := made + [NewUnit(specs[i])];
        total := total + if specs[i].required then 1 else 0;
        i := i + 1;
      }
      assert made == NewUnits(specs);
      units := made;
      usages := [];
      record := Record(TaskPending, 1, total, 0, 0, command.maxParallelism, command.deadline, command.limits,
                       command.pauseOnBudget, None, NO_USAGE);
    }

    // ----- helpers ----------------------------------------------------------

    method SweepUnits(f: Unit -> Unit)
      modifies this`units
      ensures units == Sweep(old(units), f)
    {
      var i := 0;
      while i < |units|
        invariant i <= |units| == |old(units)|
        invariant units[i..] == old(units)[i..]
        invariant forall k :: 0 <= k < i ==> units[k] == f(old(units)[k])
      {
        assert units[i] == units[i..][0] == old(units)[i];
        assert forall k :: i < k < |units| ==> units[k] == units[i..][k - i] == old(units)[k];
        units := units[i := f(units[i])];
        i := i + 1;
      }
    }

    method CountUnits(test: Unit -> bool) returns (n: nat)
      ensures n == Count(units, test)
    {
      n := 0;
      var i := 0;
      while i < |units|
        invariant i <= |units| && n == Count(units[..i], test)
      {
        assert units[..i + 1][..i] == units[..i];
        n := n + if test(units[i]) then 1 else 0;
        i := i + 1;
      }
      assert units[..i] == units;
    }

    method FindUnit(test: Unit -> bool) returns (k: nat)
      ensures k == First(units, test)
      ensures k < |units| <==> AnyUnit(units, test)
    {
      k := 0;
      while k < |units| && !test(units[k])
        invariant k <= |units| && First(units, test) == First(units, test, k)
        invariant forall j :: 0 <= j < k ==> !test(units[j])
      {
        k := k + 1;
      }
    }

    method CompletedIds() returns (done: set<string>)
      ensures forall id :: id in done <==> DoneIn(units, id)
    {
      done := {};
      var i := 0;
      while i < |units|
        invariant i <= |units|
        invariant forall id :: id in done <==> exists k :: 0 <= k < i && units[k].id == id && units[k].status.Completed?
      {
        if units[i].status.Completed? { done := done + {units[i].id}; }
        i := i + 1;
      }
    }

    method RunnableWork(now: nat) returns (b: bool)
      ensures b == HasRunnableWork(units, now)
    {
      var done := CompletedIds();
      var i := 0;
      while i < |units|
        invariant i <= |units|
        invariant forall k :: 0 <= k < i ==>
          !Live(now)(units[k]) && !(units[k].status.Waiting() && units[k].attempt < units[k].maxAttempts && DependenciesDone(units, units[k]))
      {
        var u := units[i];
        var ready := forall d :: d in u.dependencies ==> d in done;
        assert ready == DependenciesDone(units, u);
        if Live(now)(u) || (u.status.Waiting() && u.attempt < u.maxAttempts && ready) { return true; }
        i := i + 1;
      }
      return false;
    }

    method Touch()
      modifies this`record
      ensures View() == LongTask.Touch(old(View()))
    {
      record := record.(revision := record.revision + 1);
    }

    method SetStatus(status: TaskStatus)
      modifies this`record
      ensures View() == LongTask.SetStatus(old(View()), status)
    {
      if record.status == status { return; }
      record := record.(status := status);
      Touch();
    }

    /** Recounts the required units; the record is kept when there are none. */
    method RefreshTotals(status: TaskStatus) returns (r: Reply)
      modifies this`record
      ensures Result(View(), r) == Refresh(old(View()), status)
    {
      var total := CountUnits(Required());
      var completed := CountUnits(RequiredCompleted());
      var failed := CountUnits(RequiredFailed());
      if total == 0 { return Fail(InvalidRecord); }
      record := record.(total := total, completed := completed, failed := failed);
      Touch();
      SetStatus(status);
      return Ok(None);
    }

    method CancelTask()
      modifies this`record, this`units
      ensures View() == CancelAll(old(View()))
    {
      SweepUnits(CancelUnit());
      SetStatus(TaskCanceled);
    }

    method FailTask(failed: string) returns (r: Reply)
      modifies this`record, this`units
      ensures Result(View(), r) == LongTask.FailTask(old(View()), failed)
    {
      SweepUnits(CancelUnless(failed));
      r := RefreshTotals(TaskFailed);
    }

    method ReleaseActive(reason: string)
      modifies this`record, this`units
      ensures View() == ReleaseAll(old(View()), reason)
    {
      SweepUnits(ReleaseUnit(reason));
      SetStatus(TaskPaused);
    }

    method ExpireTask() returns (r: Reply)
      modifies this`record, this`units
      ensures Result(View(), r) == ExpireDeadline(old(View()))
    {
      SweepUnits(ExpireUnit());
      r := RefreshTotals(TaskFailed);
    }

    method ExhaustBudget(kind: string) returns (r: Reply)
      modifies this`record, this`units
      ensures Result(View(), r) == FailBudget(old(View()), kind)
    {
      var pause := record.pauseOnBudget;
      SweepUnits(BudgetUnit(pause, kind));
      r := RefreshTotals(if pause then TaskPaused else TaskFailed);
    }

    predicate Late(now: nat)
      reads this
      ensures Late(now) == DeadlineElapsed(View(), now)
    {
      record.deadline.Some? && record.deadline.value <= now
    }

    // ----- the task as a whole ----------------------------------------------

    /** Whatever a step leaves is valid again. */
    lemma Keeps(now: nat, op: Op)
      requires Valid() && Admissible(op)
      ensures Sound(Step(View(), now, op).task)
    {
      LongTaskSteps.StepIsFine(View(), now, op);
    }

    method Start(now: nat, expected: nat) returns (r: Reply)
      requires Valid()
      modifies this`record, this`units
      ensures Valid() && Result(View(), r) == LongTask.Start(old(View()), now, expected)
    {
      hide Sound, ExpireDeadline, CancelAll;
      Keeps(now, DoStart(expected));
      if Late(now) { r := ExpireTask(); return; }
      if record.cancelRequestedAt.Some? { CancelTask(); return Ok(None); }
      if record.status.TaskRunning? { return Ok(None); }
      if !record.status.TaskPending? { return Fail(NotPending); }
      if record.revision != expected { return Fail(RevisionConflict); }
      SetStatus(TaskRunning);
      return Ok(None);
    }

    method Expire(now: nat) returns (r: Reply)
      requires Valid()
      modifies this`record, this`units
      ensures Valid() && Result(View(), r) == LongTask.Expire(old(View()), now)
    {
      hide Sound, ExpireDeadline;
      Keeps(now, DoExpire);
      if record.status.Terminal() { return Ok(None); }
      if !Late(now) { return Fail(DeadlineNotElapsed); }
      r := ExpireTask();
    }

    method Pause(expected: Option<nat>, reason: string) returns (r: Reply)
      requires Valid()
      modifies this`record, this`units
      ensures Valid() && Result(View(), r) == LongTask.Pause(old(View()), expected, reason)
    {
      hide Sound, ReleaseAll;
      Keeps(0, DoPause(expected, reason));
      if expected.Some? && record.revision != expected.value { return Fail(RevisionConflict); }
      if record.status.TaskPaused? { return Ok(None); }
      if !record.status.TaskPending? && !record.status.TaskRunning? { return Fail(CannotPause); }
      ReleaseActive(if reason == "" then "execution_paused" else reason);
      return Ok(None);
    }

    method Resume(asked: nat) returns (r: Reply)
      requires Valid()
      modifies this`record, this`units
      ensures Valid() && Result(View(), r) == LongTask.Resume(old(View()), asked)
    {
      hide Sound, Count, Sweep;
      Keeps(0, DoResume(asked));
      if record.status.TaskRunning? { return Ok(None); }
      if !record.status.TaskPaused? && !record.status.TaskFailed? { return Fail(CannotResume); }
      var targets := CountUnits(IsRecoverable());
      var blocked := CountUnits(IsBlocked());
      var extra := asked;
      if blocked > 0 && blocked == targets && extra == 0 { extra := 1; }
      if targets > 0 && extra == 0 { return Fail(NeedsAttempts); }
      if targets == 0 && extra > 0 { return Fail(NoAttemptsNeeded); }
      SweepUnits(ReviveUnit(extra));
      record := record.(failed := 0);
      SetStatus(TaskRunning);
      return Ok(None);
    }

    method Cancel() returns (r: Reply)
      requires Valid()
      modifies this`record, this`units
      ensures Valid() && Result(View(), r) == LongTask.Cancel(old(View()))
    {
      hide Sound, CancelAll;
      Keeps(0, DoCancel);
      if record.status.TaskCanceled? { return Ok(None); }
      if record.status.Terminal() { return Fail(CannotCancel); }
      CancelTask();
      return Ok(None);
    }

    method RequestCancel(at: nat) returns (r: Reply)
      requires Valid()
      modifies this`record
      ensures Valid() && Result(View(), r) == LongTask.RequestCancel(old(View()), at)
    {
      hide Sound;
      Keeps(0, DoRequestCancel(Some(at)));
      if record.status.Terminal() { return Ok(None); }
      if record.cancelRequestedAt.None? {
        record := record.(cancelRequestedAt := Some(at));
        Touch();
      }
      return Ok(None);
    }

    method FinalizeIfComplete(now: nat) returns (r: Reply)
      requires Valid()
      modifies this`record, this`units
      ensures Valid() && Result(View(), r) == Finalize(old(View()), now)
    {
      hide Sound, ExpireDeadline, CancelAll, LongTask.FailTask, HasRunnableWork, AnyUnit;
      Keeps(now, DoFinalize);
      if Late(now) { r := ExpireTask(); return; }
      if record.cancelRequestedAt.Some? { CancelTask(); return Ok(None); }
      if !record.status.TaskRunning? { return Ok(None); }
      var failed := FindUnit(RequiredFailed());
      if failed < |units| { SetStatus(TaskFailed); return Ok(None); }
      var stranded := FindUnit(RequiredOpen());
      if stranded == |units| { SetStatus(TaskCompleted); return Ok(None); }
      var runnable := RunnableWork(now);
      if runnable { return Ok(None); }
      var blocked := FindUnit(RequiredBlocked());
      if blocked < |units| { SetStatus(TaskPaused); return Ok(None); }
      var id := units[stranded].id;
      units := units[stranded := Strand(units[stranded])];
      r := FailTask(id);
    }

    method RecoverAfterRestart(wall: nat, reason: string) returns (recovered: bool)
      requires Valid()
      modifies this`record, this`units
      ensures Valid() && Result(View(), Ok(None)) == Recover(old(View()), wall, reason)
      ensures recovered == (old(record.status.TaskRunning?) && !AnyUnit(old(units), HoldsTime(wall)))
    {
      hide Sound, CancelAll, ReleaseAll, AnyUnit;
      Keeps(0, DoRecover(wall, reason));
      if !record.status.TaskRunning? { return false; }
      var held := FindUnit(HoldsTime(wall));
      if held < |units| { return false; }
      if record.cancelRequestedAt.Some? { CancelTask(); }
      else { ReleaseActive(reason); }
      return true;
    }

    method LookUpUsage(run: string) returns (usage: Option<Usage>)
      ensures usage == UsageOf(usages, run)
    {
      var i := |usages|;
      assert usages[..i] == usages;
      while i > 0
        invariant 0 <= i <= |usages| && UsageOf(usages, run) == UsageOf(usages[..i], run)
      {
        assert usages[..i][..i - 1] == usages[..i - 1];
        if usages[i - 1].0 == run { return Some(usages[i - 1].1); }
        i := i - 1;
      }
      return None;
    }

    method AggregateUsage() returns (total: Usage)
      ensures total == Aggregate(usages)
    {
      total := Usage(0, 0, 0, 0, Some(0));
      var i := 0;
      while i < |usages|
        invariant i <= |usages| && total == Aggregate(usages[..i])
      {
        var last := usages[i].1;
        assert usages[..i + 1][..i] == usages[..i];
        total := Usage(total.invocations + last.invocations, total.unreported + last.unreported, total.input + last.input,
                       total.generation + last.generation,
                       if total.reasoning.None? || last.reasoning.None? then None
                       else Some(total.reasoning.value + last.reasoning.value));
        i := i + 1;
      }
      assert usages[..i] == usages;
    }

    method RecordUsage(run: string, usage: Usage, expected: nat) returns (r: Reply)
      requires Valid()
      modifies this
      ensures Valid() && Result(View(), r) == LongTask.RecordUsage(old(View()), run, usage, expected)
    {
      hide Sound, UsageOf, Aggregate, BudgetExhaustion, FailBudget;
      Keeps(0, DoRecordUsage(run, usage, expected));
      var existing := LookUpUsage(run);
      if existing.Some? { return if existing.value == usage then Ok(None) else Fail(UsageConflict); }
      if record.revision != expected { return Fail(RevisionConflict); }
      usages := usages + [(run, usage)];
      var total := AggregateUsage();
      record := record.(usage := total);
      var kind := BudgetExhaustion(record, true);
      if kind.Some? { r := ExhaustBudget(kind.value); return; }
      Touch();
      return Ok(None);
    }

    // ----- claiming ---------------------------------------------------------

    /** The least positioned eligible unit, if any; `only` restricts the choice to one unit. */
    method ChooseUnit(now: nat, only: Option<string>) returns (k: nat)
      ensures k < |units| ==> Chosen(units, now, only, k)
      ensures k == |units| ==> forall j :: 0 <= j < |units| ==> !Eligible(units, now, only, units[j])
      ensures k <= |units|
    {
      var done := CompletedIds();
      k := |units|;
      var i := 0;
      while i < |units|
        invariant i <= |units| && (k < i || k == |units|)
        invariant k == |units| ==> forall j :: 0 <= j < i ==> !Eligible(units, now, only, units[j])
        invariant k < |units| ==> Eligible(units, now, only, units[k])
        invariant k < |units| ==> forall j :: 0 <= j < i && Eligible(units, now, only, units[j]) ==>
          units[k].position < units[j].position || (units[k].position == units[j].position && k <= j)
      {
        var u := units[i];
        var ready := forall d :: d in u.dependencies ==> d in done;
        var eligible := (only.Some? ==> u.id == only.value)
          && (u.status.Waiting() || (u.status.Leased() && ExpiresAt(u) <= now)) && u.attempt < u.maxAttempts && ready;
        assert eligible == Eligible(units, now, only, u);
        if eligible && (k == |units| || u.position < units[k].position) { k := i; }
        i := i + 1;
      }
    }

    /** Expired leases without attempts left; true when the task goes on. */
    method ExhaustLeases(now: nat) returns (goesOn: bool, r: Reply)
      modifies this`record, this`units
      ensures Result(View(), r) == Exhaust(old(View()), now)
      ensures goesOn == (First(old(units), ExhaustedRequired(now)) == |old(units)|)
      ensures goesOn ==> r == Ok(None)
    {
      hide LongTask.FailTask, Sweep, Exhausted, ExhaustedRequired;
      var any := FindUnit(Exhausted(now));
      var failed := FindUnit(ExhaustedRequired(now));
      RequiredIsExhausted(units, now);
      if any == |units| { return true, Ok(None); }
      var id := if failed < |units| then units[failed].id else "";
      goesOn := failed == |units|;
      SweepUnits(ExhaustUnit(now));
      if !goesOn { r := FailTask(id); return; }
      Touch();
      r := Ok(None);
    }

    lemma RequiredIsExhausted(units: seq<Unit>, now: nat)
      ensures First(units, Exhausted(now)) == |units| ==> First(units, ExhaustedRequired(now)) == |units|
    {
      var k := First(units, ExhaustedRequired(now));
      assert k < |units| ==> Exhausted(now)(units[k]);
    }

    method ClaimUnit(now: nat, worker: string, duration: pos, only: Option<string>) returns (r: Reply)
      requires Valid()
      modifies this`record, this`units
      ensures Valid() && Result(View(), r) == Claim(old(View()), now, worker, duration, only)
    {
      hide Sound, Exhaust, ExpireDeadline, FailBudget, BudgetExhaustion, ExhaustedRequired, GrantNext;
      Keeps(now, DoClaim(worker, duration, only));
      if Late(now) { r := ExpireTask(); return; }
      var kind := BudgetExhaustion(record, false);
      if kind.Some? { r := ExhaustBudget(kind.value); return; }
      if !record.status.TaskRunning? || record.cancelRequestedAt.Some? { return Ok(None); }
      var goesOn;
      goesOn, r := ExhaustLeases(now);
      if goesOn { r := GrantUnit(now, worker, duration, only); }
    }

    method GrantUnit(now: nat, worker: string, duration: pos, only: Option<string>) returns (r: Reply)
      modifies this`record, this`units
      ensures Result(View(), r) == GrantNext(old(View()), now, worker, duration, only)
    {
      hide Eligible;
      var active := CountUnits(Live(now));
      if active >= record.maxParallelism { return Ok(None); }
      var k := ChooseUnit(now, only);
      if k == |units| { return Ok(None); }
      var claimed := Grant(units[k], now, worker, duration);
      assert Chosen(units, now, only, k);
      units := units[k := claimed];
      Touch();
      return Ok(Some(claimed));
    }

    // ----- working on a claimed unit ----------------------------------------

    /** Checks the worker's lease; a passed deadline ends the task instead. */
    method RequireClaim(k: nat, now: nat, worker: string, epoch: nat) returns (fault: Option<Fault>)
      requires k < |units|
      modifies this`record, this`units
      ensures var refused := Refused(old(View()), old(units)[k], now, worker, epoch);
        if fault.Some? then refused == Some(Result(View(), Fail(fault.value)))
        else refused.None? && View() == old(View())
    {
      hide ExpireDeadline;
      if Late(now) {
        var r := ExpireTask();
        return Some(if r.Fail? then r.fault else DeadlineExceeded);
      }
      var u := units[k];
      if !record.status.TaskRunning? || !u.status.Leased() || u.worker != Some(worker) || u.epoch != epoch
         || u.expires.None? || u.expires.value <= now {
        return Some(LeaseLost);
      }
      return None;
    }

    method StoreUnit(k: nat, u: Unit)
      requires k < |units|
      modifies this`record, this`units
      ensures View() == Stored(old(View()), k, u).task
    {
      units := units[k := u];
      Touch();
    }

    method BindUnitRun(id: string, now: nat, worker: string, epoch: nat, run: string) returns (r: Reply)
      requires Valid()
      modifies this`record, this`units
      ensures Valid() && Result(View(), r) == Step(old(View()), now, OnUnit(id, worker, epoch, Bind(run)))
    {
      hide Sound, Refused, AnyUnit;
      Keeps(now, OnUnit(id, worker, epoch, Bind(run)));
      var k := FindUnit(Named(id));
      if k == |units| { return Fail(UnitMissing); }
      var fault := RequireClaim(k, now, worker, epoch);
      if fault.Some? { return Fail(fault.value); }
      var u := units[k];
      if u.run.Some? { return if u.run.value != run then Fail(RunConflict) else Ok(Some(u)); }
      var other := FindUnit(UsesRun(u.id, run));
      if other < |units| { return Fail(RunConflict); }
      var bound := u.(status := Running, run := Some(run));
      StoreUnit(k, bound);
      return Ok(Some(bound));
    }

    method RenewUnitLease(id: string, now: nat, worker: string, epoch: nat, duration: pos) returns (r: Reply)
      requires Valid()
      modifies this`record, this`units
      ensures Valid() && Result(View(), r) == Step(old(View()), now, OnUnit(id, worker, epoch, RenewLease(duration)))
    {
      hide Sound, Refused;
      Keeps(now, OnUnit(id, worker, epoch, RenewLease(duration)));
      var k := FindUnit(Named(id));
      if k == |units| { return Fail(UnitMissing); }
      var fault := RequireClaim(k, now, worker, epoch);
      if fault.Some? { return Fail(fault.value); }
      var renewed := units[k].(expires := Some(now + duration));
      StoreUnit(k, renewed);
      return Ok(Some(renewed));
    }

    method UpdateUnitProgress(id: string, now: nat, worker: string, epoch: nat, metadata: map<string, string>)
      returns (r: Reply)
      requires Valid()
      modifies this`record, this`units
      ensures Valid() && Result(View(), r) == Step(old(View()), now, OnUnit(id, worker, epoch, Report(metadata)))
    {
      hide Sound, Refused;
      Keeps(now, OnUnit(id, worker, epoch, Report(metadata)));
      var k := FindUnit(Named(id));
      if k == |units| { return Fail(UnitMissing); }
      var fault := RequireClaim(k, now, worker, epoch);
      if fault.Some? { return Fail(fault.value); }
      var updated := units[k].(metadata := units[k].metadata + metadata);
      StoreUnit(k, updated);
      return Ok(Some(updated));
    }

    method CompleteUnit(id: string, now: nat, worker: string, epoch: nat, output: Output) returns (r: Reply)
      requires Valid()
      modifies this`record, this`units
      ensures Valid() && Result(View(), r) == Step(old(View()), now, OnUnit(id, worker, epoch, CompleteWith(output)))
    {
      hide Sound, Refused, AnyUnit, Refresh;
      Keeps(now, OnUnit(id, worker, epoch, CompleteWith(output)));
      var k := FindUnit(Named(id));
      if k == |units| { return Fail(UnitMissing); }
      var u := units[k];
      if u.status.Completed? {
        return if u.epoch == epoch && u.settledBy == Some(worker) && Matches(u, output) then Ok(None) else Fail(LeaseLost);
      }
      var fault := RequireClaim(k, now, worker, epoch);
      if fault.Some? { return Fail(fault.value); }
      if u.run.Some? && output.run.Some? && output.run != u.run { return Fail(RunConflict); }
      var done := Done(u, worker, output);
      if done.run.Some? {
        var other := FindUnit(UsesRun(u.id, done.run.value));
        if other < |units| { return Fail(RunConflict); }
      }
      units := units[k := done];
      r := RefreshTotals(record.status);
    }

    method SettleUnitFailure(id: string, now: nat, worker: string, epoch: nat, decision: Decision) returns (r: Reply)
      requires Valid()
      modifies this`record, this`units
      ensures Valid() && Result(View(), r) == Step(old(View()), now, OnUnit(id, worker, epoch, SettleWith(decision)))
    {
      hide Sound, Refused, HasRunnableWork, CancelAll, LongTask.FailTask, ReleaseAll;
      Keeps(now, OnUnit(id, worker, epoch, SettleWith(decision)));
      var k := FindUnit(Named(id));
      if k == |units| { return Fail(UnitMissing); }
      var fault := RequireClaim(k, now, worker, epoch);
      if fault.Some? { return Fail(fault.value); }
      var unitId, target := units[k].id, Target(decision.disposition);
      units := units[k := Settled(units[k], decision)];
      if target.Canceled? { CancelTask(); return Ok(None); }
      if target.Failed? { r := FailTask(unitId); return; }
      var runnable := RunnableWork(now);
      if target.Blocked? && (decision.systemic || !runnable) { ReleaseActive(decision.code); return Ok(None); }
      Touch();
      return Ok(None);
    }

    method InterruptUnit(id: string, now: nat, worker: string, epoch: nat, reason: string) returns (r: Reply)
      requires Valid()
      modifies this`record, this`units
      ensures Valid() && Result(View(), r) == Step(old(View()), now, OnUnit(id, worker, epoch, InterruptFor(reason)))
    {
      hide Sound, Refused;
      Keeps(now, OnUnit(id, worker, epoch, InterruptFor(reason)));
      var k := FindUnit(Named(id));
      if k == |units| { return Fail(UnitMissing); }
      var fault := RequireClaim(k, now, worker, epoch);
      if fault.Some? { return Fail(fault.value); }
      var u := units[k];
      units := units[k := Released(u, Pending).(maxAttempts := u.maxAttempts + 1, error := Some(reason))];
      SetStatus(TaskPaused);
      return Ok(None);
    }

    // ----- splitting a unit -------------------------------------------------

    /** The children as units; none if one of them would wait for the parent. */
    method MakeChildren(parent: Unit, children: seq<Spec>) returns (made: Option<seq<Unit>>)
      ensures made == if AnyUnit(ChildUnits(parent, children), Mentions(parent.id)) then None
                      else Some(ChildUnits(parent, children))
    {
      var list: seq<Unit> := [];
      var i := 0;
      ghost var all := ChildUnits(parent, children);
      while i < |children|
        invariant i <= |children| && list == all[..i]
        invariant forall j :: 0 <= j < i ==> !Mentions(parent.id)(all[j])
      {
        var child := ChildUnit(parent, children[i]);
        assert all[i] == child;
        if parent.id in child.dependencies {
          assert Mentions(parent.id)(all[i]);
          return None;
        }
        assert all[..i + 1] == all[..i] + [all[i]];
        list := list + [child];
        i := i + 1;
      }
      assert all[..i] == all;
      return Some(list);
    }

    /** Redirects every unit that waits for the parent to its replacements; none if there is nothing to wait for instead. */
    method RewireDownstream(all: seq<Unit>, parent: string, replacements: seq<string>) returns (r: Option<seq<Unit>>)
      ensures r == if AnyUnit(all, WaitsFor(parent)) && replacements == [] then None
                   else Some(Sweep(all, Rewire(parent, replacements)))
      ensures r.Some? ==> |r.value| == |all|
    {
      var list := all;
      var i := 0;
      while i < |all|
        invariant i <= |all| == |list|
        invariant forall j :: 0 <= j < i ==> list[j] == Rewire(parent, replacements)(all[j])
        invariant forall j :: i <= j < |all| ==> list[j] == all[j]
        invariant replacements == [] ==> forall j :: 0 <= j < i ==> !WaitsFor(parent)(all[j])
      {
        if all[i].id != parent && parent in all[i].dependencies {
          if replacements == [] {
            assert WaitsFor(parent)(all[i]);
            return None;
          }
          list := list[i := all[i].(dependencies := Dedupe(Replaced(all[i].dependencies, parent, replacements)))];
        }
        i := i + 1;
      }
      assert list == Sweep(all, Rewire(parent, replacements));
      return Some(list);
    }

    /** The children do not wait for the parent, so only old units can. */
    lemma OnlyOldUnitsWait(us: seq<Unit>, made: seq<Unit>, parent: string)
      requires !AnyUnit(made, Mentions(parent))
      ensures AnyUnit(us + made, WaitsFor(parent)) == AnyUnit(us, WaitsFor(parent))
    {
      var all := us + made;
      forall j | 0 <= j < |made| ensures !WaitsFor(parent)(made[j]) { assert !Mentions(parent)(made[j]); }
      if AnyUnit(all, WaitsFor(parent)) {
        var k :| 0 <= k < |all| && WaitsFor(parent)(all[k]);
        assert WaitsFor(parent)(us[k]);
      }
      if AnyUnit(us, WaitsFor(parent)) {
        var k :| 0 <= k < |us| && WaitsFor(parent)(us[k]);
        assert WaitsFor(parent)(all[k]);
      }
    }

    lemma ProspectIsNamed(k: nat, split: Split)
      requires Valid() && k < |units| && ValidSplit(split) && !ChildClashes(units, split.children)
      ensures Distinct(UnitIds(Prospect(units, units[k], split)))
    {
      var prospect := Prospect(units, units[k], split);
      var after := LongTaskSteps.Expanding(units, k, split, "", Decision("", SplitPart, false));
      LongTaskSteps.ExpandingNames(units, k, split, "", Decision("", SplitPart, false));
      assert UnitIds(prospect) == UnitIds(after);
    }

    method CheckAcyclic(all: seq<Unit>) returns (ok: bool)
      requires Distinct(UnitIds(all))
      ensures ok == Acyclic(all)
    {
      ok := DependencyGraph.Validate(UnitIds(all), KnownDependencies(all));
    }

    method ExpandUnit(id: string, now: nat, worker: string, epoch: nat, split: Split, decision: Decision) returns (r: Reply)
      requires Valid() && ValidSplit(split)
      modifies this`record, this`units
      ensures Valid()
      ensures Result(View(), r) == Step(old(View()), now, OnUnit(id, worker, epoch, ExpandInto(split, decision)))
    {
      hide Sound, Refused, AnyUnit, Refresh, Acyclic, ChildClashes, ChildUnits, Sweep, Distinct, ValidSplit;
      if !decision.disposition.SplitPart? { return Fail(NotASplit); }
      if split.children == [] { return Fail(NoChildren); }
      Keeps(now, OnUnit(id, worker, epoch, ExpandInto(split, decision)));
      var k := FindUnit(Named(id));
      if k == |units| { return Fail(UnitMissing); }
      var parent := units[k];
      if parent.status.Expanded? {
        return if parent.epoch == epoch && parent.settledBy == Some(worker) then Ok(None) else Fail(LeaseLost);
      }
      var fault := RequireClaim(k, now, worker, epoch);
      if fault.Some? { return Fail(fault.value); }
      if ChildClashes(units, split.children) { return Fail(ChildConflict); }
      ProspectIsNamed(k, split);
      var made := MakeChildren(parent, split.children);
      if made.None? { return Fail(DependsOnParent); }
      OnlyOldUnitsWait(units, made.value, parent.id);
      var prospect := RewireDownstream(units + made.value, parent.id, split.replacements);
      if prospect.None? { return Fail(NoReplacement); }
      var acyclic := CheckAcyclic(prospect.value);
      if !acyclic { return Fail(DependencyCycle); }
      units := prospect.value[k := Expansion(parent, worker, decision)];
      r := RefreshTotals(record.status);
    }
  }
}
