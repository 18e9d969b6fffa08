/** Every step of a long task keeps the invariant and raises the revision when it changes the task. */
module LongTaskSteps {
  import opened Prelude
  import opened LongTask
  import opened LongTaskInvariant

  /** A step that changes the record or the units raises the revision, unless the new record is invalid:
      then the units have changed but the record is kept. */
  ghost predicate Advances(t: Task, r: Result) {
    if r.reply == Fail(InvalidRecord) then
      !HasRequired(r.task.units) && r.task.record.revision == t.record.revision
    else
      (r.task.record == t.record && r.task.units == t.units) || r.task.record.revision > t.record.revision
  }

  ghost predicate Fine(t: Task, r: Result) { Sound(r.task) && Advances(t, r) }

  // ----- the record helpers -------------------------------------------------

  lemma StandingStill(t: Task, r: Result)
    requires Sound(t) && r.task == t && r.reply != Fail(InvalidRecord)
    ensures Fine(t, r)
  {
  }

  lemma Refreshing(t: Task, status: TaskStatus)
    ensures var r := Refresh(t, status);
      && r.task.units == t.units && r.task.usages == t.usages && r.task.record.usage == t.record.usage
      && (HasRequired(t.units) ==>
            r.reply == Ok(None) && Counted(r.task) && r.task.record.status == status
            && r.task.record.revision > t.record.revision)
      && (!HasRequired(t.units) ==> r.task == t && r.reply == Fail(InvalidRecord))
  {
  }

  /** Units swept and recounted. */
  lemma RefreshIsFine(t: Task, s: Task, status: TaskStatus)
    requires UsageSound(s) && s.record.revision == t.record.revision
    requires UnitsSound(s.units) && StatusSound(status, s.units) && StatusSound(s.record.status, s.units)
    ensures Fine(t, Refresh(s, status))
  {
    hide UnitsSound, StatusSound, HasRequired;
    Refreshing(s, status);
  }

  /** A new status over units whose totals did not change. */
  lemma StatusIsFine(t: Task, s: Task, status: TaskStatus)
    requires UsageSound(s) && s.record.revision >= t.record.revision
    requires (s.record == t.record && s.units == t.units) || s.record.revision > t.record.revision || status != s.record.status
    requires UnitsSound(s.units) && StatusSound(status, s.units) && (HasRequired(s.units) ==> Counted(s))
    ensures Fine(t, Result(SetStatus(s, status), Ok(None)))
  {
    hide UnitsSound, StatusSound, HasRequired;
  }

  lemma TouchIsFine(t: Task, s: Task, reply: Option<Unit>)
    requires UsageSound(s) && s.record.revision >= t.record.revision
    requires UnitsSound(s.units) && StatusSound(s.record.status, s.units) && (HasRequired(s.units) ==> Counted(s))
    ensures Fine(t, Result(Touch(s), Ok(reply)))
  {
    hide UnitsSound, StatusSound, HasRequired;
  }

  lemma CountsCarryOver(t: Task, s: Task)
    requires SameTotals(t.units, s.units)
    requires s.record.total == t.record.total && s.record.completed == t.record.completed && s.record.failed == t.record.failed
    requires HasRequired(t.units) ==> Counted(t)
    ensures HasRequired(s.units) ==> Counted(s)
  {
    SameTotalsCount(t.units, s.units);
  }

  /** Terminal units do not move. */
  ghost predicate TerminalStay(us: seq<Unit>, vs: seq<Unit>) {
    |us| == |vs| && forall k :: 0 <= k < |us| && us[k].status.Terminal() ==> vs[k] == us[k]
  }

  lemma StatusStaysSound(status: TaskStatus, us: seq<Unit>, vs: seq<Unit>)
    requires StatusSound(status, us) && TerminalStay(us, vs) && forall k :: 0 <= k < |us| ==> us[k].required == vs[k].required
    ensures StatusSound(status, vs)
  {
  }

  lemma MilderRequired(us: seq<Unit>, vs: seq<Unit>)
    requires AllMilder(us, vs)
    ensures forall k :: 0 <= k < |us| ==> us[k].required == vs[k].required
  {
    forall k | 0 <= k < |us| ensures us[k].required == vs[k].required { assert Milder(us[k], vs[k]); }
  }

  // ----- whole-task endings -------------------------------------------------

  /** Sweeping open units to an end and recounting. */
  lemma SweepIsFine(t: Task, vs: seq<Unit>, status: TaskStatus)
    requires Sound(t) && AllMilder(t.units, vs) && TerminalStay(t.units, vs) && !status.TaskCanceled? && !status.TaskCompleted?
    ensures Fine(t, Refresh(t.(units := vs), status))
  {
    hide UnitsSound, AllMilder, TerminalStay, UsageSound, HasRequired;
    MilderKeepsSound(t.units, vs);
    MilderRequired(t.units, vs);
    StatusStaysSound(t.record.status, t.units, vs);
    assert UsageSound(t.(units := vs)) by { SameUsage(t, t.(units := vs)); }
    RefreshIsFine(t, t.(units := vs), status);
  }

  lemma SameUsage(t: Task, s: Task)
    requires UsageSound(t) && s.usages == t.usages && s.record.usage == t.record.usage
    ensures UsageSound(s)
  {
  }

  lemma ExpiryIsFine(t: Task)
    requires Sound(t)
    ensures Fine(t, ExpireDeadline(t))
  {
    ExpiringIsMild(t.units);
    assert TerminalStay(t.units, Sweep(t.units, ExpireUnit()));
    hide Sound, Fine, AllMilder, TerminalStay;
    SweepIsFine(t, Sweep(t.units, ExpireUnit()), TaskFailed);
  }

  lemma BudgetFailureIsFine(t: Task, kind: string)
    requires Sound(t)
    ensures Fine(t, FailBudget(t, kind))
  {
    var vs := Sweep(t.units, BudgetUnit(t.record.pauseOnBudget, kind));
    BudgetIsMild(t.units, t.record.pauseOnBudget, kind);
    assert TerminalStay(t.units, vs);
    hide Sound, Fine, AllMilder, TerminalStay;
    SweepIsFine(t, vs, if t.record.pauseOnBudget then TaskPaused else TaskFailed);
  }

  lemma CancelingKeepsTotals(units: seq<Unit>)
    ensures SameTotals(units, Sweep(units, CancelUnit())) && StatusSound(TaskCanceled, Sweep(units, CancelUnit()))
  {
  }

  lemma CanceledStandsStill(t: Task)
    requires t.record.status.TaskCanceled? && StatusSound(TaskCanceled, t.units)
    ensures CancelAll(t) == t
  {
    assert Sweep(t.units, CancelUnit()) == t.units;
  }

  lemma CancelIsFine(t: Task)
    requires Sound(t)
    ensures Fine(t, Result(CancelAll(t), Ok(None)))
  {
    var s := t.(units := Sweep(t.units, CancelUnit()));
    CancelIsMild(t.units);
    CancelingKeepsTotals(t.units);
    if t.record.status.TaskCanceled? {
      CanceledStandsStill(t);
      StandingStill(t, Result(t, Ok(None)));
    } else {
      hide UnitsSound, AllMilder, SameTotals, HasRequired, StatusSound;
      MilderKeepsSound(t.units, s.units);
      CountsCarryOver(t, s);
      StatusIsFine(t, s, TaskCanceled);
    }
  }

  lemma ReleasingKeepsTotals(units: seq<Unit>, reason: string)
    ensures SameTotals(units, Sweep(units, ReleaseUnit(reason)))
  {
  }

  lemma ReleaseIsFine(t: Task, reason: string)
    requires Sound(t) && !t.record.status.TaskPaused?
    ensures Fine(t, Result(ReleaseAll(t, reason), Ok(None)))
  {
    var s := t.(units := Sweep(t.units, ReleaseUnit(reason)));
    ReleasingIsMild(t.units, reason);
    ReleasingKeepsTotals(t.units, reason);
    assert StatusSound(TaskPaused, s.units);
    hide UnitsSound, AllMilder, SameTotals, HasRequired, StatusSound;
    MilderKeepsSound(t.units, s.units);
    CountsCarryOver(t, s);
    StatusIsFine(t, s, TaskPaused);
  }

  // ----- steps of the task --------------------------------------------------

  /** Only the status changes. */
  lemma PlainStatusIsFine(t: Task, status: TaskStatus)
    requires Sound(t) && StatusSound(status, t.units)
    ensures Fine(t, Result(SetStatus(t, status), Ok(None)))
  {
    hide UnitsSound, StatusSound, HasRequired;
    StatusIsFine(t, t, status);
  }

  lemma RevivingEmptiesFailures(t: Task, extra: nat)
    requires HasRequired(t.units) ==> Counted(t)
    ensures var s := t.(units := Sweep(t.units, ReviveUnit(extra)), record := t.record.(failed := 0));
      HasRequired(s.units) ==> Counted(s)
  {
    var vs := Sweep(t.units, ReviveUnit(extra));
    CountsAgree(t.units, vs, Required());
    CountsAgree(t.units, vs, RequiredCompleted());
    CountIsZero(vs, RequiredFailed());
  }

  lemma ResumeIsFine(t: Task, asked: nat)
    requires Sound(t)
    ensures Fine(t, Resume(t, asked))
  {
    var extra := GrantedAttempts(t.units, asked);
    var s := t.(units := Sweep(t.units, ReviveUnit(extra)), record := t.record.(failed := 0));
    StandingStill(t, Result(t, Ok(None)));
    RevivingIsMild(t.units, extra);
    RevivingEmptiesFailures(t, extra);
    assert StatusSound(TaskRunning, s.units);
    hide UnitsSound, AllMilder, HasRequired, StatusSound, GrantedAttempts, Sweep;
    if (t.record.status.TaskPaused? || t.record.status.TaskFailed?) {
      MilderKeepsSound(t.units, s.units);
      StatusIsFine(t, s, TaskRunning);
    }
  }

  lemma UsageIsFine(t: Task, run: string, usage: Usage, expected: nat)
    requires Sound(t)
    ensures Fine(t, RecordUsage(t, run, usage, expected))
  {
    StandingStill(t, Result(t, Ok(None)));
    if UsageOf(t.usages, run).None? {
      var usages := t.usages + [(run, usage)];
      var s := t.(usages := usages, record := t.record.(usage := Aggregate(usages)));
      NewUsageIsSound(t, run, usage);
      hide UnitsSound, HasRequired, StatusSound, UsageOf, UsageSound, BudgetExhaustion;
      var kind := BudgetExhaustion(s.record, true);
      if kind.Some? { BudgetFailureIsFine(s, kind.value); }
      else { TouchIsFine(t, s, None); }
    }
  }

  lemma {:induction false} NoUsageYet(usages: seq<(string, Usage)>, run: string)
    ensures UsageOf(usages, run).None? <==> forall k :: 0 <= k < |usages| ==> usages[k].0 != run
  {
    if usages != [] { NoUsageYet(usages[..|usages| - 1], run); }
  }

  lemma NewUsageIsSound(t: Task, run: string, usage: Usage)
    requires UsageSound(t) && UsageOf(t.usages, run).None?
    ensures var usages := t.usages + [(run, usage)];
      UsageSound(t.(usages := usages, record := t.record.(usage := Aggregate(usages))))
  {
    NoUsageYet(t.usages, run);
  }

  lemma NoneOpen(t: Task)
    requires !AnyUnit(t.units, RequiredOpen())
    ensures StatusSound(TaskCompleted, t.units)
  {
    forall k | 0 <= k < |t.units| && t.units[k].required ensures t.units[k].status.Completed? {
      assert !RequiredOpen()(t.units[k]);
    }
  }

  /** A running task fails after one of its units changed. */
  lemma PutThenFailIsFine(t: Task, s: Task, failed: string)
    requires UsageSound(s) && UnitsSound(s.units) && s.record.status.TaskRunning? && s.record.revision == t.record.revision
    ensures Fine(t, FailTask(s, failed))
  {
    var vs := Sweep(s.units, CancelUnless(failed));
    FailingIsMild(s.units, failed);
    assert StatusSound(TaskFailed, vs) && StatusSound(TaskRunning, vs);
    hide UnitsSound, AllMilder, HasRequired, StatusSound, UsageSound, Fine, Sweep;
    MilderKeepsSound(s.units, vs);
    SameUsage(s, s.(units := vs));
    RefreshIsFine(t, s.(units := vs), TaskFailed);
  }

  lemma StrandIsFine(t: Task, k: nat)
    requires Sound(t) && t.record.status.TaskRunning? && k < |t.units| && RequiredOpen()(t.units[k])
    ensures Fine(t, FailTask(t.(units := t.units[k := Strand(t.units[k])]), t.units[k].id))
  {
    var s := t.(units := t.units[k := Strand(t.units[k])]);
    assert AllOk(t.units) && UnitOk(t.units[k]);
    assert Milder(t.units[k], Strand(t.units[k]));
    hide UnitsSound, AllMilder, HasRequired, StatusSound, Fine, Milder, UsageSound;
    PutMilder(t.units, k, Strand(t.units[k]));
    MilderKeepsSound(t.units, s.units);
    SameUsage(t, s);
    PutThenFailIsFine(t, s, t.units[k].id);
  }

  lemma FinalizeIsFine(t: Task, now: nat)
    requires Sound(t)
    ensures Fine(t, Finalize(t, now))
  {
    hide Sound, Fine, HasRunnableWork, AnyUnit, ExpireDeadline, CancelAll, FailTask, SetStatus, Strand, Required, StatusSound;
    StandingStill(t, Result(t, Ok(None)));
    ExpiryIsFine(t);
    CancelIsFine(t);
    FinalStatuses(t);
    var k := First(t.units, RequiredOpen());
    if t.record.status.TaskRunning? && k < |t.units| { StrandIsFine(t, k); }
  }

  lemma FinalStatuses(t: Task)
    requires Sound(t)
    ensures Fine(t, Result(SetStatus(t, TaskFailed), Ok(None)))
    ensures Fine(t, Result(SetStatus(t, TaskPaused), Ok(None)))
    ensures Fine(t, Result(SetStatus(t, TaskRunning), Ok(None)))
    ensures !AnyUnit(t.units, RequiredOpen()) ==> Fine(t, Result(SetStatus(t, TaskCompleted), Ok(None)))
  {
    hide Fine, UnitsSound, HasRequired, UsageSound;
    PlainStatusIsFine(t, TaskFailed);
    PlainStatusIsFine(t, TaskPaused);
    PlainStatusIsFine(t, TaskRunning);
    if !AnyUnit(t.units, RequiredOpen()) {
      NoneOpen(t);
      PlainStatusIsFine(t, TaskCompleted);
    }
  }

  /** The steps that concern the task as a whole. */
  lemma TaskStepIsFine(t: Task, now: nat, op: Op)
    requires Sound(t) && !op.DoClaim? && !op.OnUnit?
    ensures Fine(t, Step(t, now, op))
  {
    hide Sound, Fine, AnyUnit, ExpireDeadline, CancelAll, SetStatus, ReleaseAll, Finalize, Resume, RecordUsage;
    ExpiryIsFine(t);
    CancelIsFine(t);
    FinalStatuses(t);
    if !t.record.status.TaskPaused? { ReleaseIsFine(t, if op.DoPause? && op.why == "" then "execution_paused"
                                                       else if op.DoPause? || op.DoRecover? then op.why else ""); }
    FinalizeIsFine(t, now);
    if op.DoResume? { ResumeIsFine(t, op.extra); }
    if op.DoRecordUsage? { UsageIsFine(t, op.run, op.usage, op.expected); }
    if op.DoRequestCancel? { RequestIsFine(t, if op.at.Some? then op.at.value else now); }
    StandingIsFine(t);
  }

  lemma StandingIsFine(t: Task)
    requires Sound(t)
    ensures forall reply: Outcome<Option<Unit>, Fault> {:trigger Result(t, reply)} ::
              reply != Fail(InvalidRecord) ==> Fine(t, Result(t, reply))
  {
  }

  lemma RequestIsFine(t: Task, at: nat)
    requires Sound(t)
    ensures Fine(t, RequestCancel(t, at))
  {
    hide UnitsSound, HasRequired, StatusSound;
    StandingStill(t, Result(t, Ok(None)));
    TouchIsFine(t, t.(record := t.record.(cancelRequestedAt := Some(at))), None);
  }

  // ----- claiming -----------------------------------------------------------

  lemma ExhaustingOptionalKeepsTotals(units: seq<Unit>, now: nat)
    requires First(units, ExhaustedRequired(now)) == |units|
    ensures SameTotals(units, Sweep(units, ExhaustUnit(now)))
  {
    forall k | 0 <= k < |units| && Exhausted(now)(units[k]) ensures !units[k].required {
      assert !ExhaustedRequired(now)(units[k]);
    }
  }

  lemma ExhaustIsFine(t: Task, now: nat)
    requires Sound(t) && t.record.status.TaskRunning?
    ensures Fine(t, Exhaust(t, now))
    ensures First(t.units, ExhaustedRequired(now)) == |t.units| ==>
      var s := Exhaust(t, now).task;
      Sound(s) && s.record.status.TaskRunning? && s.record.revision >= t.record.revision
      && (s.record.revision > t.record.revision || s == t)
  {
    var s := t.(units := Sweep(t.units, ExhaustUnit(now)));
    ExhaustingIsMild(t.units, now);
    assert StatusSound(t.record.status, s.units);
    StandingStill(t, Result(t, Ok(None)));
    if First(t.units, ExhaustedRequired(now)) == |t.units| { ExhaustingOptionalKeepsTotals(t.units, now); }
    hide UnitsSound, AllMilder, HasRequired, StatusSound, SameTotals, Sweep, UsageSound, Exhausted, ExhaustedRequired, FailTask;
    MilderKeepsSound(t.units, s.units);
    SameUsage(t, s);
    var failed := First(t.units, ExhaustedRequired(now));
    if failed < |t.units| { PutThenFailIsFine(t, s, t.units[failed].id); }
    else {
      CountsCarryOver(t, s);
      TouchIsFine(t, s, None);
    }
  }

  /** A unit that is neither completed nor failed, before and after, does not count. */
  lemma PutKeepsTotals(us: seq<Unit>, k: nat, v: Unit)
    requires k < |us| && v.required == us[k].required
    requires !us[k].status.Completed? && !us[k].status.Failed? && !v.status.Completed? && !v.status.Failed?
    ensures SameTotals(us, us[k := v])
  {
  }

  /** A unit of a running task changes without being completed or failed. */
  lemma PutIsFine(t: Task, k: nat, v: Unit)
    requires Sound(t) && t.record.status.TaskRunning? && k < |t.units| && Moved(t.units, t.units[k], v)
    requires v.run == t.units[k].run || v.run.None? || !AnyUnit(t.units, UsesRun(v.id, v.run.value))
    requires v.required == t.units[k].required
    requires !t.units[k].status.Completed? && !t.units[k].status.Failed? && !v.status.Completed? && !v.status.Failed?
    ensures Sound(Put(t, k, v)) && Put(t, k, v).record == t.record
    ensures Fine(t, Stored(t, k, v)) && Fine(t, Result(Touch(Put(t, k, v)), Ok(None)))
  {
    var s := Put(t, k, v);
    hide UnitsSound, HasRequired, SameTotals, UsageSound, Moved, AnyUnit;
    PutKeepsSound(t.units, k, v);
    PutKeepsTotals(t.units, k, v);
    CountsCarryOver(t, s);
    SameUsage(t, s);
    TouchIsFine(t, s, None);
    TouchIsFine(t, s, Some(v));
  }

  lemma GrantIsMove(units: seq<Unit>, now: nat, worker: string, duration: pos, only: Option<string>, u: Unit)
    requires Eligible(units, now, only, u)
    ensures Moved(units, u, Grant(u, now, worker, duration)) && !u.status.Completed? && !u.status.Failed?
  {
  }

  lemma GrantIsFine(t: Task, now: nat, worker: string, duration: pos, only: Option<string>)
    requires Sound(t) && t.record.status.TaskRunning?
    ensures Fine(t, GrantNext(t, now, worker, duration, only))
  {
    StandingStill(t, Result(t, Ok(None)));
    if k: nat :| k < |t.units| && Chosen(t.units, now, only, k) {
      forall j: nat | j < |t.units| && Chosen(t.units, now, only, j)
        ensures Fine(t, Stored(t, j, Grant(t.units[j], now, worker, duration)))
      {
        GrantIsMove(t.units, now, worker, duration, only, t.units[j]);
        hide Sound, Fine, Moved;
        PutIsFine(t, j, Grant(t.units[j], now, worker, duration));
      }
    }
    hide Sound, Fine, Chosen, Live;
  }

  lemma AdvancesTwice(t: Task, s: Task, r: Result)
    requires Fine(s, r) && (s == t || s.record.revision > t.record.revision) && r.reply != Fail(InvalidRecord)
    ensures Fine(t, r)
  {
  }

  lemma ClaimIsFine(t: Task, now: nat, worker: string, duration: pos, only: Option<string>)
    requires Sound(t)
    ensures Fine(t, Claim(t, now, worker, duration, only))
  {
    hide Sound, Fine, ExpireDeadline, FailBudget, BudgetExhaustion, Exhaust, GrantNext, First;
    StandingIsFine(t);
    ExpiryIsFine(t);
    var kind := BudgetExhaustion(t.record, false);
    if kind.Some? { BudgetFailureIsFine(t, kind.value); }
    if t.record.status.TaskRunning? {
      ExhaustIsFine(t, now);
      if First(t.units, ExhaustedRequired(now)) == |t.units| {
        var s := Exhaust(t, now).task;
        GrantIsFine(s, now, worker, duration, only);
        GrantsAreValid(s, now, worker, duration, only);
        AdvancesTwice(t, s, GrantNext(s, now, worker, duration, only));
      }
    }
  }

  lemma GrantsAreValid(t: Task, now: nat, worker: string, duration: pos, only: Option<string>)
    ensures GrantNext(t, now, worker, duration, only).reply.Ok?
  {
  }

  // ----- working on a unit --------------------------------------------------

  lemma RefusalIsFine(t: Task, u: Unit, now: nat, worker: string, epoch: nat)
    requires Sound(t)
    ensures var refused := Refused(t, u, now, worker, epoch);
      && (refused.Some? ==> Fine(t, refused.value))
      && (refused.None? ==> HoldsLease(t, u, now, worker, epoch))
  {
    StandingIsFine(t);
    ExpiryIsFine(t);
    hide Sound, HasRequired, ExpireDeadline;
  }

  lemma LeasedIsMove(t: Task, k: nat, v: Unit)
    requires Sound(t) && k < |t.units| && t.units[k].status.Leased() && UnitOk(v)
    requires v.id == t.units[k].id && v.key == t.units[k].key && v.dependencies == t.units[k].dependencies
    ensures Moved(t.units, t.units[k], v) && UnitOk(t.units[k])
  {
    assert AllOk(t.units) && UnitOk(t.units[k]);
  }

  lemma LeasedUnitOk(t: Task, k: nat)
    requires Sound(t) && k < |t.units|
    ensures UnitOk(t.units[k])
  {
    assert AllOk(t.units);
  }

  lemma LeaseStepIsFine(t: Task, now: nat, k: nat, worker: string, epoch: nat, act: UnitOp)
    requires Sound(t) && k < |t.units| && (act.Bind? || act.RenewLease? || act.Report?)
    ensures Fine(t, UnitStep(t, now, k, worker, epoch, act))
  {
    var u := t.units[k];
    LeasedUnitOk(t, k);
    RefusalIsFine(t, u, now, worker, epoch);
    StandingIsFine(t);
    if Refused(t, u, now, worker, epoch).None? {
      var v := match act
        case Bind(run) => u.(status := Running, run := Some(run))
        case RenewLease(duration) => u.(expires := Some(now + duration))
        case Report(metadata) => u.(metadata := u.metadata + metadata)
        case _ => u;
      LeasedIsMove(t, k, v);
      hide Sound, Fine, Moved, AnyUnit;
      if !act.Bind? || (u.run.None? && !AnyUnit(t.units, UsesRun(u.id, act.run))) { PutIsFine(t, k, v); }
    }
    hide Sound, Fine, Moved, AnyUnit, Refused;
  }

  lemma CompleteIsFine(t: Task, now: nat, k: nat, worker: string, epoch: nat, output: Output)
    requires Sound(t) && k < |t.units|
    ensures Fine(t, Complete(t, now, k, worker, epoch, output))
  {
    var u := t.units[k];
    var v := Done(u, worker, output);
    LeasedUnitOk(t, k);
    RefusalIsFine(t, u, now, worker, epoch);
    StandingIsFine(t);
    if Refused(t, u, now, worker, epoch).None? {
      LeasedIsMove(t, k, v);
      hide UnitsSound, HasRequired, UsageSound, Moved, AnyUnit, Fine, Sound;
      SoundParts(t);
      if v.run.None? || v.run == u.run || !AnyUnit(t.units, UsesRun(u.id, v.run.value)) {
        PutKeepsSound(t.units, k, v);
        SameUsage(t, Put(t, k, v));
        RefreshIsFine(t, Put(t, k, v), t.record.status);
      }
    }
    hide Sound, Fine, Moved, AnyUnit, Refused, Refresh, Done;
  }

  lemma SoundParts(t: Task)
    requires Sound(t)
    ensures UnitsSound(t.units) && UsageSound(t) && StatusSound(t.record.status, t.units)
    ensures HasRequired(t.units) ==> Counted(t)
  {
  }

  lemma InterruptIsFine(t: Task, now: nat, k: nat, worker: string, epoch: nat, reason: string)
    requires Sound(t) && k < |t.units|
    ensures Fine(t, Interrupt(t, now, k, worker, epoch, reason))
  {
    var u := t.units[k];
    var v := Released(u, Pending).(maxAttempts := u.maxAttempts + 1, error := Some(reason));
    LeasedUnitOk(t, k);
    RefusalIsFine(t, u, now, worker, epoch);
    if Refused(t, u, now, worker, epoch).None? {
      LeasedIsMove(t, k, v);
      hide Sound, Fine, Moved, AnyUnit;
      PutIsFine(t, k, v);
      SoundParts(Put(t, k, v));
      StatusIsFine(t, Put(t, k, v), TaskPaused);
    }
    hide Sound, Fine, Moved, AnyUnit, Refused;
  }

  lemma SettledIsMove(t: Task, k: nat, decision: Decision)
    requires Sound(t) && k < |t.units| && t.units[k].status.Leased()
    ensures Moved(t.units, t.units[k], Settled(t.units[k], decision))
  {
    LeasedUnitOk(t, k);
    LeasedIsMove(t, k, Settled(t.units[k], decision));
  }

  lemma SettleIsFine(t: Task, now: nat, k: nat, worker: string, epoch: nat, decision: Decision)
    requires Sound(t) && k < |t.units|
    ensures Fine(t, SettleFailure(t, now, k, worker, epoch, decision))
  {
    var u := t.units[k];
    var v := Settled(u, decision);
    var put := Put(t, k, v);
    RefusalIsFine(t, u, now, worker, epoch);
    if Refused(t, u, now, worker, epoch).None? {
      SettledIsMove(t, k, decision);
      hide Sound, Fine, Moved, AnyUnit, UnitsSound, UsageSound, HasRequired;
      SoundParts(t);
      PutKeepsSound(t.units, k, v);
      SameUsage(t, put);
      if v.status.Failed? { PutThenFailIsFine(t, put, u.id); }
      else {
        PutIsFine(t, k, v);
        CancelIsFine(put);
        ReleaseIsFine(put, decision.code);
        CarriesOver(t, put, Result(CancelAll(put), Ok(None)));
        CarriesOver(t, put, Result(ReleaseAll(put, decision.code), Ok(None)));
      }
    }
    hide Sound, Fine, Moved, AnyUnit, Refused, HasRunnableWork, CancelAll, ReleaseAll, FailTask, Settled;
  }

  /** A step that raised the revision from an intermediate state raised it from the start. */
  lemma CarriesOver(t: Task, s: Task, r: Result)
    requires s.record == t.record && Fine(s, r) && r.reply == Ok(None) && r.task.record.status != s.record.status
    ensures Fine(t, r)
  {
  }

  // ----- splitting ----------------------------------------------------------

  /** The units after an accepted expansion. */
  ghost function Expanding(units: seq<Unit>, k: nat, split: Split, worker: string, decision: Decision): (r: seq<Unit>)
    requires k < |units|
    ensures |r| == |units| + |split.children|
  {
    Prospect(units, units[k], split)[k := Expansion(units[k], worker, decision)]
  }

  /** Each old unit keeps all but its dependencies; each child is a new pending unit. */
  lemma ExpandingShape(units: seq<Unit>, k: nat, split: Split, worker: string, decision: Decision)
    requires k < |units|
    ensures var vs := Expanding(units, k, split, worker, decision);
      && vs[k] == Expansion(units[k], worker, decision)
      && (forall i :: 0 <= i < |units| && i != k ==> vs[i] == units[i].(dependencies := vs[i].dependencies))
      && (forall i :: 0 <= i < |units| && i != k && units[k].id !in units[i].dependencies ==> vs[i] == units[i])
      && (forall i :: |units| <= i < |vs| ==>
            && vs[i].id == split.children[i - |units|].id && vs[i].key == split.children[i - |units|].key
            && vs[i].status.Pending? && vs[i].run.None? && UnitOk(vs[i]))
  {
  }

  lemma NoClash(units: seq<Unit>, children: seq<Spec>, i: nat, j: nat)
    requires !ChildClashes(units, children) && i < |units| && j < |children|
    ensures units[i].id != children[j].id && units[i].key != children[j].key
  {
    assert units[i] in units && children[j] in children;
  }

  lemma ExpandingNames(units: seq<Unit>, k: nat, split: Split, worker: string, decision: Decision)
    requires k < |units| && WellNamed(units) && ValidSplit(split) && !ChildClashes(units, split.children)
    ensures WellNamed(Expanding(units, k, split, worker, decision))
  {
    var vs := Expanding(units, k, split, worker, decision);
    ExpandingShape(units, k, split, worker, decision);
    hide ChildClashes, Expanding, UnitOk;
    var n := |units|;
    forall i, j | 0 <= i < j < |vs| ensures vs[i].id != vs[j].id && vs[i].key != vs[j].key {
      if j < n { assert UnitIds(units)[i] != UnitIds(units)[j] && Keys(units)[i] != Keys(units)[j]; }
      else if i < n { NoClash(units, split.children, i, j - n); }
      else { assert split.children[i - n].id != split.children[j - n].id; }
    }
  }

  lemma ExpandingKeepsDone(units: seq<Unit>, k: nat, split: Split, worker: string, decision: Decision, u: Unit)
    requires k < |units| && units[k].status.Leased() && DependenciesDone(units, u)
    ensures DependenciesDone(Expanding(units, k, split, worker, decision), u)
  {
    var vs := Expanding(units, k, split, worker, decision);
    ExpandingShape(units, k, split, worker, decision);
    forall d | d in u.dependencies ensures DoneIn(vs, d) {
      var i :| 0 <= i < |units| && units[i].id == d && units[i].status.Completed?;
      assert vs[i].id == d && vs[i].status.Completed?;
    }
  }

  /** A started unit does not wait for a unit that is still leased. */
  lemma StartedDoesNotWait(units: seq<Unit>, k: nat, i: nat)
    requires WellNamed(units) && StartedReady(units) && k < |units| && i < |units|
    requires units[k].status.Leased() && Started(units[i])
    ensures units[k].id !in units[i].dependencies
  {
    forall j | 0 <= j < |units| && units[j].id == units[k].id ensures j == k {
      assert UnitIds(units)[j] == UnitIds(units)[k];
    }
    assert !DoneIn(units, units[k].id);
  }

  lemma ExpandingKeepsReady(units: seq<Unit>, k: nat, split: Split, worker: string, decision: Decision)
    requires k < |units| && WellNamed(units) && StartedReady(units) && units[k].status.Leased()
    ensures StartedReady(Expanding(units, k, split, worker, decision))
  {
    var vs := Expanding(units, k, split, worker, decision);
    ExpandingShape(units, k, split, worker, decision);
    hide Expanding, WellNamed, DependenciesDone, UnitOk;
    forall i | 0 <= i < |vs| && Started(vs[i]) ensures DependenciesDone(vs, vs[i]) {
      assert i < |units| && Started(units[i]);
      if i != k { StartedDoesNotWait(units, k, i); }
      ExpandingKeepsDone(units, k, split, worker, decision, units[i]);
      SameDependencies(vs, units[i], vs[i]);
    }
  }

  lemma SameDependencies(units: seq<Unit>, u: Unit, v: Unit)
    requires u.dependencies == v.dependencies && DependenciesDone(units, u)
    ensures DependenciesDone(units, v)
  {
  }

  lemma ExpandingKeepsRest(units: seq<Unit>, k: nat, split: Split, worker: string, decision: Decision)
    requires k < |units| && AllOk(units) && RunsApart(units)
    ensures AllOk(Expanding(units, k, split, worker, decision)) && RunsApart(Expanding(units, k, split, worker, decision))
  {
    var vs := Expanding(units, k, split, worker, decision);
    ExpandingShape(units, k, split, worker, decision);
    hide Expanding;
    forall i | 0 <= i < |vs| ensures UnitOk(vs[i]) {
      if i < |units| { assert UnitOk(units[i]); }
    }
    forall i, j | 0 <= i < |vs| && 0 <= j < |vs| && vs[i].run.Some? && vs[i].run == vs[j].run ensures i == j {
      assert i < |units| && j < |units| && units[i].run == vs[i].run && units[j].run == vs[j].run;
    }
  }

  lemma ExpandingStaysAcyclic(units: seq<Unit>, k: nat, split: Split, worker: string, decision: Decision)
    requires k < |units| && Acyclic(Prospect(units, units[k], split))
    ensures Acyclic(Expanding(units, k, split, worker, decision))
  {
    var ps, vs := Prospect(units, units[k], split), Expanding(units, k, split, worker, decision);
    assert ps[k] == units[k];
    assert UnitIds(ps) == UnitIds(vs);
    assert KnownDependencies(ps) == KnownDependencies(vs);
  }

  lemma ExpandIsFine(t: Task, now: nat, k: nat, worker: string, epoch: nat, split: Split, decision: Decision)
    requires Sound(t) && k < |t.units| && ValidSplit(split)
    ensures Fine(t, Expand(t, now, k, worker, epoch, split, decision))
  {
    RefusalIsFine(t, t.units[k], now, worker, epoch);
    StandingIsFine(t);
    SoundParts(t);
    if Refused(t, t.units[k], now, worker, epoch).None? && Acyclic(Prospect(t.units, t.units[k], split))
       && !ChildClashes(t.units, split.children) {
      var vs := Expanding(t.units, k, split, worker, decision);
      hide Expanding, WellNamed, AllOk, StartedReady, RunsApart, Acyclic, UsageSound, HasRequired, Fine, Sound, ChildClashes, ValidSplit;
      ExpandingNames(t.units, k, split, worker, decision);
      ExpandingKeepsReady(t.units, k, split, worker, decision);
      ExpandingKeepsRest(t.units, k, split, worker, decision);
      ExpandingStaysAcyclic(t.units, k, split, worker, decision);
      SameUsage(t, t.(units := vs));
      RefreshIsFine(t, t.(units := vs), t.record.status);
      ExpandsTo(t.units, k, split, worker, decision);
    }
    hide Sound, Fine, AnyUnit, Refused, Refresh, Acyclic, ChildClashes, Expanding, Prospect, ChildUnits, Expansion, WaitsFor;
  }

  lemma ExpandsTo(units: seq<Unit>, k: nat, split: Split, worker: string, decision: Decision)
    requires k < |units|
    ensures Expanding(units, k, split, worker, decision)
         == Prospect(units, units[k], split)[k := Expansion(units[k], worker, decision)]
  {
  }

  // ----- every step ---------------------------------------------------------

  lemma UnitStepIsFine(t: Task, now: nat, k: nat, worker: string, epoch: nat, act: UnitOp)
    requires Sound(t) && k < |t.units| && (act.ExpandInto? ==> ValidSplit(act.split))
    ensures Fine(t, UnitStep(t, now, k, worker, epoch, act))
  {
    hide Sound, Fine, BindRun, Renew, Progress, Complete, SettleFailure, Expand, Interrupt;
    match act
    case CompleteWith(output) => CompleteIsFine(t, now, k, worker, epoch, output);
    case SettleWith(decision) => SettleIsFine(t, now, k, worker, epoch, decision);
    case ExpandInto(split, decision) => ExpandIsFine(t, now, k, worker, epoch, split, decision);
    case InterruptFor(reason) => InterruptIsFine(t, now, k, worker, epoch, reason);
    case _ => LeaseStepIsFine(t, now, k, worker, epoch, act);
  }

  /** Every step keeps the invariant, and raises the revision if it changes the record or the units. */
  lemma StepIsFine(t: Task, now: nat, op: Op)
    requires Sound(t) && Admissible(op)
    ensures Fine(t, Step(t, now, op))
  {
    if op.DoClaim? { ClaimIsFine(t, now, op.worker, op.duration, op.only); }
    else if op.OnUnit? {
      StandingIsFine(t);
      if Find(t.units, op.id) < |t.units| {
        UnitStepIsFine(t, now, Find(t.units, op.id), op.worker, op.epoch, op.act);
      }
    } else { TaskStepIsFine(t, now, op); }
    hide Sound, Fine, UnitStep, Claim, Find, Start, Expire, Pause, Resume, Cancel, RequestCancel, Finalize, Recover, RecordUsage;
  }

  /** A created task is sound. */
  lemma CreatedIsSound(c: CreateCommand)
    requires ValidCommand(c)
    ensures HasRequired(NewUnits(c.units)) && Sound(Created(c)) && Counted(Created(c))
  {
    var units := NewUnits(c.units);
    CountIsZero(units, Required());
    CountIsZero(units, RequiredCompleted());
    CountIsZero(units, RequiredFailed());
  }
}
