/** What holds over whole runs of a long task. */
module LongTaskRuns {
  import opened Prelude
  import opened LongTask
  import opened LongTaskInvariant
  import opened LongTaskSteps
  import DependencyGraph

  /** A step and the clock reading it sees. */
  datatype Event = Event(now: nat, op: Op)

  ghost function Next(t: Task, e: Event): Task { Step(t, e.now, e.op).task }

  ghost function Run(t: Task, events: seq<Event>): Task
    decreases |events|
  {
    if events == [] then t else Run(Next(t, events[0]), events[1..])
  }

  ghost predicate AllAdmissible(events: seq<Event>) {
    forall i :: 0 <= i < |events| ==> Admissible(events[i].op)
  }

  lemma {:induction false} RunKeepsSound(t: Task, events: seq<Event>)
    requires Sound(t) && AllAdmissible(events)
    ensures Sound(Run(t, events))
    decreases |events|
  {
    hide Sound, Step;
    if events != [] {
      StepIsFine(t, events[0].now, events[0].op);
      FineIsSound(t, events[0]);
      RunKeepsSound(Next(t, events[0]), events[1..]);
    }
  }

  lemma FineIsSound(t: Task, e: Event)
    requires Fine(t, Step(t, e.now, e.op))
    ensures Sound(Next(t, e))
  {
  }

  /**
   In every reachable state each unit that is claimed, running, completed or expanded has all its dependencies
   completed, and the cached totals equal a recount exactly when some unit is still required.
   */
  lemma ReachableTasksAreSound(c: CreateCommand, events: seq<Event>)
    requires ValidCommand(c) && AllAdmissible(events)
    requires HasRequired(NewUnits(c.units))
    ensures var t := Run(Created(c), events);
      && Sound(t)
      && (forall k, d :: 0 <= k < |t.units| && Started(t.units[k]) && d in t.units[k].dependencies ==> DoneIn(t.units, d))
      && (Counted(t) <==> HasRequired(t.units))
  {
    CreatedIsSound(c);
    RunKeepsSound(Created(c), events);
    var t := Run(Created(c), events);
    forall k | 0 <= k < |t.units| && Started(t.units[k]) ensures DependenciesDone(t.units, t.units[k]) { }
  }

  // ----- a record that is refused -------------------------------------------

  const DRAFT := Spec("draft", 0, "draft", [], None, true, 1, map[])
  const NOTES := Spec("notes", 1, "notes", [], None, false, 1, map[])
  const LIMITS := Limits(None, None, None, None)
  const SPLITTING := Decision("too_large", SplitPart, false)
  const WORKING :=
    Task(Record(TaskRunning, 3, 1, 0, 0, 1, None, LIMITS, true, None, NO_USAGE),
         [NewUnit(DRAFT).(status := Claimed, attempt := 1, worker := Some("w"), epoch := 1, expires := Some(10))], [])

  lemma OneUnitCount(u: Unit, p: Unit -> bool)
    ensures Count([u], p) == if p(u) then 1 else 0
  {
    assert [u][..0] == [];
  }

  lemma TwoAreAcyclic(units: seq<Unit>)
    requires |units| == 2 && units[0].dependencies == [] && units[1].dependencies == []
    ensures Acyclic(units)
  {
    var rank: map<string, nat> := map[units[0].id := 0, units[1].id := 0];
    assert KnownDependencies(units)[0] == [] && KnownDependencies(units)[1] == [];
    assert forall i :: 0 <= i < 2 ==> UnitIds(units)[i] in rank;
    assert DependencyGraph.Ranks(UnitIds(units), KnownDependencies(units), rank);
  }

  const DRAFTING := CreateCommand([DRAFT], 1, None, LIMITS, true)
  const BEGINNING: seq<Event> := [Event(0, DoStart(1)), Event(0, DoClaim("w", 10, None))]
  const INTO_NOTES := OnUnit("draft", "w", 1, ExpandInto(INTO_OPTIONAL, SPLITTING))

  lemma OneIsAcyclic(u: Unit)
    requires u.dependencies == []
    ensures Acyclic([u])
  {
    assert KnownDependencies([u])[0] == [];
    assert DependencyGraph.Ranks(UnitIds([u]), KnownDependencies([u]), map[u.id := 0]);
  }

  lemma DraftingIsValid()
    ensures ValidCommand(DRAFTING) && HasRequired(NewUnits(DRAFTING.units))
    ensures Created(DRAFTING) == Task(Record(TaskPending, 1, 1, 0, 0, 1, None, LIMITS, true, None, NO_USAGE), [NewUnit(DRAFT)], [])
  {
    assert NewUnits(DRAFTING.units) == [NewUnit(DRAFT)];
    OneIsAcyclic(NewUnit(DRAFT));
    OneUnitCount(NewUnit(DRAFT), Required());
  }

  lemma FirstOfNone(units: seq<Unit>, p: Unit -> bool)
    requires forall k :: 0 <= k < |units| ==> !p(units[k])
    ensures First(units, p) == |units|
  {
  }

  /** A task of one required unit, started and claimed. */
  lemma WorkingIsReached()
    ensures HasRequired(NewUnits(DRAFTING.units)) && Run(Created(DRAFTING), BEGINNING) == WORKING
  {
    DraftingIsValid();
    var created := Created(DRAFTING);
    var started := Next(created, BEGINNING[0]);
    assert started == created.(record := created.record.(status := TaskRunning, revision := 2));
    assert BEGINNING[1..] == [Event(0, DoClaim("w", 10, None))];
    var (now, u) := (0, NewUnit(DRAFT));
    OneUnitCount(u, Live(now));
    assert started.units == [u] && !Exhausted(now)(u) && !ExhaustedRequired(now)(u);
    FirstOfNone(started.units, ExhaustedRequired(now));
    FirstOfNone(started.units, Exhausted(now));
    assert Chosen(started.units, now, None, 0);
    assert GrantNext(started, now, "w", 10, None).task == WORKING;
    assert Claim(started, now, "w", 10, None).task == WORKING;
    assert Next(started, BEGINNING[1]) == WORKING;
    assert BEGINNING[1..][1..] == [];
  }

  /** The one required unit of that task split into an optional child: the record is refused, the totals go stale, ... */
  lemma LastRequiredUnitCanVanish()
    ensures ValidCommand(DRAFTING) && HasRequired(NewUnits(DRAFTING.units))
    ensures var t := Run(Created(DRAFTING), BEGINNING);
      var r := Step(t, 5, INTO_NOTES);
      && Counted(t) && HasRequired(t.units)
      && r.reply == Fail(InvalidRecord) && r.task.record == t.record
      && |r.task.units| == 2 && r.task.units[0].status.Expanded? && r.task.units[1].status.Pending?
      && !HasRequired(r.task.units) && !Counted(r.task)
  {
    hide Expand, HasRequired, Run, Counted, ValidCommand, Created, NewUnits;
    DraftingIsValid();
    WorkingIsReached();
    WorkingCanVanish();
    assert Find(WORKING.units, "draft") == 0;
  }

  const INTO_OPTIONAL := Split([NOTES], ["notes"])

  lemma WorkingIsCounted()
    ensures Counted(WORKING) && HasRequired(WORKING.units)
  {
    OneUnitCount(WORKING.units[0], Required());
    OneUnitCount(WORKING.units[0], RequiredCompleted());
    OneUnitCount(WORKING.units[0], RequiredFailed());
  }

  lemma WorkingAdmitsSplit()
    ensures Admits(WORKING, 5, 0, "w", 1, INTO_OPTIONAL)
    ensures ChildUnits(WORKING.units[0], INTO_OPTIONAL.children) == [ChildUnit(WORKING.units[0], NOTES)]
  {
    hide Count;
    var (parent, split) := (WORKING.units[0], INTO_OPTIONAL);
    assert "draft"[0] != "notes"[0];
    assert ChildDependencies(parent, NOTES) == [] by { assert [] + NOTES.dependencies == []; }
    var prospect := Prospect(WORKING.units, parent, split);
    assert prospect == [parent, ChildUnit(parent, NOTES)];
    TwoAreAcyclic(prospect);
    assert ChildUnits(parent, split.children) == [ChildUnit(parent, NOTES)];
    assert !AnyUnit(ChildUnits(parent, split.children), Mentions(parent.id));
  }

  lemma WorkingCanVanish()
    ensures Counted(WORKING) && HasRequired(WORKING.units)
    ensures var r := Expand(WORKING, 5, 0, "w", 1, INTO_OPTIONAL, SPLITTING);
      && r.reply == Fail(InvalidRecord) && r.task.record == WORKING.record
      && |r.task.units| == 2 && r.task.units[0].status.Expanded? && r.task.units[1].status.Pending?
      && !HasRequired(r.task.units) && !Counted(r.task)
  {
    hide Admits, Expand, Expanding, Refresh, HasRequired, Prospect;
    WorkingIsCounted();
    WorkingAdmitsSplit();
    AdmittedSplit(WORKING, 5, 0, "w", 1, INTO_OPTIONAL, SPLITTING);
    var after := Expanding(WORKING.units, 0, INTO_OPTIONAL, "w", SPLITTING);
    SplitKeepsRequiredExactly(WORKING.units, 0, INTO_OPTIONAL, "w", SPLITTING);
    Refreshing(WORKING.(units := after), TaskRunning);
    ExpandingShape(WORKING.units, 0, INTO_OPTIONAL, "w", SPLITTING);
    NothingRequiredIsNotCounted(WORKING.(units := after));
  }

  lemma NothingRequiredIsNotCounted(t: Task)
    requires !HasRequired(t.units) && t.record.total > 0
    ensures !Counted(t)
  {
  }

  /** ... and the next finalization completes the task, though nothing of it was ever done. */
  lemma VanishedTaskCompletes(t: Task, now: nat)
    requires !HasRequired(t.units) && t.record.status.TaskRunning? && !DeadlineElapsed(t, now)
    requires t.record.cancelRequestedAt.None?
    ensures Finalize(t, now).task.record.status.TaskCompleted? && Finalize(t, now).task.units == t.units
  {
    CountIsZero(t.units, Required());
    forall k | 0 <= k < |t.units| ensures !RequiredOpen()(t.units[k]) && !RequiredFailed()(t.units[k]) {
      assert !Required()(t.units[k]);
    }
  }

  // ----- what never comes back ----------------------------------------------

  /** The same unit later: completed and expanded units are frozen and lease epochs never fall. */
  ghost predicate UnitEvolves(u: Unit, v: Unit) {
    v.id == u.id && v.key == u.key && u.epoch <= v.epoch && (Final(u) ==> v == u) && (v.required ==> u.required)
  }

  /** The units evolve, and only a step that adds units changes which of them are required. */
  ghost predicate Evolves(us: seq<Unit>, vs: seq<Unit>) {
    && |us| <= |vs|
    && (forall k {:trigger UnitEvolves(us[k], vs[k])} :: 0 <= k < |us| ==> UnitEvolves(us[k], vs[k]))
    && (|us| == |vs| ==> forall k :: 0 <= k < |us| ==> us[k].required == vs[k].required)
  }

  lemma EvolvesTwice(us: seq<Unit>, vs: seq<Unit>, ws: seq<Unit>)
    requires Evolves(us, vs) && Evolves(vs, ws)
    ensures Evolves(us, ws)
  {
    forall k | 0 <= k < |us| ensures UnitEvolves(us[k], ws[k]) {
      assert UnitEvolves(us[k], vs[k]) && UnitEvolves(vs[k], ws[k]);
    }
    assert |us| == |ws| ==> forall k :: 0 <= k < |us| ==> us[k].required == vs[k].required == ws[k].required;
  }

  /** The units evolve and no more leases are live than before, or than the limit allows. */
  ghost predicate Goes(us: seq<Unit>, vs: seq<Unit>, now: nat, limit: nat) {
    Evolves(us, vs) && (Count(vs, Live(now)) <= Count(us, Live(now)) || Count(vs, Live(now)) <= limit)
  }

  lemma GoesTwice(us: seq<Unit>, vs: seq<Unit>, ws: seq<Unit>, now: nat, limit: nat)
    requires Goes(us, vs, now, limit) && Goes(vs, ws, now, limit)
    ensures Goes(us, ws, now, limit)
  {
    hide Evolves;
    EvolvesTwice(us, vs, ws);
  }

  lemma MilderGoes(us: seq<Unit>, vs: seq<Unit>, now: nat, limit: nat)
    requires AllMilder(us, vs)
    ensures Goes(us, vs, now, limit)
  {
    forall k | 0 <= k < |us|
      ensures UnitEvolves(us[k], vs[k]) && us[k].required == vs[k].required && (Live(now)(vs[k]) ==> Live(now)(us[k]))
    {
      assert Milder(us[k], vs[k]);
    }
    CountFalls(us, vs, Live(now));
  }

  lemma StaysGoes(us: seq<Unit>, now: nat, limit: nat)
    ensures Goes(us, us, now, limit)
  {
    forall k | 0 <= k < |us| ensures UnitEvolves(us[k], us[k]) { }
  }

  /** One unit replaced by one that is live only if it was live. */
  lemma PutGoes(us: seq<Unit>, k: nat, v: Unit, now: nat, limit: nat)
    requires k < |us| && UnitEvolves(us[k], v) && v.required == us[k].required && (Live(now)(v) ==> Live(now)(us[k]))
    ensures Goes(us, us[k := v], now, limit)
  {
    CountPut(us, k, v, Live(now));
    forall j | 0 <= j < |us| ensures UnitEvolves(us[j], us[k := v][j]) { }
  }

  ghost predicate StepGoes(t: Task, r: Result, now: nat) {
    Goes(t.units, r.task.units, now, t.record.maxParallelism) && r.task.record.maxParallelism == t.record.maxParallelism
  }

  lemma SweepsGo(t: Task, now: nat, reason: string, extra: nat)
    ensures StepGoes(t, ExpireDeadline(t), now) && StepGoes(t, FailBudget(t, reason), now)
    ensures StepGoes(t, FailTask(t, reason), now) && StepGoes(t, Result(CancelAll(t), Ok(None)), now)
    ensures StepGoes(t, Result(ReleaseAll(t, reason), Ok(None)), now)
    ensures Goes(t.units, Sweep(t.units, ReviveUnit(extra)), now, t.record.maxParallelism)
    ensures Goes(t.units, Sweep(t.units, ExhaustUnit(now)), now, t.record.maxParallelism)
    ensures Goes(t.units, t.units, now, t.record.maxParallelism)
  {
    ExpiringIsMild(t.units);
    BudgetIsMild(t.units, t.record.pauseOnBudget, reason);
    FailingIsMild(t.units, reason);
    CancelIsMild(t.units);
    ReleasingIsMild(t.units, reason);
    RevivingIsMild(t.units, extra);
    ExhaustingIsMild(t.units, now);
    hide AllMilder, Goes, Sweep;
    var limit := t.record.maxParallelism;
    MilderGoes(t.units, Sweep(t.units, ExpireUnit()), now, limit);
    MilderGoes(t.units, Sweep(t.units, BudgetUnit(t.record.pauseOnBudget, reason)), now, limit);
    MilderGoes(t.units, Sweep(t.units, CancelUnless(reason)), now, limit);
    MilderGoes(t.units, Sweep(t.units, CancelUnit()), now, limit);
    MilderGoes(t.units, Sweep(t.units, ReleaseUnit(reason)), now, limit);
    MilderGoes(t.units, Sweep(t.units, ReviveUnit(extra)), now, limit);
    MilderGoes(t.units, Sweep(t.units, ExhaustUnit(now)), now, limit);
    StaysGoes(t.units, now, limit);
  }

  lemma StrandGoes(t: Task, k: nat, now: nat)
    requires Sound(t) && k < |t.units| && RequiredOpen()(t.units[k])
    ensures StepGoes(t, FailTask(t.(units := t.units[k := Strand(t.units[k])]), t.units[k].id), now)
  {
    var s := t.(units := t.units[k := Strand(t.units[k])]);
    LeasedUnitOk(t, k);
    PutGoes(t.units, k, Strand(t.units[k]), now, t.record.maxParallelism);
    hide Goes, FailTask;
    SweepsGo(s, now, t.units[k].id, 0);
    GoesTwice(t.units, s.units, FailTask(s, t.units[k].id).task.units, now, t.record.maxParallelism);
  }

  /** Steps that leave the units alone. */
  lemma RecordGoes(t: Task, now: nat)
    ensures forall reply {:trigger Result(t, reply)} :: StepGoes(t, Result(t, reply), now)
    ensures forall status {:trigger SetStatus(t, status)} :: StepGoes(t, Result(SetStatus(t, status), Ok(None)), now)
    ensures forall at {:trigger RequestCancel(t, at)} :: StepGoes(t, RequestCancel(t, at), now)
  {
    StaysGoes(t.units, now, t.record.maxParallelism);
    hide Goes;
  }

  lemma FinalizeGoes(t: Task, now: nat)
    requires Sound(t)
    ensures StepGoes(t, Finalize(t, now), now)
  {
    hide StepGoes, Sound, AnyUnit, HasRunnableWork, ExpireDeadline, CancelAll, FailTask, SetStatus, Strand, Required, RequiredOpen;
    SweepsGo(t, now, "", 0);
    RecordGoes(t, now);
    var k := First(t.units, RequiredOpen());
    if k < |t.units| { StrandGoes(t, k, now); }
  }

  lemma UsageGoes(t: Task, now: nat, run: string, usage: Usage, expected: nat)
    ensures StepGoes(t, RecordUsage(t, run, usage, expected), now)
  {
    hide Goes, FailBudget, BudgetExhaustion, UsageOf, Aggregate, ExpireDeadline, FailTask, CancelAll, ReleaseAll, Sweep;
    SweepsGo(t, now, "", 0);
    SweepsGo(WithUsage(t, run, usage), now, BudgetReason(t, run, usage), 0);
  }

  lemma ResumeGoes(t: Task, now: nat, asked: nat)
    ensures StepGoes(t, Resume(t, asked), now)
  {
    hide Goes, Sweep, Count, GrantedAttempts, ExpireDeadline, FailBudget, FailTask, CancelAll, ReleaseAll;
    SweepsGo(t, now, "", GrantedAttempts(t.units, asked));
  }

  lemma PauseGoes(t: Task, now: nat, expected: Option<nat>, why: string)
    ensures StepGoes(t, Pause(t, expected, why), now)
  {
    hide StepGoes, ReleaseAll, ExpireDeadline, CancelAll, FailTask, FailBudget, SetStatus, RequestCancel, Sweep;
    RecordGoes(t, now);
    SweepsGo(t, now, if why == "" then "execution_paused" else why, 0);
  }

  lemma RecoverGoes(t: Task, now: nat, wall: nat, why: string)
    ensures StepGoes(t, Recover(t, wall, why), now)
  {
    hide StepGoes, ReleaseAll, ExpireDeadline, CancelAll, FailTask, FailBudget, SetStatus, RequestCancel, Sweep, AnyUnit;
    RecordGoes(t, now);
    SweepsGo(t, now, why, 0);
  }

  lemma TaskStepGoes(t: Task, now: nat, op: Op)
    requires Sound(t) && !op.DoClaim? && !op.OnUnit?
    ensures StepGoes(t, Step(t, now, op), now)
  {
    hide StepGoes, Sound, ExpireDeadline, CancelAll, Pause, Recover, Finalize, RecordUsage, Resume, SetStatus, RequestCancel;
    RecordGoes(t, now);
    FinalizeGoes(t, now);
    SweepsGo(t, now, "", 0);
    if op.DoPause? { PauseGoes(t, now, op.expectedRevision, op.why); }
    if op.DoRecover? { RecoverGoes(t, now, op.wall, op.why); }
    if op.DoRecordUsage? { UsageGoes(t, now, op.run, op.usage, op.expected); }
    if op.DoResume? { ResumeGoes(t, now, op.extra); }
  }

  function WithUsage(t: Task, run: string, usage: Usage): Task {
    t.(usages := t.usages + [(run, usage)], record := t.record.(usage := Aggregate(t.usages + [(run, usage)])))
  }

  function BudgetReason(t: Task, run: string, usage: Usage): string {
    var kind := BudgetExhaustion(WithUsage(t, run, usage).record, true);
    if kind.Some? then kind.value else ""
  }

  lemma {:induction false} CountAppend(us: seq<Unit>, vs: seq<Unit>, p: Unit -> bool)
    ensures Count(us + vs, p) == Count(us, p) + Count(vs, p)
  {
    if vs == [] {
      assert us + vs == us;
    } else {
      assert (us + vs)[..|us + vs| - 1] == us + vs[..|vs| - 1];
      CountAppend(us, vs[..|vs| - 1], p);
    }
  }

  /** A granted lease fits under the limit, because its unit was not live before. */
  lemma GrantGoes(t: Task, now: nat, worker: string, duration: pos, only: Option<string>)
    ensures StepGoes(t, GrantNext(t, now, worker, duration, only), now)
  {
    RecordGoes(t, now);
    if Count(t.units, Live(now)) < t.record.maxParallelism {
      forall k: nat | k < |t.units| && Eligible(t.units, now, only, t.units[k])
        ensures Goes(t.units, t.units[k := Grant(t.units[k], now, worker, duration)], now, t.record.maxParallelism)
      {
        var v := Grant(t.units[k], now, worker, duration);
        CountPut(t.units, k, v, Live(now));
        forall j | 0 <= j < |t.units| ensures UnitEvolves(t.units[j], t.units[k := v][j]) { }
      }
    }
    hide Goes, Live, Eligible;
  }

  lemma ClaimGoes(t: Task, now: nat, worker: string, duration: pos, only: Option<string>)
    ensures StepGoes(t, Claim(t, now, worker, duration, only), now)
  {
    hide Goes, Exhaust, GrantNext, BudgetExhaustion, ExpireDeadline, FailBudget, ExhaustedRequired, FailTask, CancelAll, ReleaseAll, Sweep;
    var kind := BudgetExhaustion(t.record, false);
    StaysGoes(t.units, now, t.record.maxParallelism);
    SweepsGo(t, now, if kind.Some? then kind.value else "", 0);
    ExhaustGoes(t, now);
    var s := Exhaust(t, now).task;
    GrantGoes(s, now, worker, duration, only);
    GoesTwice(t.units, s.units, GrantNext(s, now, worker, duration, only).task.units, now, t.record.maxParallelism);
  }

  lemma ExhaustGoes(t: Task, now: nat)
    ensures StepGoes(t, Exhaust(t, now), now)
  {
    hide Goes, FailTask, ExpireDeadline, FailBudget, CancelAll, ReleaseAll, Exhausted, ExhaustedRequired, Sweep;
    var s := t.(units := Sweep(t.units, ExhaustUnit(now)));
    SweepsGo(t, now, "", 0);
    StaysGoes(t.units, now, t.record.maxParallelism);
    var failed := First(t.units, ExhaustedRequired(now));
    if failed < |t.units| {
      SweepsGo(s, now, t.units[failed].id, 0);
      GoesTwice(t.units, s.units, FailTask(s, t.units[failed].id).task.units, now, t.record.maxParallelism);
    }
  }

  lemma RefusalGoes(t: Task, u: Unit, now: nat, worker: string, epoch: nat)
    ensures var refused := Refused(t, u, now, worker, epoch);
      && (refused.Some? ==> StepGoes(t, refused.value, now))
      && (refused.None? ==> HoldsLease(t, u, now, worker, epoch))
  {
    hide Goes, ExpireDeadline, FailBudget, FailTask, CancelAll, ReleaseAll;
    SweepsGo(t, now, "", 0);
    StaysGoes(t.units, now, t.record.maxParallelism);
  }

  /** A live unit replaced by a later form of itself. */
  lemma HeldGoes(t: Task, k: nat, v: Unit, now: nat, worker: string, epoch: nat)
    requires k < |t.units| && HoldsLease(t, t.units[k], now, worker, epoch)
    requires v.id == t.units[k].id && v.key == t.units[k].key && v.epoch == epoch && v.required == t.units[k].required
    ensures Goes(t.units, Put(t, k, v).units, now, t.record.maxParallelism)
  {
    PutGoes(t.units, k, v, now, t.record.maxParallelism);
  }

  lemma LeaseStepGoes(t: Task, now: nat, k: nat, worker: string, epoch: nat, act: UnitOp)
    requires k < |t.units| && (act.Bind? || act.RenewLease? || act.Report? || act.InterruptFor?)
    ensures StepGoes(t, UnitStep(t, now, k, worker, epoch, act), now)
  {
    hide Goes, Refused, AnyUnit;
    var u := t.units[k];
    RefusalGoes(t, u, now, worker, epoch);
    StaysGoes(t.units, now, t.record.maxParallelism);
    if Refused(t, u, now, worker, epoch).None? {
      var v := match act
        case Bind(run) => u.(status := Running, run := Some(run))
        case RenewLease(duration) => u.(expires := Some(now + duration))
        case Report(metadata) => u.(metadata := u.metadata + metadata)
        case InterruptFor(reason) => Released(u, Pending).(maxAttempts := u.maxAttempts + 1, error := Some(reason))
        case _ => u;
      HeldGoes(t, k, v, now, worker, epoch);
    }
  }

  lemma CompleteGoes(t: Task, now: nat, k: nat, worker: string, epoch: nat, output: Output)
    requires k < |t.units|
    ensures StepGoes(t, Complete(t, now, k, worker, epoch, output), now)
  {
    hide Goes, Refused, AnyUnit, Count;
    var u := t.units[k];
    RefusalGoes(t, u, now, worker, epoch);
    StaysGoes(t.units, now, t.record.maxParallelism);
    if Refused(t, u, now, worker, epoch).None? { HeldGoes(t, k, Done(u, worker, output), now, worker, epoch); }
  }

  lemma SettleGoes(t: Task, now: nat, k: nat, worker: string, epoch: nat, decision: Decision)
    requires k < |t.units|
    ensures StepGoes(t, SettleFailure(t, now, k, worker, epoch, decision), now)
  {
    hide Goes, Refused, HasRunnableWork, CancelAll, ReleaseAll, FailTask, ExpireDeadline, FailBudget, Settled, Target;
    var u := t.units[k];
    var put := Put(t, k, Settled(u, decision));
    RefusalGoes(t, u, now, worker, epoch);
    if Refused(t, u, now, worker, epoch).None? {
      SettledKeepsName(u, decision);
      HeldGoes(t, k, Settled(u, decision), now, worker, epoch);
      var limit := t.record.maxParallelism;
      SweepsGo(put, now, u.id, 0);
      SweepsGo(put, now, decision.code, 0);
      GoesTwice(t.units, put.units, FailTask(put, u.id).task.units, now, limit);
      GoesTwice(t.units, put.units, CancelAll(put).units, now, limit);
      GoesTwice(t.units, put.units, ReleaseAll(put, decision.code).units, now, limit);
    }
  }

  lemma SettledKeepsName(u: Unit, decision: Decision)
    ensures var v := Settled(u, decision);
      v.id == u.id && v.key == u.key && v.epoch == u.epoch && v.required == u.required
  {
  }

  lemma ExpandingEvolves(units: seq<Unit>, k: nat, split: Split, worker: string, decision: Decision, now: nat, i: nat)
    requires WellNamed(units) && StartedReady(units) && k < |units| && units[k].status.Leased() && i < |units|
    ensures var v := Expanding(units, k, split, worker, decision)[i];
      UnitEvolves(units[i], v) && (Live(now)(v) ==> Live(now)(units[i]))
  {
    ExpandingShape(units, k, split, worker, decision);
    hide Expanding, WellNamed, StartedReady;
    if i != k && Final(units[i]) { StartedDoesNotWait(units, k, i); }
  }

  lemma NewUnitsAreNotLive(units: seq<Unit>, k: nat, split: Split, worker: string, decision: Decision, now: nat)
    requires k < |units|
    ensures Count(Expanding(units, k, split, worker, decision)[|units|..], Live(now)) == 0
  {
    ExpandingShape(units, k, split, worker, decision);
    CountIsZero(Expanding(units, k, split, worker, decision)[|units|..], Live(now));
  }

  lemma ExpandingGoes(t: Task, now: nat, k: nat, split: Split, worker: string, decision: Decision)
    requires Sound(t) && k < |t.units| && t.units[k].status.Leased() && split.children != []
    ensures Goes(t.units, Expanding(t.units, k, split, worker, decision), now, t.record.maxParallelism)
  {
    SoundParts(t);
    hide Expanding, WellNamed, StartedReady, Sound, UnitEvolves, AllOk, RunsApart, Acyclic, Count;
    var units, vs := t.units, Expanding(t.units, k, split, worker, decision);
    var n := |units|;
    forall i | 0 <= i < n ensures UnitEvolves(units[i], vs[i]) && (Live(now)(vs[i]) ==> Live(now)(units[i])) {
      ExpandingEvolves(units, k, split, worker, decision, now, i);
    }
    CountFalls(units, vs[..n], Live(now));
    NewUnitsAreNotLive(units, k, split, worker, decision, now);
    GrownGoes(units, vs, now, t.record.maxParallelism);
  }

  /** New units that are not live. */
  lemma GrownGoes(us: seq<Unit>, vs: seq<Unit>, now: nat, limit: nat)
    requires |us| < |vs| && forall i :: 0 <= i < |us| ==> UnitEvolves(us[i], vs[i])
    requires Count(vs[..|us|], Live(now)) <= Count(us, Live(now)) && Count(vs[|us|..], Live(now)) == 0
    ensures Goes(us, vs, now, limit)
  {
    hide UnitEvolves, Count, Live;
    assert vs == vs[..|us|] + vs[|us|..];
    CountAppend(vs[..|us|], vs[|us|..], Live(now));
  }

  lemma ExpandGoes(t: Task, now: nat, k: nat, worker: string, epoch: nat, split: Split, decision: Decision)
    requires Sound(t) && k < |t.units| && split.children != []
    ensures StepGoes(t, Expand(t, now, k, worker, epoch, split, decision), now)
  {
    hide Goes, Refused, AnyUnit, Count, Sound, ChildClashes, Acyclic, Prospect, Expanding, ChildUnits, WaitsFor;
    RefusalGoes(t, t.units[k], now, worker, epoch);
    StaysGoes(t.units, now, t.record.maxParallelism);
    if Refused(t, t.units[k], now, worker, epoch).None? {
      ExpandingGoes(t, now, k, split, worker, decision);
      ExpandsTo(t.units, k, split, worker, decision);
    }
  }

  lemma UnitStepGoes(t: Task, now: nat, k: nat, worker: string, epoch: nat, act: UnitOp)
    requires Sound(t) && k < |t.units| && (act.ExpandInto? ==> act.split.children != [])
    ensures StepGoes(t, UnitStep(t, now, k, worker, epoch, act), now)
  {
    hide StepGoes, Sound, BindRun, Renew, Progress, Complete, SettleFailure, Expand, Interrupt;
    match act
    case CompleteWith(output) => CompleteGoes(t, now, k, worker, epoch, output);
    case SettleWith(decision) => SettleGoes(t, now, k, worker, epoch, decision);
    case ExpandInto(split, decision) => ExpandGoes(t, now, k, worker, epoch, split, decision);
    case _ => LeaseStepGoes(t, now, k, worker, epoch, act);
  }

  lemma StepGoesOn(t: Task, now: nat, op: Op)
    requires Sound(t)
    ensures StepGoes(t, Step(t, now, op), now)
  {
    hide StepGoes, Sound, Claim, UnitStep, Start, Expire, Pause, Resume, Cancel, RequestCancel, Finalize, Recover, RecordUsage;
    if op.DoClaim? { ClaimGoes(t, now, op.worker, op.duration, op.only); }
    else if op.OnUnit? {
      RecordGoes(t, now);
      if Find(t.units, op.id) < |t.units| && (op.act.ExpandInto? ==> op.act.split.children != []) {
        UnitStepGoes(t, now, Find(t.units, op.id), op.worker, op.epoch, op.act);
      }
    } else { TaskStepGoes(t, now, op); }
  }

  /** Completed and expanded units are frozen, and lease epochs never fall, whatever happens to the task. */
  lemma {:induction false} RunEvolves(t: Task, events: seq<Event>)
    requires Sound(t) && AllAdmissible(events)
    ensures Evolves(t.units, Run(t, events).units)
    decreases |events|
  {
    hide Sound, Step, Evolves;
    if events == [] { StaysGoes(t.units, 0, 1); EvolvesPart(t.units, t.units, 0, 1); }
    else {
      var s := Next(t, events[0]);
      StepIsFine(t, events[0].now, events[0].op);
      FineIsSound(t, events[0]);
      StepGoesOn(t, events[0].now, events[0].op);
      EvolvesPart(t.units, s.units, events[0].now, t.record.maxParallelism);
      RunEvolves(s, events[1..]);
      EvolvesTwice(t.units, s.units, Run(s, events[1..]).units);
    }
  }

  lemma EvolvesPart(us: seq<Unit>, vs: seq<Unit>, now: nat, limit: nat)
    requires Goes(us, vs, now, limit)
    ensures Evolves(us, vs)
  {
  }

  /** A worker whose lease was superseded by a newer claim can never touch the unit again. */
  lemma SupersededWorkerIsRefused(t: Task, events: seq<Event>, k: nat, worker: string, epoch: nat, now: nat)
    requires Sound(t) && AllAdmissible(events) && k < |t.units| && epoch < t.units[k].epoch
    ensures var s := Run(t, events);
      k < |s.units| && s.units[k].id == t.units[k].id && !HoldsLease(s, s.units[k], now, worker, epoch)
  {
    RunEvolves(t, events);
    assert UnitEvolves(t.units[k], Run(t, events).units[k]);
  }

  // ----- refused records ----------------------------------------------------

  lemma TaskStepKeepsLength(t: Task, now: nat, op: Op)
    requires !op.DoClaim? && !op.OnUnit?
    ensures |Step(t, now, op).task.units| == |t.units|
  {
    hide Sweep, Count, First, HasRunnableWork, AnyUnit, RecordUsage;
    if op.DoRecordUsage? { UsageKeepsLength(t, op.run, op.usage, op.expected); }
  }

  lemma UsageKeepsLength(t: Task, run: string, usage: Usage, expected: nat)
    ensures |RecordUsage(t, run, usage, expected).task.units| == |t.units|
  {
    hide Sweep, Count, First, BudgetExhaustion, Aggregate, UsageOf;
  }

  lemma ClaimKeepsLength(t: Task, now: nat, worker: string, duration: pos, only: Option<string>)
    ensures |Claim(t, now, worker, duration, only).task.units| == |t.units|
  {
    hide Sweep, Count, First, BudgetExhaustion, Exhausted, ExhaustedRequired;
  }

  lemma UnitStepKeepsLength(t: Task, now: nat, k: nat, worker: string, epoch: nat, act: UnitOp)
    requires k < |t.units| && !act.ExpandInto?
    ensures |UnitStep(t, now, k, worker, epoch, act).task.units| == |t.units|
  {
    hide Sweep, Count, HasRunnableWork, AnyUnit, HoldsLease, Done, Settled;
  }

  /** Every check in front of a split passes. */
  ghost predicate Admits(t: Task, now: nat, k: nat, worker: string, epoch: nat, split: Split)
    requires k < |t.units|
  {
    var parent := t.units[k];
    && !parent.status.Expanded? && Refused(t, parent, now, worker, epoch).None?
    && !ChildClashes(t.units, split.children) && !AnyUnit(ChildUnits(parent, split.children), Mentions(parent.id))
    && (AnyUnit(t.units, WaitsFor(parent.id)) ==> split.replacements != []) && Acyclic(Prospect(t.units, parent, split))
  }

  /** The parent is the only required unit, and no child is required. */
  ghost predicate LosesRequired(units: seq<Unit>, k: nat, split: Split) {
    && (forall j :: 0 <= j < |units| && j != k ==> !units[j].required)
    && (forall j :: 0 <= j < |split.children| ==> !split.children[j].required)
  }

  /** The step is an admitted split of the only required unit into optional children. */
  ghost predicate Vanishes(t: Task, now: nat, op: Op) {
    && op.OnUnit? && op.act.ExpandInto? && op.act.decision.disposition.SplitPart? && op.act.split.children != []
    && Find(t.units, op.id) < |t.units|
    && Admits(t, now, Find(t.units, op.id), op.worker, op.epoch, op.act.split)
    && LosesRequired(t.units, Find(t.units, op.id), op.act.split)
  }

  lemma AdmittedSplit(t: Task, now: nat, k: nat, worker: string, epoch: nat, split: Split, decision: Decision)
    requires k < |t.units|
    ensures var r := Expand(t, now, k, worker, epoch, split, decision);
      if Admits(t, now, k, worker, epoch, split)
      then r == Refresh(t.(units := Expanding(t.units, k, split, worker, decision)), t.record.status)
      else |r.task.units| == |t.units|
  {
    hide Sweep, AnyUnit, Acyclic, ChildClashes, Count, ChildUnits, HoldsLease;
  }

  lemma SplitKeepsRequiredExactly(units: seq<Unit>, k: nat, split: Split, worker: string, decision: Decision)
    requires k < |units|
    ensures HasRequired(Expanding(units, k, split, worker, decision)) <==> !LosesRequired(units, k, split)
  {
    var vs := Expanding(units, k, split, worker, decision);
    ExpandingShape(units, k, split, worker, decision);
    CountIsZero(vs, Required());
    ChildrenRequired(units, k, split, worker, decision);
    hide Expanding, Count, UnitOk;
    if LosesRequired(units, k, split) {
      forall i | 0 <= i < |vs| ensures !Required()(vs[i]) { }
    } else if j :| 0 <= j < |units| && j != k && units[j].required {
      assert Required()(vs[j]);
    } else {
      var j :| 0 <= j < |split.children| && split.children[j].required;
      assert Required()(vs[|units| + j]);
    }
  }

  lemma ChildrenRequired(units: seq<Unit>, k: nat, split: Split, worker: string, decision: Decision)
    requires k < |units|
    ensures var vs := Expanding(units, k, split, worker, decision);
      forall j :: 0 <= j < |split.children| ==> vs[|units| + j].required == split.children[j].required
  {
  }

  lemma SameRequiredCount(us: seq<Unit>, vs: seq<Unit>)
    requires |us| == |vs| && forall k :: 0 <= k < |us| ==> us[k].required == vs[k].required
    ensures HasRequired(us) == HasRequired(vs)
  {
    CountsAgree(us, vs, Required());
  }

  lemma RequiredStays(t: Task, now: nat, op: Op)
    requires Sound(t) && |Step(t, now, op).task.units| == |t.units|
    ensures HasRequired(Step(t, now, op).task.units) == HasRequired(t.units)
  {
    hide Step, Sound, HasRequired, UnitEvolves, Count;
    StepGoesOn(t, now, op);
    SameRequiredCount(t.units, Step(t, now, op).task.units);
  }

  /** Only an admitted split adds units; its units are then counted. */
  lemma OnlySplitsAdd(t: Task, now: nat, op: Op)
    ensures |Step(t, now, op).task.units| == |t.units|
      || (op.OnUnit? && op.act.ExpandInto? && op.act.decision.disposition.SplitPart? && op.act.split.children != []
          && Find(t.units, op.id) < |t.units|
          && Admits(t, now, Find(t.units, op.id), op.worker, op.epoch, op.act.split))
    ensures op.OnUnit? && op.act.ExpandInto? && op.act.decision.disposition.SplitPart? && op.act.split.children != []
      && Find(t.units, op.id) < |t.units| && Admits(t, now, Find(t.units, op.id), op.worker, op.epoch, op.act.split)
      ==> Step(t, now, op) == Refresh(t.(units := Expanding(t.units, Find(t.units, op.id), op.act.split, op.worker, op.act.decision)),
                                      t.record.status)
  {
    if op.DoClaim? { ClaimKeepsLength(t, now, op.worker, op.duration, op.only); }
    else if !op.OnUnit? { TaskStepKeepsLength(t, now, op); }
    else if Find(t.units, op.id) < |t.units| {
      var k := Find(t.units, op.id);
      if op.act.ExpandInto? { AdmittedSplit(t, now, k, op.worker, op.epoch, op.act.split, op.act.decision); }
      else { UnitStepKeepsLength(t, now, k, op.worker, op.epoch, op.act); }
    }
    hide Claim, Find, Admits, Expand, Expanding, Refresh, Start, Expire, Pause, Resume, Cancel, RequestCancel, Finalize, Recover, RecordUsage;
  }

  /** While some unit is required, a record is refused exactly when an admitted split would leave none required. */
  lemma InvalidRecordExactly(t: Task, now: nat, op: Op)
    requires Sound(t) && Admissible(op) && HasRequired(t.units)
    ensures Step(t, now, op).reply == Fail(InvalidRecord) <==> Vanishes(t, now, op)
    ensures Vanishes(t, now, op) ==> Step(t, now, op).task.record == t.record && |Step(t, now, op).task.units| > |t.units|
    ensures !Vanishes(t, now, op) ==> HasRequired(Step(t, now, op).task.units)
  {
    hide Sound, Step, Admits, HasRequired, Expanding, LosesRequired;
    StepIsFine(t, now, op);
    OnlySplitsAdd(t, now, op);
    if |Step(t, now, op).task.units| == |t.units| { RequiredStays(t, now, op); }
    if op.OnUnit? && op.act.ExpandInto? && Find(t.units, op.id) < |t.units| {
      var k := Find(t.units, op.id);
      SplitKeepsRequiredExactly(t.units, k, op.act.split, op.worker, op.act.decision);
      Refreshing(t.(units := Expanding(t.units, k, op.act.split, op.worker, op.act.decision)), t.record.status);
    }
  }

  // ----- revisions ----------------------------------------------------------

  ghost predicate SameState(t: Task, s: Task) { s.record == t.record && s.units == t.units }

  /** A step that changes the record or the units raises the revision, except the one step that vanishes. */
  lemma RevisionFailsExactly(t: Task, now: nat, op: Op)
    requires Sound(t) && Admissible(op) && HasRequired(t.units)
    ensures var s := Step(t, now, op).task;
      !SameState(t, s) && s.record.revision <= t.record.revision <==> Vanishes(t, now, op)
  {
    hide Sound, Step, HasRequired, Vanishes;
    StepIsFine(t, now, op);
    InvalidRecordExactly(t, now, op);
  }

  /** No step of the run is an admitted split that leaves no unit required. */
  ghost predicate NeverVanishes(t: Task, events: seq<Event>)
    decreases |events|
  {
    events != [] ==> !Vanishes(t, events[0].now, events[0].op) && NeverVanishes(Next(t, events[0]), events[1..])
  }

  /** Between any two moments of the run, equal revisions mean the same record and the same units, and conversely. */
  ghost predicate RevisionsTellTasks(t: Task, events: seq<Event>)
    decreases |events|
  {
    && (forall j {:trigger Run(t, events[..j])} :: 0 <= j <= |events| ==>
          (Run(t, events[..j]).record.revision == t.record.revision <==> SameState(t, Run(t, events[..j]))))
    && (events != [] ==> RevisionsTellTasks(Next(t, events[0]), events[1..]))
  }

  lemma StepKeepsRequired(t: Task, e: Event)
    requires Sound(t) && Admissible(e.op) && HasRequired(t.units) && !Vanishes(t, e.now, e.op)
    ensures Sound(Next(t, e)) && HasRequired(Next(t, e).units)
    ensures SameState(t, Next(t, e)) || Next(t, e).record.revision > t.record.revision
  {
    hide Sound, Step, HasRequired, Vanishes;
    StepIsFine(t, e.now, e.op);
    InvalidRecordExactly(t, e.now, e.op);
    FineIsSound(t, e);
  }

  /** The revision along a run that never vanishes. */
  lemma {:induction false} RevisionRises(t: Task, events: seq<Event>, j: nat)
    requires Sound(t) && AllAdmissible(events) && HasRequired(t.units) && NeverVanishes(t, events) && j <= |events|
    ensures var s := Run(t, events[..j]); SameState(t, s) || s.record.revision > t.record.revision
    decreases j
  {
    hide Sound, Step, HasRequired, Vanishes;
    if j > 0 {
      assert events[..j][0] == events[0] && events[..j][1..] == events[1..][..j - 1];
      StepKeepsRequired(t, events[0]);
      RevisionRises(Next(t, events[0]), events[1..], j - 1);
    }
  }

  /** Along a run of a task with a required unit, revisions tell tasks apart if and only if no step vanishes. */
  lemma {:induction false} EqualRevisionsMeanEqualTasks(t: Task, events: seq<Event>)
    requires Sound(t) && AllAdmissible(events) && HasRequired(t.units)
    ensures RevisionsTellTasks(t, events) <==> NeverVanishes(t, events)
    decreases |events|
  {
    hide Sound, Step, HasRequired, Vanishes;
    if events != [] {
      var e := events[0];
      if Vanishes(t, e.now, e.op) {
        RevisionFailsExactly(t, e.now, e.op);
        InvalidRecordExactly(t, e.now, e.op);
        OneStepRun(t, events);
      } else {
        StepKeepsRequired(t, e);
        EqualRevisionsMeanEqualTasks(Next(t, e), events[1..]);
      }
    }
    if NeverVanishes(t, events) {
      forall j | 0 <= j <= |events|
        ensures Run(t, events[..j]).record.revision == t.record.revision <==> SameState(t, Run(t, events[..j]))
      {
        RevisionRises(t, events, j);
      }
    }
  }

  lemma OneStepRun(t: Task, events: seq<Event>)
    requires events != []
    ensures Run(t, events[..1]) == Next(t, events[0])
  {
    assert events[..1][0] == events[0] && events[..1][1..] == [];
  }

  // ----- parallelism --------------------------------------------------------

  ghost predicate Timely(start: nat, events: seq<Event>) {
    && (forall i :: 0 <= i < |events| ==> start <= events[i].now)
    && (forall i, j :: 0 <= i < j < |events| ==> events[i].now <= events[j].now)
  }

  lemma LeasesLapse(units: seq<Unit>, from: nat, to: nat)
    requires from <= to
    ensures Count(units, Live(to)) <= Count(units, Live(from))
  {
    var p, q := Live(from), Live(to);
    LapsedCount(units, p, q);
  }

  lemma {:induction false} LapsedCount(units: seq<Unit>, p: Unit -> bool, q: Unit -> bool)
    requires forall u :: q(u) ==> p(u)
    ensures Count(units, q) <= Count(units, p)
  {
    if units != [] { LapsedCount(units[..|units| - 1], p, q); }
  }

  lemma StepKeepsBound(t: Task, before: nat, now: nat, op: Op)
    requires Sound(t) && before <= now && Count(t.units, Live(before)) <= t.record.maxParallelism
    ensures var s := Step(t, now, op).task;
      Count(s.units, Live(now)) <= s.record.maxParallelism && s.record.maxParallelism == t.record.maxParallelism
  {
    LeasesLapse(t.units, before, now);
    StepGoesOn(t, now, op);
    hide Step, Sound, Evolves, Live;
  }

  /** Under a clock that does not go back, a task never has more live leases than its parallelism. */
  lemma {:induction false} ParallelismIsBounded(t: Task, start: nat, events: seq<Event>, end: nat)
    requires Sound(t) && AllAdmissible(events) && Timely(start, events)
    requires Count(t.units, Live(start)) <= t.record.maxParallelism
    requires start <= end && forall i :: 0 <= i < |events| ==> events[i].now <= end
    ensures var s := Run(t, events);
      Count(s.units, Live(end)) <= s.record.maxParallelism && s.record.maxParallelism == t.record.maxParallelism
    decreases |events|
  {
    hide Step, Sound, Live;
    if events == [] { LeasesLapse(t.units, start, end); }
    else {
      StepKeepsBound(t, start, events[0].now, events[0].op);
      StepIsFine(t, events[0].now, events[0].op);
      FineIsSound(t, events[0]);
      ParallelismIsBounded(Next(t, events[0]), events[0].now, events[1..], end);
    }
  }

  // ----- claims, replays and budgets ----------------------------------------

  ghost predicate HandsOut(t: Task, r: Result, now: nat, worker: string, only: Option<string>) {
    r.reply.Ok? && r.reply.value.Some? ==>
      var v := r.reply.value.value;
      exists k :: 0 <= k < |t.units| == |r.task.units| && r.task.units[k] == v && v.id == t.units[k].id
        && v.epoch == t.units[k].epoch + 1 && DependenciesDone(r.task.units, v)
        && (only.Some? ==> v.id == only.value) && HoldsLease(r.task, v, now, worker, v.epoch)
  }

  lemma GrantIsReady(t: Task, now: nat, worker: string, duration: pos, only: Option<string>)
    requires t.record.status.TaskRunning?
    ensures HandsOut(t, GrantNext(t, now, worker, duration, only), now, worker, only)
  {
    var r := GrantNext(t, now, worker, duration, only);
    if r.reply.value.Some? {
      var k: nat :| k < |t.units| && Eligible(t.units, now, only, t.units[k])
        && r == Stored(t, k, Grant(t.units[k], now, worker, duration));
      var v := Grant(t.units[k], now, worker, duration);
      GrantIsMove(t.units, now, worker, duration, only, t.units[k]);
      PutMoves(t.units, k, v);
      CompletedStays(t.units, r.task.units, t.units[k]);
      SameDependencies(r.task.units, t.units[k], v);
      assert r == Stored(t, k, v);
      assert r.task == Touch(Put(t, k, v));
      assert r.task.units == t.units[k := v];
      assert r.task.units[k] == v;
      assert HoldsLease(r.task, v, now, worker, v.epoch);
    }
  }

  lemma NothingHandedOut(t: Task, now: nat, worker: string, only: Option<string>)
    ensures forall status: TaskStatus, s: Task {:trigger Refresh(s, status)} :: HandsOut(t, Refresh(s, status), now, worker, only)
    ensures forall s {:trigger Result(s, Ok(None))} :: HandsOut(t, Result(s, Ok(None)), now, worker, only)
  {
    hide DependenciesDone, HoldsLease, Count;
  }

  /** A sweep that keeps names and epochs does not change what is handed out. */
  lemma HandsOutLater(t: Task, s: Task, r: Result, now: nat, worker: string, only: Option<string>)
    requires HandsOut(s, r, now, worker, only) && |s.units| == |t.units|
    requires forall k :: 0 <= k < |t.units| ==> s.units[k].id == t.units[k].id && s.units[k].epoch == t.units[k].epoch
    ensures HandsOut(t, r, now, worker, only)
  {
    hide DependenciesDone, HoldsLease;
  }

  lemma OptionalExhaustion(t: Task, now: nat)
    requires First(t.units, ExhaustedRequired(now)) == |t.units|
    ensures var s := Exhaust(t, now).task;
      && |s.units| == |t.units| && s.record.status == t.record.status
      && forall k :: 0 <= k < |t.units| ==> s.units[k].id == t.units[k].id && s.units[k].epoch == t.units[k].epoch
  {
  }

  /** A claim hands out a unit that is ready, under the next epoch, and its token is accepted at once. */
  lemma ClaimedUnitIsReady(t: Task, now: nat, worker: string, duration: pos, only: Option<string>)
    ensures HandsOut(t, Claim(t, now, worker, duration, only), now, worker, only)
  {
    hide HandsOut, GrantNext, BudgetExhaustion, Refresh, Exhausted, ExhaustedRequired, Sweep;
    NothingHandedOut(t, now, worker, only);
    if t.record.status.TaskRunning? && First(t.units, ExhaustedRequired(now)) == |t.units| {
      var s := Exhaust(t, now).task;
      OptionalExhaustion(t, now);
      GrantIsReady(s, now, worker, duration, only);
      HandsOutLater(t, s, GrantNext(s, now, worker, duration, only), now, worker, only);
    }
  }

  /** Completing a unit twice with the same token and the same output succeeds and changes nothing more. */
  lemma CompletionReplays(t: Task, now: nat, later: nat, k: nat, worker: string, epoch: nat, output: Output)
    requires k < |t.units| && Complete(t, now, k, worker, epoch, output).reply.Ok?
    ensures var s := Complete(t, now, k, worker, epoch, output).task;
      Complete(s, later, k, worker, epoch, output) == Result(s, Ok(None))
  {
  }

  /** So does expanding it twice, and anyone else's attempt is refused. */
  lemma ExpansionReplays(t: Task, now: nat, later: nat, k: nat, worker: string, epoch: nat, split: Split, decision: Decision,
                         other: string, otherEpoch: nat)
    requires k < |t.units| && Expand(t, now, k, worker, epoch, split, decision).reply.Ok?
    ensures var s := Expand(t, now, k, worker, epoch, split, decision).task;
      && k < |s.units|
      && (Expand(s, later, k, other, otherEpoch, split, decision)
            == Result(s, if other == worker && otherEpoch == epoch then Ok(None) else Fail(LeaseLost)))
  {
  }

  /** Reporting a Run's usage again changes nothing; different usage for the same Run is refused. */
  lemma UsageIsCountedOnce(t: Task, run: string, usage: Usage, expected: nat, again: Usage, later: nat)
    requires RecordUsage(t, run, usage, expected).reply.Ok?
    ensures var s := RecordUsage(t, run, usage, expected).task;
      RecordUsage(s, run, again, later) == Result(s, if again == usage then Ok(None) else Fail(UsageConflict))
  {
    hide BudgetExhaustion, Aggregate, Sweep, Count, UsageSound;
    assert UsageOf(t.usages + [(run, usage)], run) == Some(usage);
  }

  function Total(usages: seq<(string, Usage)>, measure: Usage -> nat): nat {
    if usages == [] then 0 else Total(usages[..|usages| - 1], measure) + measure(usages[|usages| - 1].1)
  }

  function Reasoning(u: Usage): nat { if u.reasoning.Some? then u.reasoning.value else 0 }

  predicate Under(total: nat, limit: Option<nat>) { limit.Some? ==> total < limit.value }

  /** What the Runs reported, one by one, leaves something of every limit: token limits need complete reports, a
      reasoning limit needs at least one report and every report to count reasoning tokens. */
  ghost predicate WithinBudget(limits: Limits, usages: seq<(string, Usage)>) {
    && (limits.input.Some? || limits.generation.Some? || limits.reasoning.Some? ==>
          forall k :: 0 <= k < |usages| ==> usages[k].1.unreported == 0)
    && (limits.reasoning.Some? ==> usages != [] && forall k :: 0 <= k < |usages| ==> usages[k].1.reasoning.Some?)
    && Under(Total(usages, (u: Usage) => u.invocations), limits.invocations)
    && Under(Total(usages, (u: Usage) => u.input), limits.input)
    && Under(Total(usages, (u: Usage) => u.generation), limits.generation)
    && Under(Total(usages, Reasoning), limits.reasoning)
  }

  /** The aggregate, measure by measure. */
  lemma {:induction false} AggregateIsTotal(usages: seq<(string, Usage)>)
    ensures var a := Aggregate(usages);
      && a.invocations == Total(usages, (u: Usage) => u.invocations)
      && a.input == Total(usages, (u: Usage) => u.input) && a.generation == Total(usages, (u: Usage) => u.generation)
      && (a.unreported == 0 <==> forall k :: 0 <= k < |usages| ==> usages[k].1.unreported == 0)
      && (a.reasoning.Some? <==> forall k :: 0 <= k < |usages| ==> usages[k].1.reasoning.Some?)
      && (a.reasoning.Some? ==> a.reasoning.value == Total(usages, Reasoning))
  {
    if usages != [] { AggregateIsTotal(usages[..|usages| - 1]); }
  }

  /** The budget lets a claim pass if and only if the reports are within it. */
  lemma BudgetAdmitsClaimsExactly(t: Task)
    requires UsageSound(t)
    ensures BudgetExhaustion(t.record, false).None? <==> WithinBudget(t.record.limits, t.usages)
  {
    AggregateIsTotal(t.usages);
  }

  /** Before any usage is recorded: no reasoning limit, and no other limit of zero. */
  lemma FreshBudgetAdmitsClaimsExactly(t: Task)
    requires UsageSound(t) && t.usages == []
    ensures BudgetExhaustion(t.record, false).None? <==>
      var limits := t.record.limits;
      limits.reasoning.None? && limits.invocations != Some(0) && limits.input != Some(0) && limits.generation != Some(0)
  {
    BudgetAdmitsClaimsExactly(t);
  }

  /** A claim beyond the budget hands out nothing; it pauses or fails the task. */
  lemma SpentBudgetStopsClaims(t: Task, now: nat, worker: string, duration: pos, only: Option<string>)
    requires UsageSound(t) && !WithinBudget(t.record.limits, t.usages)
    ensures var r := Claim(t, now, worker, duration, only);
      && (r.reply.Ok? ==> r.reply.value.None?)
      && (r.reply.Ok? ==> r.task.record.status.TaskPaused? || r.task.record.status.TaskFailed?)
  {
    hide Sweep, Count, WithinBudget, BudgetExhaustion, UsageSound;
    BudgetAdmitsClaimsExactly(t);
  }
}
