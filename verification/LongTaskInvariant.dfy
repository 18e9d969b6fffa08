/** What every step of a long task keeps. */
module LongTaskInvariant {
  import opened Prelude
  import opened LongTask

  // ----- the invariant ------------------------------------------------------

  /** A unit has a worker and a lease exactly while it is leased; an expanded unit is no longer required. */
  ghost predicate UnitOk(u: Unit) {
    && (u.status.Leased() <==> u.worker.Some?) && (u.status.Leased() <==> u.expires.Some?) && u.attempt <= u.maxAttempts
    && (u.status.Expanded? ==> !u.required)
  }

  ghost predicate AllOk(units: seq<Unit>) {
    forall k {:trigger UnitOk(units[k])} :: 0 <= k < |units| ==> UnitOk(units[k])
  }

  /** Work on the unit has begun and was not given up. */
  predicate Started(u: Unit) { u.status.Leased() || u.status.Completed? || u.status.Expanded? }

  /** Started units have all their dependencies completed. */
  ghost predicate StartedReady(units: seq<Unit>) {
    forall k {:trigger Started(units[k])} :: 0 <= k < |units| && Started(units[k]) ==> DependenciesDone(units, units[k])
  }

  ghost predicate WellNamed(units: seq<Unit>) { Distinct(UnitIds(units)) && Distinct(Keys(units)) }

  /** No Run belongs to two units. */
  ghost predicate RunsApart(units: seq<Unit>) {
    forall i, j :: 0 <= i < |units| && 0 <= j < |units| && units[i].run.Some? && units[i].run == units[j].run ==> i == j
  }

  ghost predicate UnitsSound(units: seq<Unit>) {
    WellNamed(units) && AllOk(units) && StartedReady(units) && RunsApart(units) && Acyclic(units)
  }

  predicate HasRequired(units: seq<Unit>) { Count(units, Required()) > 0 }

  /** The cached totals are those of a recount. */
  predicate Counted(t: Task) {
    && t.record.total == Count(t.units, Required())
    && t.record.completed == Count(t.units, RequiredCompleted())
    && t.record.failed == Count(t.units, RequiredFailed())
  }

  ghost predicate StatusSound(status: TaskStatus, units: seq<Unit>) {
    && (status.TaskCanceled? ==> forall k :: 0 <= k < |units| ==> units[k].status.Terminal())
    && (status.TaskCompleted? ==> forall k :: 0 <= k < |units| && units[k].required ==> units[k].status.Completed?)
  }

  ghost predicate UsageSound(t: Task) {
    && (forall i, j :: 0 <= i < j < |t.usages| ==> t.usages[i].0 != t.usages[j].0)
    && t.record.usage == if t.usages == [] then NO_USAGE else Aggregate(t.usages)
  }

  ghost predicate Sound(t: Task) {
    && UnitsSound(t.units) && (HasRequired(t.units) ==> Counted(t)) && StatusSound(t.record.status, t.units)
    && UsageSound(t)
  }

  // ----- how units move -----------------------------------------------------

  /** A unit that has reached its end for good. */
  predicate Final(u: Unit) { u.status.Completed? || u.status.Expanded? }

  /** The same unit after a change that starts no work. */
  ghost predicate Milder(u: Unit, v: Unit) {
    && v.id == u.id && v.key == u.key && v.dependencies == u.dependencies && v.required == u.required
    && (Started(v) ==> Started(u)) && (Final(u) ==> v == u) && v.epoch == u.epoch && v.run == u.run
    && (UnitOk(u) ==> UnitOk(v)) && (u.status.Terminal() && !v.status.Terminal() ==> u.status.Recoverable())
    && (v.status.Completed? ==> u.status.Completed?)
    && (v.status.Leased() ==> v.expires == u.expires)
  }

  ghost predicate AllMilder(us: seq<Unit>, vs: seq<Unit>) {
    |us| == |vs| && forall k {:trigger Milder(us[k], vs[k])} :: 0 <= k < |us| ==> Milder(us[k], vs[k])
  }

  /** The same unit after any change that is not an expansion of the task. */
  ghost predicate Moved(us: seq<Unit>, u: Unit, v: Unit) {
    && v.id == u.id && v.key == u.key && v.dependencies == u.dependencies
    && (Started(v) ==> Started(u) || DependenciesDone(us, u))
    && (u.status.Completed? ==> v == u) && (UnitOk(u) ==> UnitOk(v))
  }

  ghost predicate AllMoved(us: seq<Unit>, vs: seq<Unit>) {
    |us| == |vs| && forall k {:trigger Moved(us, us[k], vs[k])} :: 0 <= k < |us| ==> Moved(us, us[k], vs[k])
  }

  lemma MilderIsMoved(us: seq<Unit>, vs: seq<Unit>)
    requires AllMilder(us, vs)
    ensures AllMoved(us, vs)
    ensures forall k :: 0 <= k < |us| ==> vs[k].run == us[k].run
  {
    forall k | 0 <= k < |us| ensures Moved(us, us[k], vs[k]) && vs[k].run == us[k].run { assert Milder(us[k], vs[k]); }
  }

  lemma CompletedStays(us: seq<Unit>, vs: seq<Unit>, u: Unit)
    requires AllMoved(us, vs) && DependenciesDone(us, u)
    ensures DependenciesDone(vs, u)
  {
    forall d | d in u.dependencies ensures DoneIn(vs, d) {
      var k :| 0 <= k < |us| && us[k].id == d && us[k].status.Completed?;
      assert Moved(us, us[k], vs[k]);
    }
  }

  /** Started units keep having their dependencies completed. */
  lemma MovesKeepReady(us: seq<Unit>, vs: seq<Unit>)
    requires AllMoved(us, vs) && StartedReady(us)
    ensures StartedReady(vs)
  {
    forall k | 0 <= k < |vs| && Started(vs[k]) ensures DependenciesDone(vs, vs[k]) {
      assert Moved(us, us[k], vs[k]);
      CompletedStays(us, vs, us[k]);
    }
  }

  lemma MovesKeepNames(us: seq<Unit>, vs: seq<Unit>)
    requires AllMoved(us, vs)
    ensures UnitIds(vs) == UnitIds(us) && Keys(vs) == Keys(us) && KnownDependencies(vs) == KnownDependencies(us)
    ensures AllOk(us) ==> AllOk(vs)
  {
    assert forall k :: 0 <= k < |us| ==> Moved(us, us[k], vs[k]);
    assert UnitIds(vs) == UnitIds(us);
    assert KnownDependencies(vs) == KnownDependencies(us);
    if AllOk(us) {
      forall k | 0 <= k < |vs| ensures UnitOk(vs[k]) { assert Moved(us, us[k], vs[k]) && UnitOk(us[k]); }
    }
  }

  lemma MovesKeepSound(us: seq<Unit>, vs: seq<Unit>)
    requires UnitsSound(us) && AllMoved(us, vs) && RunsApart(vs)
    ensures UnitsSound(vs)
  {
    hide AllMoved, StartedReady, RunsApart, AllOk;
    MovesKeepReady(us, vs);
    MovesKeepNames(us, vs);
  }

  lemma SameRunsApart(us: seq<Unit>, vs: seq<Unit>)
    requires RunsApart(us) && |us| == |vs| && forall k :: 0 <= k < |us| ==> vs[k].run == us[k].run
    ensures RunsApart(vs)
  {
    forall i, j | 0 <= i < |vs| && 0 <= j < |vs| && vs[i].run.Some? && vs[i].run == vs[j].run ensures i == j {
      assert us[i].run == vs[i].run && us[j].run == vs[j].run;
    }
  }

  lemma MilderKeepsSound(us: seq<Unit>, vs: seq<Unit>)
    requires UnitsSound(us) && AllMilder(us, vs)
    ensures UnitsSound(vs)
  {
    hide AllMoved, StartedReady, AllOk, WellNamed, Acyclic, AllMilder, RunsApart;
    MilderIsMoved(us, vs);
    SameRunsApart(us, vs);
    MovesKeepSound(us, vs);
  }

  // ----- one unit replaced --------------------------------------------------

  lemma PutMoves(us: seq<Unit>, k: nat, v: Unit)
    requires k < |us| && Moved(us, us[k], v)
    ensures AllMoved(us, us[k := v])
  {
    forall j | 0 <= j < |us| ensures Moved(us, us[j], us[k := v][j]) { }
  }

  lemma PutMilder(us: seq<Unit>, k: nat, v: Unit)
    requires k < |us| && Milder(us[k], v)
    ensures AllMilder(us, us[k := v])
  {
    forall j | 0 <= j < |us| ensures Milder(us[j], us[k := v][j]) { }
  }

  lemma PutRunsApart(us: seq<Unit>, k: nat, v: Unit)
    requires k < |us| && RunsApart(us) && v.id == us[k].id && WellNamed(us)
    requires v.run == us[k].run || v.run.None? || !AnyUnit(us, UsesRun(v.id, v.run.value))
    ensures RunsApart(us[k := v])
  {
    var vs := us[k := v];
    forall j | 0 <= j < |us| && j != k && v.run.Some? ensures us[j].run != v.run {
      assert UnitIds(us)[j] != UnitIds(us)[k];
      assert UsesRun(v.id, v.run.value)(us[j]) <==> us[j].run == v.run;
    }
  }

  lemma PutKeepsSound(us: seq<Unit>, k: nat, v: Unit)
    requires UnitsSound(us) && k < |us| && Moved(us, us[k], v)
    requires v.run == us[k].run || v.run.None? || !AnyUnit(us, UsesRun(v.id, v.run.value))
    ensures UnitsSound(us[k := v])
  {
    hide AllMoved, StartedReady, AllOk, WellNamed, Acyclic, RunsApart;
    PutMoves(us, k, v);
    PutRunsApart(us, k, v);
    MovesKeepSound(us, us[k := v]);
  }

  // ----- sweeps -------------------------------------------------------------

  /** Applying a mild change to every unit is mild. */
  lemma SweepIsMilder(units: seq<Unit>, f: Unit -> Unit)
    requires forall u :: Milder(u, f(u))
    ensures AllMilder(units, Sweep(units, f))
  {
    forall k | 0 <= k < |units| ensures Milder(units[k], Sweep(units, f)[k]) { }
  }

  lemma CancelIsMild(units: seq<Unit>)
    ensures AllMilder(units, Sweep(units, CancelUnit()))
  {
    SweepIsMilder(units, CancelUnit());
  }

  lemma FailingIsMild(units: seq<Unit>, id: string)
    ensures AllMilder(units, Sweep(units, CancelUnless(id)))
  {
    SweepIsMilder(units, CancelUnless(id));
  }

  lemma ExpiringIsMild(units: seq<Unit>)
    ensures AllMilder(units, Sweep(units, ExpireUnit()))
  {
    SweepIsMilder(units, ExpireUnit());
  }

  lemma ReleasingIsMild(units: seq<Unit>, reason: string)
    ensures AllMilder(units, Sweep(units, ReleaseUnit(reason)))
  {
    SweepIsMilder(units, ReleaseUnit(reason));
  }

  lemma BudgetIsMild(units: seq<Unit>, pause: bool, kind: string)
    ensures AllMilder(units, Sweep(units, BudgetUnit(pause, kind)))
  {
    SweepIsMilder(units, BudgetUnit(pause, kind));
  }

  lemma RevivingIsMild(units: seq<Unit>, extra: nat)
    ensures AllMilder(units, Sweep(units, ReviveUnit(extra)))
  {
    SweepIsMilder(units, ReviveUnit(extra));
  }

  lemma ExhaustingIsMild(units: seq<Unit>, now: nat)
    ensures AllMilder(units, Sweep(units, ExhaustUnit(now)))
  {
    forall u ensures Milder(u, ExhaustUnit(now)(u)) { assert Exhausted(now)(u) ==> u.status.Leased(); }
    SweepIsMilder(units, ExhaustUnit(now));
  }

  // ----- counting -----------------------------------------------------------

  lemma {:induction false} CountsAgree(us: seq<Unit>, vs: seq<Unit>, p: Unit -> bool)
    requires |us| == |vs| && forall k :: 0 <= k < |us| ==> p(us[k]) == p(vs[k])
    ensures Count(us, p) == Count(vs, p)
  {
    if us != [] { CountsAgree(us[..|us| - 1], vs[..|vs| - 1], p); }
  }

  lemma {:induction false} CountFalls(us: seq<Unit>, vs: seq<Unit>, p: Unit -> bool)
    requires |us| == |vs| && forall k :: 0 <= k < |us| ==> p(vs[k]) ==> p(us[k])
    ensures Count(vs, p) <= Count(us, p)
  {
    if us != [] { CountFalls(us[..|us| - 1], vs[..|vs| - 1], p); }
  }

  lemma {:induction false} CountIsZero(us: seq<Unit>, p: Unit -> bool)
    ensures Count(us, p) == 0 <==> forall k :: 0 <= k < |us| ==> !p(us[k])
  {
    if us != [] { CountIsZero(us[..|us| - 1], p); }
  }

  lemma {:induction false} CountPut(us: seq<Unit>, k: nat, v: Unit, p: Unit -> bool)
    requires k < |us|
    ensures Count(us[k := v], p) == Count(us, p) - (if p(us[k]) then 1 else 0) + (if p(v) then 1 else 0)
  {
    var n := |us| - 1;
    if k == n {
      assert us[k := v][..n] == us[..n];
    } else {
      assert us[k := v][..n] == us[..n][k := v];
      CountPut(us[..n], k, v, p);
    }
  }

  /** A change that leaves every unit required, completed and failed as it was keeps the totals. */
  ghost predicate SameTotals(us: seq<Unit>, vs: seq<Unit>) {
    && |us| == |vs|
    && forall k :: 0 <= k < |us| ==>
         && us[k].required == vs[k].required
         && RequiredCompleted()(us[k]) == RequiredCompleted()(vs[k]) && RequiredFailed()(us[k]) == RequiredFailed()(vs[k])
  }

  lemma SameTotalsCount(us: seq<Unit>, vs: seq<Unit>)
    requires SameTotals(us, vs)
    ensures Count(us, Required()) == Count(vs, Required())
    ensures Count(us, RequiredCompleted()) == Count(vs, RequiredCompleted())
    ensures Count(us, RequiredFailed()) == Count(vs, RequiredFailed())
  {
    CountsAgree(us, vs, Required());
    CountsAgree(us, vs, RequiredCompleted());
    CountsAgree(us, vs, RequiredFailed());
  }
}
