/**
 The in-memory repository of the run tree, which updates its maps and counters in place.
 Each method computes what the step of the same name in `AgentTree` says.
 */
module AgentTreeRepository {
  import opened Prelude
  import opened AgentTree
  import Spec = AgentTree
  import opened AgentTreeInvariant
  import opened AgentTreeSteps
  import DependencyGraph

  /** What the caller of a step sees: its result, or the fault it raised. */
  ghost function Reply<T>(r: Outcome<(Tree, T), Fault>): Outcome<T, Fault> {
    match r case Ok(v) => Ok(v.1) case Fail(f) => Fail(f)
  }

  // ----- loops over the runs ------------------------------------------------

  ghost predicate SameInfos(s: Tree, t: Tree) {
    t.runs.Keys == s.runs.Keys && forall r :: r in s.runs ==> t.runs[r].info == s.runs[r].info
  }

  lemma {:induction false} DescendsIgnoresStatus(s: Tree, t: Tree, ancestor: RunId, r: RunId)
    requires RunShape(s) && RunShape(t) && SameInfos(s, t) && r in s.runs
    ensures Descends(s, ancestor, r) == Descends(t, ancestor, r)
    decreases s.runs[r].info.created
  {
    assert RunLinked(s, r);
    if s.runs[r].info.parent.Some? { DescendsIgnoresStatus(s, t, ancestor, s.runs[r].info.parent.value); }
  }

  lemma SameInfosKeepShape(s: Tree, t: Tree)
    requires RunShape(s) && SameInfos(s, t) && s.agents == t.agents
    ensures RunShape(t)
  {
    forall r | r in t.runs ensures RunLinked(t, r) { assert RunLinked(s, r); }
  }

  predicate Counts(run: Run, root: RunId, at: Option<nat>) {
    run.info.root == root && run.status.Running? && (at.Some? ==> !Expired(run, at.value))
  }

  ghost function Counted(runs: map<RunId, Run>, order: seq<RunId>, root: RunId, at: Option<nat>): set<RunId> {
    set r | r in order && r in runs && Counts(runs[r], root, at)
  }

  lemma CountOne(runs: map<RunId, Run>, order: seq<RunId>, i: nat, root: RunId, at: Option<nat>)
    requires i < |order| && Distinct(order) && Elements(order) == runs.Keys
    ensures order[i] in runs
    ensures |Counted(runs, order[..i + 1], root, at)| ==
            |Counted(runs, order[..i], root, at)| + (if Counts(runs[order[i]], root, at) then 1 else 0)
  {
    var id := order[i];
    assert id in Elements(order);
    CountedNext(runs, order, i, root, at);
    assert id !in order[..i];
  }

  lemma CountedNext(runs: map<RunId, Run>, order: seq<RunId>, i: nat, root: RunId, at: Option<nat>)
    requires i < |order| && order[i] in runs
    ensures Counted(runs, order[..i + 1], root, at) ==
      Counted(runs, order[..i], root, at) + (if Counts(runs[order[i]], root, at) then {order[i]} else {})
  {
    hide Counts;
    assert order[..i + 1] == order[..i] + [order[i]];
  }

  lemma CountAll(s: Tree, order: seq<RunId>, root: RunId, at: Option<nat>)
    requires Elements(order) == s.runs.Keys
    ensures at.Some? ==> Counted(s.runs, order, root, at) == Live(s, root, at.value)
    ensures at.None? ==> Counted(s.runs, order, root, at) == RunningUnder(s, root)
  {
    forall r | r in s.runs ensures r in order { assert r in Elements(order); }
  }

  /** Canceling one more run of a set is one more write. */
  lemma CancelOneMore(s: Tree, ids: set<RunId>, r: RunId, code: string)
    requires r in s.runs && s.runs[r].info.id == r && r !in ids
    ensures CancelAll(s, ids, code).runs.Keys == s.runs.Keys && CancelAll(s, ids, code).runs[r] == s.runs[r]
    ensures CancelAll(s, ids + {r}, code) == PutRun(CancelAll(s, ids, code), CancelIfActive(s.runs[r], code))
  {
    assert CancelIfActive(s.runs[r], code).info.id == r;
    hide CancelIfActive;
    var u, v := CancelAll(s, ids + {r}, code), PutRun(CancelAll(s, ids, code), CancelIfActive(s.runs[r], code));
    assert u.runs == v.runs;
  }

  lemma CancelNone(s: Tree, code: string)
    ensures CancelAll(s, {}, code) == s
  {
    assert CancelAll(s, {}, code).runs == s.runs;
  }

  lemma CancelingKeepsInfos(s: Tree, ids: set<RunId>, failed: Run, code: string)
    requires RunShape(s) && failed.info.id in s.runs && failed.info == s.runs[failed.info.id].info
    ensures var t := PutRun(CancelAll(s, ids, code), failed); RunShape(t) && SameInfos(s, t)
  {
    SameInfosKeepShape(s, PutRun(CancelAll(s, ids, code), failed));
  }

  ghost function Swept(s: Tree, order: seq<RunId>, failed: Run, code: string): Tree
    requires RunShape(s)
  {
    PutRun(CancelAll(s, Below(s, failed.info.id) * Elements(order), code), failed)
  }

  lemma SweepCancels(s: Tree, ids: set<RunId>, r: RunId, failed: Run, code: string)
    requires r in s.runs && s.runs[r].info.id == r && r !in ids && r != failed.info.id
    ensures var now := PutRun(CancelAll(s, ids, code), failed);
      && r in now.runs && now.runs[r] == s.runs[r]
      && PutRun(CancelAll(s, ids + {r}, code), failed) == PutRun(now, CancelIfActive(s.runs[r], code))
  {
    CancelOneMore(s, ids, r, code);
    assert CancelIfActive(s.runs[r], code).info.id == r;
    hide CancelIfActive, CancelAll;
    var t, c := CancelAll(s, ids, code), CancelIfActive(s.runs[r], code);
    assert t.runs[r := c][failed.info.id := failed] == t.runs[failed.info.id := failed][r := c];
  }

  lemma SweepPrefix(s: Tree, order: seq<RunId>, i: nat, id: RunId)
    requires RunShape(s) && Distinct(order) && Elements(order) == s.runs.Keys && i < |order| && id in s.runs
    ensures var (below, r) := (Below(s, id), order[i]);
      && r in s.runs && s.runs[r].info.id == r && r !in Elements(order[..i]) && id !in below
      && below * Elements(order[..i + 1]) == below * Elements(order[..i]) + (if Descends(s, id, r) then {r} else {})
  {
    var r := order[i];
    assert r in Elements(order) && order[..i + 1] == order[..i] + [r] && r !in order[..i];
    ShapedRun(s, r);
    if Descends(s, id, id) { NotBelowItself(s, id, id); }
  }

  /** The sweep of a failure takes the runs in order; the next run is canceled if it is active and below. */
  lemma SweepOne(s: Tree, order: seq<RunId>, i: nat, failed: Run, code: string)
    requires RunShape(s) && Distinct(order) && Elements(order) == s.runs.Keys && i < |order|
    requires failed.info.id in s.runs && failed.info == s.runs[failed.info.id].info && failed.info.id in s.runs
    ensures var (now, next, r) := (Swept(s, order[..i], failed, code), Swept(s, order[..i + 1], failed, code), order[i]);
      && RunShape(now) && r in now.runs && now.runs[r].info.id == r
      && next == (if Descends(now, failed.info.id, r) then PutRun(now, CancelIfActive(now.runs[r], code)) else now)
  {
    var r, id := order[i], failed.info.id;
    SweepPrefix(s, order, i, id);
    var ids := Below(s, id) * Elements(order[..i]);
    CancelingKeepsInfos(s, ids, failed, code);
    var now := Swept(s, order[..i], failed, code);
    DescendsIgnoresStatus(s, now, id, r);
    ShapedRun(now, r);
    if Descends(s, id, r) { SweepCancels(s, ids, r, failed, code); }
    hide CancelIfActive, CancelAll, Descends, RunShape, Below, PutRun;
  }

  lemma {:induction false} NotBelowItself(s: Tree, ancestor: RunId, r: RunId)
    requires RunShape(s) && r in s.runs && ancestor in s.runs && Descends(s, ancestor, r)
    ensures s.runs[ancestor].info.created < s.runs[r].info.created
    decreases s.runs[r].info.created
  {
    ShapedRun(s, r);
    var p := s.runs[r].info.parent.value;
    if p != ancestor { NotBelowItself(s, ancestor, p); }
  }

  lemma SweepAll(s: Tree, order: seq<RunId>, id: RunId)
    requires RunShape(s) && Elements(order) == s.runs.Keys
    ensures Below(s, id) * Elements(order) == Below(s, id)
  {
  }

  /** A set of runs that holds `id` and every effect of its members holds everything below `id`. */
  lemma {:induction false} ClosedHoldsBelow(s: Tree, ids: set<RunId>, id: RunId, r: RunId)
    requires RunShape(s) && id in ids && r in s.runs && Descends(s, id, r)
    requires forall q :: q in s.runs && s.runs[q].info.parent.Some? && s.runs[q].info.parent.value in ids ==> q in ids
    ensures r in ids
    decreases s.runs[r].info.created
  {
    ShapedRun(s, r);
    var p := s.runs[r].info.parent.value;
    if p != id { ClosedHoldsBelow(s, ids, id, p); }
  }

  /** The state of a worklist walk down from `id`: `seen` are finished, `pending` are found. */
  ghost predicate Walking(s: Tree, id: RunId, seen: seq<RunId>, pending: seq<RunId>)
    requires RunShape(s)
  {
    && Distinct(seen + pending) && id in seen + pending
    && (forall r :: r in seen + pending ==> r in s.runs && (r == id || Descends(s, id, r)))
    && (forall r :: r in seen + pending && r != id ==>
          s.runs[r].info.parent.Some? && s.runs[r].info.parent.value in seen)
    && (forall r :: r in s.runs && s.runs[r].info.parent.Some? && s.runs[r].info.parent.value in seen ==>
          r in seen + pending)
  }

  lemma WalkEnds(s: Tree, id: RunId, seen: seq<RunId>)
    requires RunShape(s) && Walking(s, id, seen, [])
    ensures Elements(seen) == Below(s, id) + {id}
  {
    assert seen + [] == seen;
    forall r | r in Below(s, id) ensures r in seen { ClosedHoldsBelow(s, Elements(seen), id, r); }
  }

  lemma WalkFits(s: Tree, id: RunId, seen: seq<RunId>, pending: seq<RunId>)
    requires RunShape(s) && Walking(s, id, seen, pending) && pending != []
    ensures |seen| < |s.runs|
  {
    CountTellsDistinct(seen + pending);
    SubsetCount(Elements(seen + pending), s.runs.Keys);
  }

  /** Finishing the last pending run and finding its direct effects goes on walking. */
  lemma WalkOne(s: Tree, id: RunId, seen: seq<RunId>, pending: seq<RunId>, current: RunId, effects: seq<RunId>)
    requires RunShape(s) && id in s.runs && Walking(s, id, seen, pending + [current])
    requires Distinct(effects) && forall r :: r in effects <==> r in s.runs && s.runs[r].info.parent == Some(current)
    ensures Walking(s, id, seen + [current], pending + effects)
  {
    var before, after := seen + (pending + [current]), (seen + [current]) + (pending + effects);
    assert before[|seen| + |pending|] == current;
    forall k | 0 <= k < |seen| ensures seen[k] != current { assert before[k] == seen[k]; }
    forall r | r in effects ensures r !in before && r != id && Descends(s, id, r) {
      ShapedRun(s, r);
      if r == id {
        if current != id { NotBelowItself(s, id, current); }
      }
    }
    WalkDistinct(seen, pending, current, effects);
    forall r | r in after ensures r in s.runs && (r == id || Descends(s, id, r)) {
      if r !in effects { assert r in before; }
    }
    forall r | r in after && r != id
      ensures s.runs[r].info.parent.Some? && s.runs[r].info.parent.value in seen + [current]
    {
      if r !in effects { assert r in before; }
    }
    forall r | r in s.runs && s.runs[r].info.parent.Some? && s.runs[r].info.parent.value in seen + [current]
      ensures r in after
    {
      if s.runs[r].info.parent.value in seen { assert r in before; }
    }
    assert id in before;
  }

  lemma WalkDistinct(seen: seq<RunId>, pending: seq<RunId>, current: RunId, effects: seq<RunId>)
    requires Distinct(seen + (pending + [current])) && Distinct(effects)
    requires forall r :: r in effects ==> r !in seen + (pending + [current])
    ensures Distinct((seen + [current]) + (pending + effects))
  {
    var before, after := seen + (pending + [current]), (seen + [current]) + (pending + effects);
    var m, n := |seen|, |seen| + |pending|;
    forall i, j | 0 <= i < j < |after| ensures after[i] != after[j] {
      var i' := if i < m then i else if i == m then n else i - 1;
      var j' := if j < m then j else if j == m then n else j - 1;
      if j <= n {
        assert after[i] == before[i'] && after[j] == before[j'];
      } else {
        assert after[j] in effects;
        if i <= n { assert after[i] == before[i']; }
      }
    }
  }

  lemma ShapedRun(s: Tree, r: RunId)
    requires RunShape(s) && r in s.runs
    ensures RunLinked(s, r)
  {
  }

  lemma ShapedAgent(s: Tree, a: AgentId)
    requires AgentShape(s) && a in s.agents
    ensures AgentLinked(s, a)
  {
  }

  lemma ChildRunId(c: Spawning, i: nat)
    requires i < |c.children|
    ensures ChildRun(c, i).info.id == GeneratedRun(c.runBase + i + 1)
  {
  }

  lemma NextIdUnused(s: Tree, t: Tree, c: Spawning, k: nat, now: nat)
    requires Consistent(t, now) && Grown(s, t, c, k)
    ensures GeneratedRun(c.runBase + k + 1) !in t.runs
  {
  }

  class RunTreeRepository {
    var agents: map<AgentId, Agent>
    var runs: map<RunId, Run>
    var runOrder: seq<RunId>  // the runs in the order they were added
    var checkpoints: map<nat, Checkpoint>
    var spawnReceipts: map<(RunId, string), SpawnReceipt>
    var continueReceipts: map<(RunId, string), ContinueReceipt>
    var rootCommands: map<RunId, RootCommand>
    var sequence: nat
    var agentSequence: nat
    var runSequence: nat
    var batchSequence: nat
    var checkpointSequence: nat
    ghost var clock: nat  // the last reading of the host's clock

    ghost function View(): Tree
      reads this
    {
      Tree(agents, runs, checkpoints, spawnReceipts, continueReceipts, rootCommands,
           sequence, agentSequence, runSequence, batchSequence, checkpointSequence)
    }

    ghost predicate Ordered()
      reads this
    {
      Distinct(runOrder) && Elements(runOrder) == runs.Keys
    }

    ghost predicate Valid()
      reads this
    {
      Ordered() && Sound(View(), clock)
    }

    constructor ()
      ensures Valid() && View() == EMPTY
    {
      agents, runs, runOrder, checkpoints := map[], map[], [], map[];
      spawnReceipts, continueReceipts, rootCommands := map[], map[], map[];
      sequence, agentSequence, runSequence, batchSequence, checkpointSequence := 0, 0, 0, 0, 0;
      clock := 0;
      new;
      EmptyIsSound(0);
    }

    // ----- queries ----------------------------------------------------------

    method FindActiveRun(a: AgentId) returns (found: bool)
      requires Ordered()
      ensures found == HasActiveRun(View(), a)
    {
      found := false;
      var i := 0;
      while i < |runOrder|
        invariant i <= |runOrder| && !found
        invariant forall k :: 0 <= k < i && runOrder[k] in runs && runs[runOrder[k]].info.agent == a ==>
                    !runs[runOrder[k]].status.Active()
      {
        assert runOrder[i] in Elements(runOrder);
        var run := runs[runOrder[i]];
        if run.info.agent == a && run.status.Active() { return true; }
        i := i + 1;
      }
      forall r | r in runs ensures !(runs[r].info.agent == a && runs[r].status.Active()) {
        assert r in Elements(runOrder);
      }
    }

    method CollectParticipants(root: RunId) returns (joined: set<AgentId>)
      requires Ordered()
      ensures joined == Participants(View(), root)
    {
      joined := {};
      var i := 0;
      while i < |runOrder|
        invariant i <= |runOrder|
        invariant joined <= Participants(View(), root)
        invariant forall k :: 0 <= k < i && runOrder[k] in runs && runs[runOrder[k]].info.root == root ==>
                    runs[runOrder[k]].info.agent in joined
      {
        assert runOrder[i] in Elements(runOrder);
        if runs[runOrder[i]].info.root == root { joined := joined + {runs[runOrder[i]].info.agent}; }
        i := i + 1;
      }
      forall a | a in Participants(View(), root) ensures a in joined {
        var r :| r in runs && runs[r].info.root == root && runs[r].info.agent == a;
        assert r in Elements(runOrder);
      }
    }

    /** Counts the running runs under a root; with `at`, only those whose lease is unexpired then. */
    method CountRunning(root: RunId, at: Option<nat>) returns (n: nat)
      requires Ordered()
      ensures at.Some? ==> n == |Live(View(), root, at.value)|
      ensures at.None? ==> n == |RunningUnder(View(), root)|
    {
      n := 0;
      var i := 0;
      while i < |runOrder|
        invariant i <= |runOrder| && n == |Counted(runs, runOrder[..i], root, at)|
      {
        CountOne(runs, runOrder, i, root, at);
        if Counts(runs[runOrder[i]], root, at) { n := n + 1; }
        i := i + 1;
      }
      assert runOrder[..i] == runOrder;
      CountAll(View(), runOrder, root, at);
    }

    method IsCausalDescendant(ancestor: RunId, r: RunId) returns (below: bool)
      requires RunShape(View()) && r in runs
      ensures below == Descends(View(), ancestor, r)
    {
      var current := r;
      while true
        invariant current in runs
        invariant Descends(View(), ancestor, r) == Descends(View(), ancestor, current)
        decreases runs[current].info.created
      {
        assert RunLinked(View(), current);
        match runs[current].info.parent
        case None => return false;
        case Some(p) =>
          if p == ancestor { return true; }
          current := p;
      }
    }

    method IsAncestor(ancestor: AgentId, a: AgentId) returns (under: bool)
      requires AgentShape(View()) && a in agents
      ensures under == AgentUnder(View(), ancestor, a)
    {
      var current := a;
      while true
        invariant current in agents
        invariant AgentUnder(View(), ancestor, a) == AgentUnder(View(), ancestor, current)
        decreases agents[current].info.depth
      {
        assert AgentLinked(View(), current);
        if current == ancestor { return true; }
        match agents[current].info.parent
        case None => return false;
        case Some(p) => current := p;
      }
    }

    /** Reports whether some active run under the same root was caused by `id`. */
    method HasActiveEffect(id: RunId) returns (found: bool)
      requires Ordered() && RunShape(View()) && id in runs
      ensures found <==> exists r :: r in runs && runs[r].info.root == runs[id].info.root
                                     && runs[r].status.Active() && Descends(View(), id, r)
    {
      var i := 0;
      while i < |runOrder|
        invariant i <= |runOrder|
        invariant forall k :: 0 <= k < i && runOrder[k] in runs ==>
                    !(runs[runOrder[k]].info.root == runs[id].info.root && runs[runOrder[k]].status.Active()
                      && Descends(View(), id, runOrder[k]))
      {
        assert runOrder[i] in Elements(runOrder);
        var run := runs[runOrder[i]];
        if run.info.root == runs[id].info.root && run.status.Active() {
          var below := IsCausalDescendant(id, runOrder[i]);
          if below { return true; }
        }
        i := i + 1;
      }
      forall r | r in runs
        ensures !(runs[r].info.root == runs[id].info.root && runs[r].status.Active() && Descends(View(), id, r))
      {
        assert r in Elements(runOrder);
      }
      found := false;
    }

    method HasUnfinishedDependency(run: Run) returns (found: bool)
      requires forall d :: d in run.info.dependencies ==> d in runs
      ensures found <==> exists d :: d in run.info.dependencies && runs[d].status.Active()
    {
      var i := 0;
      while i < |run.info.dependencies|
        invariant i <= |run.info.dependencies|
        invariant forall k :: 0 <= k < i ==> !runs[run.info.dependencies[k]].status.Active()
      {
        if runs[run.info.dependencies[i]].status.Active() { return true; }
        i := i + 1;
      }
      found := false;
    }

    // ----- leases -----------------------------------------------------------

    /** Advances the ghost clock; the store stays sound as time passes. */
    ghost method Tick(now: nat)
      requires Valid() && clock <= now
      modifies this`clock
      ensures Valid() && clock == now && Shape(View())
    {
      TimeKeepsSound(View(), clock, now);
      clock := now;
    }

    method ClaimRun(id: RunId, owner: string, duration: pos, now: nat) returns (r: Outcome<Option<Run>, Fault>)
      requires Valid() && clock <= now
      modifies this
      ensures Valid() && clock == now
      ensures var e := Spec.ClaimRun(old(View()), now, id, owner, duration);
              View() == After(old(View()), e) && r == Reply(e)
    {
      Tick(now);
      hide Sound, RunShape, AgentShape;
      ClaimIsSound(View(), now, id, owner, duration);
      r := ClaimNow(id, owner, duration, now);
    }

    /** A claim at the current time. */
    method ClaimNow(id: RunId, owner: string, duration: pos, now: nat) returns (r: Outcome<Option<Run>, Fault>)
      requires Ordered() && Shape(View())
      modifies this`runs
      ensures Ordered()
      ensures var e := Spec.ClaimRun(old(View()), now, id, owner, duration);
              View() == After(old(View()), e) && r == Reply(e)
    {
      hide RunShape, AgentShape;
      ghost var s := View();
      if id !in runs { return Fail(RunNotFound); }
      var run := runs[id];
      assert RunLinked(s, id) by { ShapedRun(s, id); }
      if !run.status.Queued? && !Reclaimable(run, now) { return Ok(None); }
      var blocked := HasUnfinishedDependency(run);
      if blocked { return Ok(None); }
      var root := agents[runs[run.info.root].info.agent];
      if root.closed { return Fail(AgentClosed); }
      var active := CountRunning(run.info.root, Some(now));
      if active >= root.info.grant.maxParallelRuns { return Ok(None); }
      var claimed := run.(status := Running, owner := Some(owner), epoch := run.epoch + 1, expiry := Some(now + duration));
      runs := runs[id := claimed];
      return Ok(Some(claimed));
    }

    method SuspendRun(id: RunId, claim: Claim, now: nat) returns (r: Outcome<Run, Fault>)
      requires Valid() && clock <= now
      modifies this
      ensures Valid() && clock == now
      ensures var e := Spec.SuspendRun(old(View()), now, id, claim); View() == After(old(View()), e) && r == Reply(e)
    {
      Tick(now);
      hide Sound, RunShape, AgentShape, DependenciesKnown;
      ghost var s := View();
      SuspendIsSound(s, now, id, claim);
      if id !in runs { return Fail(RunNotFound); }
      var run := runs[id];
      assert RunLinked(s, id) by { ShapedRun(s, id); }
      if !run.status.Running? && !run.status.Waiting? { return Fail(RunNotActive); }
      if !Accepts(run, claim, now) { return Fail(LeaseLost); }
      var suspended := run.(status := Waiting, owner := None, expiry := None);
      runs := runs[id := suspended];
      return Ok(suspended);
    }

    method RenewRunLease(id: RunId, owner: string, epoch: nat, duration: pos, now: nat, later: nat)
      returns (r: Outcome<Run, Fault>)
      requires Valid() && clock <= now <= later
      modifies this
      ensures Valid() && clock == later
      ensures var e := Spec.RenewRunLease(old(View()), now, later, id, owner, epoch, duration);
              View() == After(old(View()), e) && r == Reply(e)
    {
      Tick(now);
      hide Sound, RunShape, AgentShape, DependenciesKnown;
      ghost var s := View();
      RenewIsSound(s, now, later, id, owner, epoch, duration);
      TimeKeepsSound(After(s, Spec.RenewRunLease(s, now, later, id, owner, epoch, duration)), now, later);
      clock := later;
      if id !in runs { return Fail(RunNotFound); }
      var run := runs[id];
      assert RunLinked(s, id) by { ShapedRun(s, id); }
      if !run.status.Running? && !run.status.Waiting? { return Fail(RunNotActive); }
      if !Accepts(run, Claim(Some(owner), Some(epoch)), now) { return Fail(LeaseLost); }
      var renewed := run.(expiry := Some(later + duration));
      runs := runs[id := renewed];
      return Ok(renewed);
    }

    method MarkWaiting(id: RunId, claim: Claim, now: nat) returns (r: Outcome<Run, Fault>)
      requires Valid() && clock <= now
      modifies this
      ensures Valid() && clock == now
      ensures var e := Spec.MarkWaiting(old(View()), now, id, claim); View() == After(old(View()), e) && r == Reply(e)
    {
      Tick(now);
      hide Sound, RunShape, AgentShape, DependenciesKnown;
      ghost var s := View();
      MarkWaitingIsSound(s, now, id, claim);
      if id !in runs { return Fail(RunNotFound); }
      var run := runs[id];
      assert RunLinked(s, id) by { ShapedRun(s, id); }
      if !run.status.Running? { return Fail(StateConflict); }
      if !Accepts(run, claim, now) { return Fail(LeaseLost); }
      var waiting := run.(status := Waiting);
      runs := runs[id := waiting];
      return Ok(waiting);
    }

    method ReleaseWaiting(id: RunId, claim: Claim, now: nat) returns (r: Outcome<Run, Fault>)
      requires Valid() && clock <= now
      modifies this
      ensures Valid() && clock == now
      ensures var e := Spec.ReleaseWaiting(old(View()), now, id, claim); View() == After(old(View()), e) && r == Reply(e)
    {
      Tick(now);
      hide Sound, RunShape, AgentShape, DependenciesKnown;
      ghost var s := View();
      ReleaseWaitingIsSound(s, now, id, claim);
      if id !in runs { return Fail(RunNotFound); }
      var run := runs[id];
      assert RunLinked(s, id) by { ShapedRun(s, id); }
      if !run.status.Waiting? { return Fail(StateConflict); }
      if !Accepts(run, claim, now) { return Fail(LeaseLost); }
      var root := agents[runs[run.info.root].info.agent];
      if root.closed { return Fail(AgentClosed); }
      var active := CountRunning(run.info.root, None);
      if active >= root.info.grant.maxParallelRuns { return Fail(CapacityExceeded); }
      var resumed := run.(status := Running);
      runs := runs[id := resumed];
      return Ok(resumed);
    }

    // ----- settlement -------------------------------------------------------

    method CompleteRun(id: RunId, claim: Claim, expectedVersion: nat, result: string, contentRef: string,
                       fingerprint: string, now: nat) returns (r: Outcome<Run, Fault>)
      requires Valid() && clock <= now
      modifies this
      ensures Valid() && clock == now
      ensures var e := Spec.CompleteRun(old(View()), now, id, claim, expectedVersion, result, contentRef, fingerprint);
              View() == After(old(View()), e) && r == Reply(e)
    {
      Tick(now);
      hide Sound, RunShape, AgentShape, DependenciesKnown;
      ghost var s := View();
      CompleteIsSound(s, now, id, claim, expectedVersion, result, contentRef, fingerprint);
      if id !in runs { return Fail(RunNotFound); }
      var run := runs[id];
      assert RunLinked(s, id) by { ShapedRun(s, id); }
      if !run.status.Running? { return Fail(StateConflict); }
      if !Accepts(run, claim, now) { return Fail(LeaseLost); }
      var unfinished := HasActiveEffect(id);
      if unfinished { return Fail(NotQuiescent); }
      var agent := agents[run.info.agent];
      assert AgentLinked(s, run.info.agent) by { ShapedAgent(s, run.info.agent); }
      if agent.closed { return Fail(AgentClosed); }
      if agent.contextVersion != expectedVersion { return Fail(ContextConflict); }
      var completed := Settle(run, Done, Some(result), run.errorCode);
      RecordCompletion(agent, completed, contentRef, fingerprint);
      return Ok(completed);
    }

    /** The writes of a completion: checkpoint, run and agent. */
    method RecordCompletion(agent: Agent, completed: Run, contentRef: string, fingerprint: string)
      modifies this`checkpointSequence, this`checkpoints, this`runs, this`agents
      ensures View() == Completed(old(View()), agent, completed, contentRef, fingerprint)
    {
      checkpointSequence := checkpointSequence + 1;
      var checkpoint := Checkpoint(agent.info.id, agent.contextVersion + 1, agent.checkpoint, completed.info.id,
                                   contentRef, fingerprint);
      checkpoints := checkpoints[checkpointSequence := checkpoint];
      runs := runs[completed.info.id := completed];
      agents := agents[agent.info.id := agent.(contextVersion := checkpoint.version,
                                               checkpoint := Some(checkpointSequence))];
    }

    method CloseAgent(id: AgentId) returns (r: Outcome<Agent, Fault>)
      requires Valid()
      modifies this`agents
      ensures Valid()
      ensures var e := Spec.CloseAgent(old(View()), id); View() == After(old(View()), e) && r == Reply(e)
    {
      CloseIsSound(View(), clock, id);
      hide Sound;
      if id !in agents { return Fail(AgentNotFound); }
      if agents[id].closed { return Fail(AgentClosed); }
      var busy := FindActiveRun(id);
      if busy { return Fail(AgentBusy); }
      var closed := agents[id].(closed := true);
      agents := agents[id := closed];
      return Ok(closed);
    }

    method FailRun(id: RunId, code: string, claim: Claim, now: nat) returns (r: Outcome<Run, Fault>)
      requires Valid() && clock <= now
      modifies this
      ensures Valid() && clock == now
      ensures var e := Spec.FailRun(old(View()), now, id, code, claim); View() == After(old(View()), e) && r == Reply(e)
    {
      Tick(now);
      hide Sound, RunShape, AgentShape;
      FailIsSound(View(), now, id, code, claim);
      r := FailNow(id, code, claim, now);
    }

    /** A failure at the current time. */
    method FailNow(id: RunId, code: string, claim: Claim, now: nat) returns (r: Outcome<Run, Fault>)
      requires Ordered() && Shape(View())
      modifies this`runs
      ensures Ordered()
      ensures var e := Spec.FailRun(old(View()), now, id, code, claim); View() == After(old(View()), e) && r == Reply(e)
    {
      hide RunShape, AgentShape, DependenciesKnown, CancelAll;
      ghost var s := View();
      if id !in runs { return Fail(RunNotFound); }
      var run := runs[id];
      assert RunLinked(s, id) by { ShapedRun(s, id); }
      if !run.status.Active() { return Ok(run); }
      if !Accepts(run, claim, now) { return Fail(LeaseLost); }
      var failed := Settle(run, Failed, run.result, Some(code));
      runs := runs[id := failed];
      CancelEffects(s, failed);
      return Ok(failed);
    }

    /** Cancels every active run caused by the failed one. */
    method CancelEffects(ghost s: Tree, failed: Run)
      requires Ordered() && RunShape(s) && failed.info.id in s.runs && failed.info == s.runs[failed.info.id].info
      requires View() == PutRun(s, failed)
      modifies this`runs
      ensures Ordered() && View() == PutRun(CancelAll(s, Below(s, failed.info.id), "ancestor_run_failed"), failed)
    {
      hide RunShape, CancelAll, Below;
      ghost var code := "ancestor_run_failed";
      assert runOrder[..0] == [] && Below(s, failed.info.id) * Elements<RunId>([]) == {};
      CancelNone(s, code);
      var i := 0;
      while i < |runOrder|
        invariant i <= |runOrder| && Ordered() && runs.Keys == s.runs.Keys
        invariant View() == Swept(s, runOrder[..i], failed, code)
      {
        SweepOne(s, runOrder, i, failed, code);
        var item := runs[runOrder[i]];
        if item.status.Active() {
          var below := IsCausalDescendant(failed.info.id, runOrder[i]);
          if below {
            runs := runs[item.info.id := Settle(item, Canceled, item.result, Some("ancestor_run_failed"))];
          }
        } else {
          assert runs[item.info.id := item] == runs;
        }
        i := i + 1;
      }
      assert runOrder[..i] == runOrder;
      SweepAll(s, runOrder, failed.info.id);
    }

    /** The runs directly caused by `current`, in the order they were added. */
    method DirectEffects(root: RunId, current: RunId) returns (effects: seq<RunId>)
      requires Ordered() && RunShape(View()) && current in runs && runs[current].info.root == root
      ensures Distinct(effects)
      ensures forall r :: r in effects <==> r in runs && runs[r].info.parent == Some(current)
    {
      effects := [];
      var i := 0;
      while i < |runOrder|
        invariant i <= |runOrder| && Distinct(effects)
        invariant forall r :: r in effects ==> r in runOrder[..i] && r in runs && runs[r].info.parent == Some(current)
        invariant forall k :: 0 <= k < i && runOrder[k] in runs && runs[runOrder[k]].info.parent == Some(current) ==>
                    runOrder[k] in effects
      {
        assert runOrder[i] in Elements(runOrder);
        ShapedRun(View(), runOrder[i]);
        assert runOrder[..i + 1] == runOrder[..i] + [runOrder[i]];
        var info := runs[runOrder[i]].info;
        if info.root == root && info.parent == Some(current) { effects := effects + [runOrder[i]]; }
        i := i + 1;
      }
      forall r | r in runs && runs[r].info.parent == Some(current) ensures r in effects {
        assert r in Elements(runOrder);
      }
    }

    method CancelSubtree(id: RunId) returns (r: Outcome<seq<RunId>, Fault>)
      requires Valid()
      modifies this`runs
      ensures Valid()
      ensures var e := Spec.CancelSubtree(old(View()), id);
        && View() == After(old(View()), e)
        && (e.Fail? ==> r == Fail(e.fault))
        && (e.Ok? ==> r.Ok? && Distinct(r.value) && Elements(r.value) == e.value.1)
    {
      CancelIsSound(View(), clock, id);
      SoundIsShaped(View(), clock);
      hide Sound;
      if id !in runs { return Fail(RunNotFound); }
      var ordered := Subtree(id);
      var canceled := CancelListed(ordered);
      return Ok(canceled);
    }

    /** Walks down from `id` with a stack; every run below is listed once. */
    method Subtree(id: RunId) returns (ordered: seq<RunId>)
      requires Ordered() && RunShape(View()) && id in runs
      ensures Distinct(ordered) && Elements(ordered) == Below(View(), id) + {id}
    {
      var root := runs[id].info.root;
      var pending := [id];
      ordered := [];
      assert ordered + pending == [id];
      while pending != []
        invariant Walking(View(), id, ordered, pending)
        invariant forall r :: r in ordered + pending ==> r in runs && runs[r].info.root == root
        decreases |runs| - |ordered|
      {
        WalkFits(View(), id, ordered, pending);
        var current := pending[|pending| - 1];
        assert current in ordered + pending;
        assert pending == pending[..|pending| - 1] + [current];
        var effects := DirectEffects(root, current);
        WalkOne(View(), id, ordered, pending[..|pending| - 1], current, effects);
        forall r | r in effects ensures runs[r].info.root == root { ShapedRun(View(), r); }
        ordered, pending := ordered + [current], pending[..|pending| - 1] + effects;
      }
      WalkEnds(View(), id, ordered);
      assert ordered + pending == ordered;
    }

    /** Cancels the active ones of the listed runs. */
    method CancelListed(ordered: seq<RunId>) returns (canceled: seq<RunId>)
      requires Ordered() && RunShape(View()) && Distinct(ordered) && Elements(ordered) <= runs.Keys
      modifies this`runs
      ensures Ordered() && View() == CancelAll(old(View()), Elements(ordered), "agent_run_canceled")
      ensures Distinct(canceled)
      ensures Elements(canceled) == set r | r in Elements(ordered) && old(runs)[r].status.Active()
    {
      hide RunShape, CancelAll;
      ghost var s := View();
      ghost var code := "agent_run_canceled";
      canceled := [];
      CancelNone(s, code);
      assert Elements(ordered[..0]) == {};
      var i := 0;
      while i < |ordered|
        invariant i <= |ordered| && Ordered() && runs.Keys == s.runs.Keys
        invariant View() == CancelAll(s, Elements(ordered[..i]), code)
        invariant Distinct(canceled)
        invariant Elements(canceled) == set r | r in Elements(ordered[..i]) && s.runs[r].status.Active()
      {
        var current := ordered[i];
        assert current in Elements(ordered) && current !in ordered[..i];
        assert ordered[..i + 1] == ordered[..i] + [current];
        assert Elements(ordered[..i + 1]) == Elements(ordered[..i]) + {current};
        ShapedRun(s, current);
        CancelOneMore(s, Elements(ordered[..i]), current, code);
        assert current !in Elements(canceled) && Elements(canceled + [current]) == Elements(canceled) + {current};
        var run := runs[current];
        if run.status.Active() {
          runs := runs[current := Settle(run, Canceled, run.result, Some("agent_run_canceled"))];
          canceled := canceled + [current];
        } else {
          assert runs[current := run] == runs;
        }
        i := i + 1;
      }
      assert ordered[..i] == ordered;
    }

    // ----- new runs ---------------------------------------------------------

    /** Writes a new run and its agent. */
    method Enlist(agent: Agent, run: Run)
      requires Ordered() && run.info.id !in runs
      modifies this`agents, this`runs, this`runOrder, this`sequence
      ensures Ordered() && View() == AddRun(old(View()), agent, run)
    {
      assert forall r :: r in runOrder ==> r in Elements(runOrder);
      agents := agents[agent.info.id := agent];
      runs := runs[run.info.id := run];
      assert Elements(runOrder + [run.info.id]) == Elements(runOrder) + {run.info.id};
      runOrder := runOrder + [run.info.id];
      sequence := sequence + 1;
    }

    method BeginRoot(cmd: RootCommand) returns (r: Outcome<Run, Fault>)
      requires Valid()
      modifies this
      ensures Ordered() && clock == old(clock) && (HostIdsFree(old(View()), cmd) ==> Valid())
      ensures var e := Spec.BeginRoot(old(View()), cmd); View() == After(old(View()), e) && r == Reply(e)
    {
      ghost var s := View();
      if HostIdsFree(s, cmd) { BeginRootIsSound(s, clock, cmd); }
      hide Sound, HasActiveRun, RootAdded, NewRootAgent;
      if cmd.runId in runs {
        if cmd.runId in rootCommands && rootCommands[cmd.runId] == cmd { return Ok(runs[cmd.runId]); }
        return Fail(IdempotencyConflict);
      }
      var agent;
      if cmd.agentId in agents {
        agent := agents[cmd.agentId];
        if agent.info.parent.Some? || agent.closed || agent.info.grant != cmd.grant { return Fail(ScopeViolation); }
        var busy := FindActiveRun(cmd.agentId);
        if busy { return Fail(AgentBusy); }
      } else {
        agent := NewRootAgent(cmd);
      }
      var run := RecordRoot(cmd, agent);
      return Ok(run);
    }

    method RecordRoot(cmd: RootCommand, agent: Agent) returns (run: Run)
      requires Ordered() && cmd.runId !in runs
      modifies this`agents, this`runs, this`runOrder, this`sequence, this`rootCommands
      ensures Ordered() && (View(), run) == RootAdded(old(View()), cmd, agent)
    {
      run := NewRun(
        RunInfo(cmd.runId, cmd.agentId, cmd.runId, None, agent.latestRun, None, [],
                Work(cmd.objective, "{}", true, 0), sequence + 1),
        Running);
      Enlist(agent.(latestRun := Some(cmd.runId)), run);
      rootCommands := rootCommands[cmd.runId := cmd];
    }

    method ContinueAgent(requesterId: RunId, key: string, q: Continuation, claim: Claim, now: nat)
      returns (r: Outcome<ContinueReceipt, Fault>)
      requires Valid() && clock <= now
      modifies this
      ensures Valid() && clock == now
      ensures var e := Spec.ContinueAgent(old(View()), now, requesterId, key, q, claim);
              View() == After(old(View()), e) && r == Reply(e)
    {
      Tick(now);
      ghost var s := View();
      ContinueIsSound(s, now, requesterId, key, q, claim);
      assert GeneratedRun(runSequence + 1) !in runs;
      hide Sound, RunShape, AgentShape, DependenciesKnown, ContinuationFault, Continued;
      if (requesterId, key) in continueReceipts {
        var receipt := continueReceipts[(requesterId, key)];
        if receipt.request == q { return Ok(receipt); }
        return Fail(IdempotencyConflict);
      }
      if requesterId !in runs { return Fail(RunNotFound); }
      var requester := runs[requesterId];
      ShapedRun(s, requesterId);
      if !requester.status.Running? && !requester.status.Waiting? { return Fail(RunNotActive); }
      if !Accepts(requester, claim, now) { return Fail(LeaseLost); }
      if q.agentId !in agents { return Fail(AgentNotFound); }
      var target, asking := agents[q.agentId], agents[requester.info.agent];
      ShapedAgent(s, q.agentId);
      ShapedAgent(s, requester.info.agent);
      var refusal := RefuseContinuation(requester, asking, target, q.expectedVersion);
      if refusal.Some? { return Fail(refusal.value); }
      var receipt := RecordContinuation(requester, target, key, q);
      return Ok(receipt);
    }

    method RecordContinuation(requester: Run, target: Agent, key: string, q: Continuation) returns (receipt: ContinueReceipt)
      requires Ordered() && GeneratedRun(runSequence + 1) !in runs
      modifies this`agents, this`runs, this`runOrder, this`sequence, this`runSequence, this`continueReceipts
      ensures Ordered() && (View(), receipt) == Continued(old(View()), requester, target, key, q)
    {
      var run := NewRun(
        RunInfo(GeneratedRun(runSequence + 1), target.info.id, requester.info.root, Some(requester.info.id),
                target.latestRun, None, [], Work(q.message, "{}", q.required, q.priority), sequence + 1),
        Queued);
      var agent := target.(latestRun := Some(run.info.id));
      Enlist(agent, run);
      runSequence := runSequence + 1;
      receipt := ContinueReceipt(q, agent, run);
      continueReceipts := continueReceipts[(requester.info.id, key) := receipt];
    }

    /** The scope, version and capacity checks of a continuation, in order. */
    method RefuseContinuation(requester: Run, asking: Agent, target: Agent, expectedVersion: nat)
      returns (fault: Option<Fault>)
      requires Ordered() && AgentShape(View()) && target.info.id in agents && agents[target.info.id] == target
      requires asking.info.root in agents
      ensures fault == ContinuationFault(View(), requester, asking, target, expectedVersion)
    {
      if target.closed || asking.closed { return Some(AgentClosed); }
      if asking.info.root != target.info.root { return Some(ScopeViolation); }
      var under := IsAncestor(asking.info.id, target.info.id);
      if !under { return Some(ScopeViolation); }
      if target.contextVersion != expectedVersion { return Some(ContextConflict); }
      var busy := FindActiveRun(target.info.id);
      if busy { return Some(AgentBusy); }
      var joined := CollectParticipants(requester.info.root);
      var root := agents[asking.info.root];
      if root.closed { return Some(AgentClosed); }
      if target.info.id !in joined && |joined| >= root.info.grant.maxAgentsPerRoot { return Some(CapacityExceeded); }
      return None;
    }

    method SpawnAgents(parentId: RunId, key: string, children: seq<ChildSpec>, claim: Claim, now: nat)
      returns (r: Outcome<SpawnReceipt, Fault>)
      requires Valid() && clock <= now
      modifies this
      ensures Valid() && clock == now
      ensures var e := Spec.SpawnAgents(old(View()), now, parentId, key, children, claim);
              View() == After(old(View()), e) && r == Reply(e)
    {
      hide Sound, Consistent, Shape, Spec.SpawnAgents, SpawnAllowed, Spawned, SpawnItems, ChildrenWellFormed;
      Tick(now);
      ghost var s := View();
      SpawnIsSound(s, now, parentId, key, children, claim);
      SoundIsConsistent(s, now);
      var settled := PrepareSpawn(parentId, key, children, claim, now);
      if settled.Some? { return settled.value; }
      ghost var checked := SpawnPassedChecks(s, now, parentId, key, children, claim);
      var parent := runs[parentId];
      var c := Spawning(parent, agents[parent.info.agent], key, children, agentSequence, runSequence, sequence,
                        batchSequence + 1);
      var receipt := AddChildren(c, now);
      return Ok(receipt);
    }

    /** The part of a spawn that only reads: its replay or refusal, or nothing if it may go ahead. */
    method PrepareSpawn(parentId: RunId, key: string, children: seq<ChildSpec>, claim: Claim, now: nat)
      returns (settled: Option<Outcome<SpawnReceipt, Fault>>)
      requires Ordered() && Shape(View())
      ensures var e := Spec.SpawnAgents(View(), now, parentId, key, children, claim);
        if settled.Some? then After(View(), e) == View() && settled.value == Reply(e)
        else e.Ok? && (parentId, key) !in spawnReceipts
    {
      hide RunShape, AgentShape, DependenciesKnown, ChildrenWellFormed, SpawnFault, Spawned, SpawnItems;
      if children == [] { return Some(Fail(CapacityExceeded)); }
      var formed := CheckChildren(children);
      if !formed { return Some(Fail(InvalidArgument)); }
      if (parentId, key) in spawnReceipts {
        var receipt := spawnReceipts[(parentId, key)];
        return Some(if receipt.children == children then Ok(receipt) else Fail(IdempotencyConflict));
      }
      if parentId !in runs { return Some(Fail(RunNotFound)); }
      var parent := runs[parentId];
      ShapedRun(View(), parentId);
      if !parent.status.Running? && !parent.status.Waiting? { return Some(Fail(RunNotActive)); }
      if !Accepts(parent, claim, now) { return Some(Fail(LeaseLost)); }
      var refusal := RefuseSpawn(parent.info.root, agents[parent.info.agent], children);
      if refusal.Some? { return Some(Fail(refusal.value)); }
      return None;
    }

    method CheckChildren(children: seq<ChildSpec>) returns (ok: bool)
      ensures ok == ChildrenWellFormed(children)
    {
      var names := Names(children);
      CountTellsDistinct(names);
      assert Elements(names) == set name | name in names;
      if |set name | name in names| != |names| { return false; }
      ok := DependencyGraph.Validate(names, NamedDependencies(children));
    }

    /** The authority and capacity checks of a spawn, in order. */
    method RefuseSpawn(root: RunId, creator: Agent, children: seq<ChildSpec>) returns (fault: Option<Fault>)
      requires Ordered()
      ensures fault == SpawnFault(View(), root, creator, children)
    {
      var grant := creator.info.grant;
      if creator.closed { return Some(AgentClosed); }
      if !grant.canSpawn { return Some(CapabilityEscalation); }
      if creator.info.depth >= grant.maxDepth { return Some(DepthExceeded); }
      if |children| > grant.maxChildrenPerCall { return Some(CapacityExceeded); }
      var joined := CollectParticipants(root);
      if |joined| + |children| > grant.maxAgentsPerRoot { return Some(CapacityExceeded); }
      hide Within;
      var i := 0;
      while i < |children|
        invariant i <= |children|
        invariant forall k :: 0 <= k < i ==> Within(ChildGrant(grant, children[k].grant), grant)
      {
        if !Within(ChildGrant(grant, children[i].grant), grant) { return Some(CapabilityEscalation); }
        i := i + 1;
      }
      return None;
    }

    /** Writes the children one by one, then the receipt. */
    method AddChildren(c: Spawning, ghost now: nat) returns (receipt: SpawnReceipt)
      requires Ordered() && Consistent(View(), now) && SpawnAllowed(View(), c)
      requires c.batch == batchSequence + 1
      modifies this`agents, this`runs, this`runOrder, this`sequence
      modifies this`agentSequence, this`runSequence, this`batchSequence, this`spawnReceipts
      ensures Ordered()
      ensures receipt == SpawnReceipt(c.children, c.batch, SpawnItems(c, |c.children|))
      ensures View() == Spawned(old(View()), c, receipt)
    {
      hide Consistent, SpawnAllowed, Grown, ChildAgent, ChildRun;
      ghost var s := View();
      var items := [];
      var i := 0;
      while i < |c.children|
        invariant i <= |c.children| && Ordered() && items == SpawnItems(c, i)
        invariant View() == ChildrenAdded(s, c, i) && spawnReceipts == s.spawns
      {
        ChildrenGrow(s, c, i, now);
        NextIdUnused(s, View(), c, i, now);
        var agent, run := ChildAgent(c, i), ChildRun(c, i);
        ChildRunId(c, i);
        agentSequence := agentSequence + 1;
        runSequence := runSequence + 1;
        Enlist(agent, run);
        items := items + [(agent, run)];
        i := i + 1;
      }
      batchSequence := c.batch;
      receipt := SpawnReceipt(c.children, c.batch, items);
      spawnReceipts := spawnReceipts[(c.parent.info.id, c.key) := receipt];
    }
  }
}
