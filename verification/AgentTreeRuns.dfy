/** What holds over every run of the repository: any commands, in any order, under a monotone clock. */
module AgentTreeRuns {
  import opened Prelude
  import opened AgentTree
  import opened AgentTreeInvariant
  import opened AgentTreeSteps

  // ----- what one step may change -------------------------------------------

  /** A settled run never changes; an epoch never falls, and within one epoch a lease
      is only given up, kept, or extended while it is unexpired. */
  predicate LifeEvolves(a: Run, b: Run, now: nat) {
    && b.info == a.info && (!a.status.Active() ==> b == a)
    && a.epoch <= b.epoch
    && (a.epoch == b.epoch ==>
          b.owner.None? || (b.owner == a.owner && (b.expiry == a.expiry || !Expired(a, now))))
  }

  /** An agent keeps its identity and grant; its context moves only when one of its runs ends. */
  ghost predicate AgentEvolves(s: Tree, t: Tree, a: AgentId)
    requires a in s.agents
  {
    && a in t.agents && t.agents[a].info == s.agents[a].info
    && (s.agents[a].closed ==> t.agents[a].closed)
    && (t.agents[a].contextVersion == s.agents[a].contextVersion
        || exists r :: r in s.runs && s.runs[r].info.agent == a && s.runs[r].status.Active()
                       && r in t.runs && !t.runs[r].status.Active())
  }

  ghost predicate Evolves(s: Tree, t: Tree, now: nat) {
    && (forall r :: r in s.runs ==> r in t.runs && LifeEvolves(s.runs[r], t.runs[r], now))
    && (forall a {:trigger AgentEvolves(s, t, a)} :: a in s.agents ==> AgentEvolves(s, t, a))
  }

  lemma PutEvolves(s: Tree, b: Run, now: nat)
    requires b.info.id in s.runs && LifeEvolves(s.runs[b.info.id], b, now)
    ensures Evolves(s, PutRun(s, b), now)
  {
  }

  /** Adding runs and refreshing an agent's latest run evolves the tree. */
  lemma GrowthEvolves(s: Tree, t: Tree, now: nat)
    requires forall r :: r in s.runs ==> r in t.runs && t.runs[r] == s.runs[r]
    requires forall a :: a in s.agents ==> a in t.agents && t.agents[a] == s.agents[a].(latestRun := t.agents[a].latestRun)
    ensures Evolves(s, t, now)
  {
  }

  lemma ClaimStepEvolves(s: Tree, now: nat, cmd: Command)
    requires Shape(s) && cmd.DoClaim?
    ensures Evolves(s, Step(s, now, cmd), now)
  {
    hide Evolves;
    if cmd.run in s.runs { assert RunLinked(s, cmd.run); }
    hide RunShape, AgentShape, DependenciesKnown;
    var r := ClaimRun(s, now, cmd.run, cmd.owner, cmd.duration);
    if r.Ok? && r.value.1.Some? { PutEvolves(s, r.value.1.value, now); } else { GrowthEvolves(s, s, now); }
  }

  lemma WaitStepEvolves(s: Tree, now: nat, cmd: Command)
    requires Shape(s) && (cmd.DoSuspend? || cmd.DoMarkWaiting? || cmd.DoReleaseWaiting?)
    ensures Evolves(s, Step(s, now, cmd), now)
  {
    hide Evolves;
    if cmd.run in s.runs { assert RunLinked(s, cmd.run); }
    hide RunShape, AgentShape, DependenciesKnown, Accepts, RunningUnder;
    var r :=
      if cmd.DoSuspend? then SuspendRun(s, now, cmd.run, cmd.claim)
      else if cmd.DoMarkWaiting? then MarkWaiting(s, now, cmd.run, cmd.claim)
      else ReleaseWaiting(s, now, cmd.run, cmd.claim);
    if r.Ok? { PutEvolves(s, r.value.1, now); } else { GrowthEvolves(s, s, now); }
  }

  lemma RenewStepEvolves(s: Tree, now: nat, cmd: Command)
    requires Shape(s) && LeasesFormed(s) && cmd.DoRenew?
    ensures Evolves(s, Step(s, now, cmd), now)
  {
    hide Evolves;
    if cmd.run in s.runs { assert RunLinked(s, cmd.run) && LeaseForm(s.runs[cmd.run]); }
    hide RunShape, AgentShape, DependenciesKnown;
    var r := RenewRunLease(s, now, cmd.later, cmd.run, cmd.owner, cmd.epoch, cmd.duration);
    if r.Ok? { PutEvolves(s, r.value.1, now); } else { GrowthEvolves(s, s, now); }
  }

  lemma CancelEvolves(s: Tree, ids: set<RunId>, code: string, now: nat)
    ensures Evolves(s, CancelAll(s, ids, code), now)
  {
    forall a | a in s.agents ensures AgentEvolves(s, CancelAll(s, ids, code), a) { }
  }

  lemma SettledEvolves(s: Tree, ids: set<RunId>, code: string, b: Run, now: nat)
    requires b.info.id in s.runs && LifeEvolves(s.runs[b.info.id], b, now)
    ensures Evolves(s, PutRun(CancelAll(s, ids, code), b), now)
  {
    forall a | a in s.agents ensures AgentEvolves(s, PutRun(CancelAll(s, ids, code), b), a) { }
  }

  lemma FailStepEvolves(s: Tree, now: nat, cmd: Command)
    requires Shape(s) && cmd.DoFail?
    ensures Evolves(s, Step(s, now, cmd), now)
  {
    if cmd.run in s.runs { assert RunLinked(s, cmd.run); }
    hide Evolves, CancelAll, Below, Accepts, RunShape, AgentShape, DependenciesKnown;
    GrowthEvolves(s, s, now);
    if cmd.run in s.runs {
      var run := s.runs[cmd.run];
      if run.status.Active() {
        SettledEvolves(s, Below(s, cmd.run), "ancestor_run_failed", Settle(run, Failed, run.result, Some(cmd.code)), now);
      }
    }
  }

  lemma CancelStepEvolves(s: Tree, now: nat, cmd: Command)
    requires Shape(s) && cmd.DoCancel?
    ensures Evolves(s, Step(s, now, cmd), now)
  {
    hide Evolves, CancelAll, Below, RunShape, AgentShape, DependenciesKnown;
    GrowthEvolves(s, s, now);
    if cmd.run in s.runs { CancelEvolves(s, Below(s, cmd.run) + {cmd.run}, "agent_run_canceled", now); }
  }

  lemma SettleStepEvolves(s: Tree, now: nat, cmd: Command)
    requires Shape(s) && (cmd.DoFail? || cmd.DoCancel?)
    ensures Evolves(s, Step(s, now, cmd), now)
  {
    hide Evolves, Step, Shape;
    if cmd.DoFail? { FailStepEvolves(s, now, cmd); } else { CancelStepEvolves(s, now, cmd); }
  }

  lemma CompletionEvolves(s: Tree, agent: Agent, done: Run, ref: string, fp: string, now: nat)
    requires done.info.id in s.runs && LifeEvolves(s.runs[done.info.id], done, now)
    requires s.runs[done.info.id].status.Active() && done.status.Done?
    requires agent.info.id == done.info.agent && agent.info.id in s.agents && s.agents[agent.info.id] == agent
    ensures Evolves(s, Completed(s, agent, done, ref, fp), now)
  {
    var t := Completed(s, agent, done, ref, fp);
    assert done.info.id in s.runs && !t.runs[done.info.id].status.Active();
    forall a | a in s.agents ensures AgentEvolves(s, t, a) { }
  }

  lemma CompleteStepEvolves(s: Tree, now: nat, cmd: Command)
    requires Shape(s) && cmd.DoComplete?
    ensures Evolves(s, Step(s, now, cmd), now)
  {
    hide Evolves;
    var r := CompleteRun(s, now, cmd.run, cmd.claim, cmd.version, cmd.result, cmd.contentRef, cmd.fingerprint);
    if r.Ok? {
      assert RunLinked(s, cmd.run) && AgentLinked(s, s.runs[cmd.run].info.agent);
      CompletionEvolves(s, s.agents[s.runs[cmd.run].info.agent], r.value.1, cmd.contentRef, cmd.fingerprint, now);
    } else {
      GrowthEvolves(s, s, now);
    }
  }

  lemma CloseStepEvolves(s: Tree, now: nat, cmd: Command)
    requires Shape(s) && cmd.DoClose?
    ensures Evolves(s, Step(s, now, cmd), now)
  {
    hide RunShape, AgentShape, DependenciesKnown;
  }

  lemma SpawnStepEvolves(s: Tree, now: nat, cmd: Command)
    requires Sound(s, now) && cmd.DoSpawn?
    ensures Evolves(s, Step(s, now, cmd), now)
  {
    hide Evolves;
    var r := SpawnAgents(s, now, cmd.parent, cmd.spawnKey, cmd.children, cmd.claim);
    if r.Ok? && (cmd.parent, cmd.spawnKey) !in s.spawns {
      var c := SpawnPassedChecks(s, now, cmd.parent, cmd.spawnKey, cmd.children, cmd.claim);
      ChildrenGrow(s, c, |c.children|, now);
      hide Consistent, ChildrenWellFormed, DependenciesKnown, SpawnAllowed, SpawnAgents, ChildrenAdded;
      GrowthEvolves(s, Spawned(s, c, r.value.1), now);
    } else {
      GrowthEvolves(s, s, now);
    }
  }

  lemma RootStepEvolves(s: Tree, now: nat, cmd: Command)
    requires Shape(s) && cmd.DoBeginRoot?
    ensures Evolves(s, Step(s, now, cmd), now)
  {
    hide Evolves;
    var r := BeginRoot(s, cmd.root);
    if r.Ok? && cmd.root.runId !in s.runs {
      if cmd.root.agentId in s.agents { assert AgentLinked(s, cmd.root.agentId); }
      hide RunShape, AgentShape, DependenciesKnown, HasActiveRun;
      GrowthEvolves(s, r.value.0, now);
    } else {
      hide RunShape, AgentShape, DependenciesKnown;
      GrowthEvolves(s, s, now);
    }
  }

  lemma ContinueStepEvolves(s: Tree, now: nat, cmd: Command)
    requires Shape(s) && Unused(s) && cmd.DoContinue?
    ensures Evolves(s, Step(s, now, cmd), now)
  {
    hide Evolves;
    var r := ContinueAgent(s, now, cmd.requester, cmd.continueKey, cmd.request, cmd.claim);
    if r.Ok? && (cmd.requester, cmd.continueKey) !in s.continues {
      assert AgentLinked(s, cmd.request.agentId) && GeneratedRun(s.runSeq + 1) !in s.runs;
      hide RunShape, AgentShape, DependenciesKnown, AgentUnder, Participants, HasActiveRun;
      GrowthEvolves(s, r.value.0, now);
    } else {
      hide RunShape, AgentShape, DependenciesKnown;
      GrowthEvolves(s, s, now);
    }
  }

  lemma StepEvolves(s: Tree, now: nat, cmd: Command)
    requires Sound(s, now) && Admissible(s, now, cmd)
    ensures Evolves(s, Step(s, now, cmd), now)
  {
    hide Evolves, RunShape, AgentShape, DependenciesKnown, Step;
    match cmd
    case DoBeginRoot(_) => RootStepEvolves(s, now, cmd);
    case DoSpawn(_, _, _, _) => SpawnStepEvolves(s, now, cmd);
    case DoContinue(_, _, _, _) => ContinueStepEvolves(s, now, cmd);
    case DoClaim(_, _, _) => ClaimStepEvolves(s, now, cmd);
    case DoRenew(_, _, _, _, _) => RenewStepEvolves(s, now, cmd);
    case DoComplete(_, _, _, _, _, _) => CompleteStepEvolves(s, now, cmd);
    case DoFail(_, _, _) => SettleStepEvolves(s, now, cmd);
    case DoCancel(_) => SettleStepEvolves(s, now, cmd);
    case DoClose(_) => CloseStepEvolves(s, now, cmd);
    case _ => WaitStepEvolves(s, now, cmd);
  }

  // ----- executions ---------------------------------------------------------

  datatype Event = Event(now: nat, cmd: Command)

  /** The repository goes on from a tree: admissible commands under a clock that never goes back. */
  ghost predicate GoesOn(s: Tree, from: nat, states: seq<Tree>, events: seq<Event>) {
    && |states| == |events| + 1 && states[0] == s && (events != [] ==> from <= events[0].now)
    && (forall i {:trigger Follows(states, events, i)} :: 0 <= i < |events| ==> Follows(states, events, i))
  }

  /** A run of the repository from the empty tree. */
  ghost predicate Execution(states: seq<Tree>, events: seq<Event>) {
    GoesOn(EMPTY, 0, states, events)
  }

  ghost predicate Follows(states: seq<Tree>, events: seq<Event>, i: nat)
    requires |states| == |events| + 1 && i < |events|
  {
    && (i > 0 ==> events[i - 1].now <= events[i].now)
    && Admissible(states[i], events[i].now, events[i].cmd)
    && states[i + 1] == if Shape(states[i]) then Step(states[i], events[i].now, events[i].cmd) else states[i]
  }

  /** `t` is a possible clock reading while the repository is in state `i`. */
  predicate ClockAt(events: seq<Event>, i: nat, t: nat) {
    && (0 < i <= |events| ==> events[i - 1].now <= t)
    && (i < |events| ==> t <= events[i].now)
  }

  /** Whatever goes on from a sound tree stays sound, at any later reading of the clock. */
  lemma {:induction false} ContinuationsStaySound(s: Tree, from: nat, states: seq<Tree>, events: seq<Event>, i: nat, t: nat)
    requires Sound(s, from) && GoesOn(s, from, states, events) && i <= |events| && ClockAt(events, i, t) && from <= t
    ensures Sound(states[i], t)
    ensures i > 0 ==> Sound(states[i - 1], events[i - 1].now) && from <= events[i - 1].now
    decreases i
  {
    hide Sound, Step, Admissible;
    if i == 0 {
      TimeKeepsSound(s, from, t);
    } else {
      assert Follows(states, events, i - 1);
      var now := events[i - 1].now;
      if i > 1 {
        assert Follows(states, events, i - 2);
        ClockIsLater(s, from, states, events, i - 1);
      }
      ContinuationsStaySound(s, from, states, events, i - 1, now);
      assert Shape(states[i - 1]) by { SoundIsShaped(states[i - 1], now); }
      StepIsSound(states[i - 1], now, events[i - 1].cmd);
      TimeKeepsSound(states[i], now, t);
    }
  }

  lemma {:induction false} ClockIsLater(s: Tree, from: nat, states: seq<Tree>, events: seq<Event>, i: nat)
    requires GoesOn(s, from, states, events) && i < |events|
    ensures from <= events[i].now
  {
    if i > 0 {
      assert Follows(states, events, i);
      ClockIsLater(s, from, states, events, i - 1);
    }
  }

  /** Every reachable tree satisfies the whole invariant, at any later reading of the clock. */
  lemma ReachableTreesAreSound(states: seq<Tree>, events: seq<Event>, i: nat, t: nat)
    requires Execution(states, events) && i <= |events| && ClockAt(events, i, t)
    ensures Sound(states[i], t)
  {
    hide Sound;
    EmptyIsSound(0);
    ContinuationsStaySound(EMPTY, 0, states, events, i, t);
  }

  lemma ConsecutiveTreesEvolve(states: seq<Tree>, events: seq<Event>, i: nat)
    requires Execution(states, events) && i < |events|
    ensures Sound(states[i], events[i].now) && Evolves(states[i], states[i + 1], events[i].now)
  {
    hide Sound, Step, Evolves, Admissible;
    assert Follows(states, events, i);
    if i > 0 { assert Follows(states, events, i - 1); }
    ReachableTreesAreSound(states, events, i, events[i].now);
    SoundIsShaped(states[i], events[i].now);
    StepEvolves(states[i], events[i].now, events[i].cmd);
  }

  // ----- causes -------------------------------------------------------------

  /** A terminal run has no active causal descendant. */
  lemma {:induction false} CausesOfActiveRunsAreActive(s: Tree, ancestor: RunId, r: RunId)
    requires RunShape(s) && CausesActive(s) && r in s.runs && s.runs[r].status.Active() && Descends(s, ancestor, r)
    ensures ancestor in s.runs && s.runs[ancestor].status.Active()
    decreases s.runs[r].info.created
  {
    assert RunLinked(s, r) && CauseActive(s, r);
    var p := s.runs[r].info.parent.value;
    if p != ancestor { CausesOfActiveRunsAreActive(s, ancestor, p); }
  }

  lemma {:induction false} RunsDescendFromTheirRoot(s: Tree, r: RunId)
    requires RunShape(s) && r in s.runs
    ensures s.runs[r].info.root == r || Descends(s, s.runs[r].info.root, r)
    decreases s.runs[r].info.created
  {
    assert RunLinked(s, r);
    if s.runs[r].info.parent.Some? { RunsDescendFromTheirRoot(s, s.runs[r].info.parent.value); }
  }

  /** In every reachable tree the root run of an active run is active, and its root agent is open. */
  lemma ActiveRunsHaveLiveRoots(states: seq<Tree>, events: seq<Event>, i: nat, r: RunId)
    requires Execution(states, events) && i <= |events| && r in states[i].runs && states[i].runs[r].status.Active()
    ensures Shape(states[i])
    ensures forall q :: q in states[i].runs && Descends(states[i], q, r) ==> states[i].runs[q].status.Active()
    ensures states[i].runs[r].info.root in states[i].runs
    ensures states[i].runs[states[i].runs[r].info.root].status.Active() && !RootAgent(states[i], r).closed
  {
    assert i > 0;
    var t := events[i - 1].now;
    if 0 < i < |events| { assert Follows(states, events, i); }
    ReachableTreesAreSound(states, events, i, t);
    var s := states[i];
    forall q | q in s.runs && Descends(s, q, r) ensures s.runs[q].status.Active() {
      CausesOfActiveRunsAreActive(s, q, r);
    }
    assert RunLinked(s, r);
    RunsDescendFromTheirRoot(s, r);
  }

  // ----- leases -------------------------------------------------------------

  /** The token of a claim: who, and which epoch. */
  function Token(owner: string, epoch: nat): Claim { Claim(Some(owner), Some(epoch)) }

  /** The token handed out by a claim is accepted at once and is never from the future. */
  lemma ClaimIssuesToken(s: Tree, now: nat, id: RunId, owner: string, duration: pos)
    requires Shape(s) && ClaimRun(s, now, id, owner, duration).Ok?
    requires ClaimRun(s, now, id, owner, duration).value.1.Some?
    ensures var (t, r) := ClaimRun(s, now, id, owner, duration).value;
      && id in t.runs && t.runs[id] == r.value && Accepts(t.runs[id], Token(owner, r.value.epoch), now)
      && t.runs[id].epoch == s.runs[id].epoch + 1
  {
    assert RunLinked(s, id);
  }

  /** What `listRunnable` selects (typescript/src/agent-tree.ts:890-907). */
  ghost predicate Runnable(s: Tree, now: nat, r: RunId)
    requires Shape(s) && r in s.runs
  {
    && (forall d :: d in s.runs[r].info.dependencies ==> d in s.runs && !s.runs[d].status.Active())
    && (s.runs[r].status.Queued? || Reclaimable(s.runs[r], now))
  }

  /** A run is claimed exactly when it is listed as runnable and its root has a free slot;
      a listed run is never refused for a closed root. */
  lemma ListedRunsAreClaimable(s: Tree, now: nat, r: RunId, owner: string, duration: pos)
    requires Sound(s, now) && r in s.runs
    ensures Shape(s)
    ensures var c := ClaimRun(s, now, r, owner, duration);
      && c.Ok?
      && (c.value.1.Some? <==>
            && Runnable(s, now, r)
            && |Live(s, s.runs[r].info.root, now)| < RootAgent(s, r).info.grant.maxParallelRuns)
  {
    assert RunLinked(s, r);
    if s.runs[r].status.Active() {
      RunsDescendFromTheirRoot(s, r);
      if s.runs[r].info.root != r { CausesOfActiveRunsAreActive(s, s.runs[r].info.root, r); }
    }
  }

  lemma RejectionPersists(a: Run, b: Run, owner: string, epoch: nat, t: nat, now: nat, t': nat)
    requires LeaseForm(a) && LeaseForm(b) && LifeEvolves(a, b, now) && t <= now && t <= t'
    requires epoch <= a.epoch && !Accepts(a, Token(owner, epoch), t)
    ensures epoch <= b.epoch && !Accepts(b, Token(owner, epoch), t')
  {
  }

  /** Once rejected, for whatever reason, an issued token is rejected for ever. */
  lemma {:induction false} RejectedTokenStaysRejected(
      states: seq<Tree>, events: seq<Event>, i: nat, j: nat, r: RunId, owner: string, epoch: nat, t: nat, t': nat)
    requires Execution(states, events) && i <= j <= |events|
    requires ClockAt(events, i, t) && ClockAt(events, j, t') && t <= t'
    requires r in states[i].runs && epoch <= states[i].runs[r].epoch
    requires !Accepts(states[i].runs[r], Token(owner, epoch), t)
    ensures r in states[j].runs && epoch <= states[j].runs[r].epoch
    ensures !Accepts(states[j].runs[r], Token(owner, epoch), t')
    decreases j
  {
    if i < j {
      var now := events[j - 1].now;
      ConsecutiveTreesEvolve(states, events, j - 1);
      ReachableTreesAreSound(states, events, j, t');
      var before := if j - 1 == i then t else now;
      if j - 1 > i {
        ClockMonotone(states, events, i, j - 1);
      }
      assert ClockAt(events, j - 1, before) by { if j > 1 { assert Follows(states, events, j - 1); } }
      RejectedTokenStaysRejected(states, events, i, j - 1, r, owner, epoch, t, before);
      SoundIsShaped(states[j - 1], now);
      SoundIsShaped(states[j], t');
      hide Sound;
      RejectionPersists(states[j - 1].runs[r], states[j].runs[r], owner, epoch, before, now, t');
    } else {
      ReachableTreesAreSound(states, events, i, t);
      SoundIsShaped(states[i], t);
      hide Sound;
      RejectionPersists(states[i].runs[r], states[i].runs[r], owner, epoch, t, t, t');
    }
  }

  /** A token of an earlier epoch than the run's is rejected, now and for ever: a newer claim shuts the older one out. */
  lemma SupersededTokenIsRejected(
      states: seq<Tree>, events: seq<Event>, i: nat, j: nat, r: RunId, owner: string, epoch: nat, t: nat, t': nat)
    requires Execution(states, events) && i <= j <= |events|
    requires ClockAt(events, i, t) && ClockAt(events, j, t') && t <= t'
    requires r in states[i].runs && epoch < states[i].runs[r].epoch
    ensures r in states[j].runs && !Accepts(states[j].runs[r], Token(owner, epoch), t')
  {
    RejectedTokenStaysRejected(states, events, i, j, r, owner, epoch, t, t');
  }

  lemma {:induction false} ClockMonotone(states: seq<Tree>, events: seq<Event>, i: nat, j: nat)
    requires Execution(states, events) && i <= j < |events|
    ensures events[i].now <= events[j].now
    decreases j
  {
    if i < j {
      ClockMonotone(states, events, i, j - 1);
      assert Follows(states, events, j);
    }
  }

  // ----- contexts -----------------------------------------------------------

  /** While a run stays active, its agent's context version stands still. */
  lemma {:induction false} ContextStandsStill(states: seq<Tree>, events: seq<Event>, i: nat, j: nat, r: RunId)
    requires Execution(states, events) && i <= j <= |events| && r in states[i].runs
    requires r in states[j].runs && states[j].runs[r].status.Active()
    ensures states[i].runs[r].status.Active() && states[j].runs[r].info == states[i].runs[r].info
    ensures
      var a := states[i].runs[r].info.agent;
      && a in states[i].agents && a in states[j].agents
      && states[j].agents[a].contextVersion == states[i].agents[a].contextVersion
    decreases j
  {
    if i < j {
      ConsecutiveTreesEvolve(states, events, j - 1);
      RunsPersist(states, events, i, j - 1, r);
      var s, t := states[j - 1], states[j];
      var now := events[j - 1].now;
      SoundIsShaped(s, now);
      assert LifeEvolves(s.runs[r], t.runs[r], now);
      ContextStandsStill(states, events, i, j - 1, r);
      var a := s.runs[r].info.agent;
      assert AgentEvolves(s, t, a);
    } else {
      assert i > 0;
      ReachableTreesAreSound(states, events, i, if i < |events| then events[i].now else events[i - 1].now)
        by { if i < |events| { assert Follows(states, events, i); } }
      assert RunLinked(states[i], r);
    }
  }

  lemma {:induction false} RunsPersist(states: seq<Tree>, events: seq<Event>, i: nat, j: nat, r: RunId)
    requires Execution(states, events) && i <= j <= |events| && r in states[i].runs
    ensures r in states[j].runs
    decreases j
  {
    if i < j {
      RunsPersist(states, events, i, j - 1, r);
      ConsecutiveTreesEvolve(states, events, j - 1);
    }
  }

  /** A completion that uses the version read at any moment of the run's activity never conflicts,
      and never finds its agent closed. */
  lemma CompletionNeverConflicts(states: seq<Tree>, events: seq<Event>, i: nat, j: nat, r: RunId, now: nat,
                                 claim: Claim, result: string, ref: string, fp: string)
    requires Execution(states, events) && i <= j <= |events| && r in states[i].runs
    requires r in states[j].runs && states[j].runs[r].status.Running? && ClockAt(events, j, now)
    ensures Shape(states[j]) && states[i].runs[r].info.agent in states[i].agents
    ensures var version := states[i].agents[states[i].runs[r].info.agent].contextVersion;
            var outcome := CompleteRun(states[j], now, r, claim, version, result, ref, fp);
            outcome.Ok? || outcome.fault.LeaseLost? || outcome.fault.NotQuiescent?
  {
    ContextStandsStill(states, events, i, j, r);
    ReachableTreesAreSound(states, events, j, now);
    assert RunLinked(states[j], r);
  }

  /** The checkpoints of a chain, oldest first. */
  ghost function Chain(s: Tree, c: Option<nat>): seq<nat>
    requires ChainsLinked(s) && (c.Some? ==> c.value in s.checkpoints)
    decreases if c.Some? then s.checkpoints[c.value].version else 0
  {
    if c.None? then []
    else
      assert ChainLinked(s, c.value);
      Chain(s, s.checkpoints[c.value].previous) + [c.value]
  }

  lemma {:induction false} ChainCounts(s: Tree, c: nat)
    requires ChainsLinked(s) && c in s.checkpoints
    ensures
      var chain := Chain(s, Some(c));
      && |chain| == s.checkpoints[c].version
      && forall k :: 0 <= k < |chain| ==>
           && chain[k] in s.checkpoints && s.checkpoints[chain[k]].version == k + 1
           && s.checkpoints[chain[k]].agent == s.checkpoints[c].agent
    decreases s.checkpoints[c].version
  {
    assert ChainLinked(s, c);
    if s.checkpoints[c].previous.Some? { ChainCounts(s, s.checkpoints[c].previous.value); }
  }

  /** The runs whose contexts a chain records. */
  ghost function Sources(s: Tree, chain: seq<nat>): set<RunId>
    requires forall c :: c in chain ==> c in s.checkpoints
  {
    set k | 0 <= k < |chain| :: s.checkpoints[chain[k]].source
  }

  lemma SourcesNext(s: Tree, init: seq<nat>, c: nat)
    requires c in s.checkpoints && forall b :: b in init ==> b in s.checkpoints
    ensures Sources(s, init + [c]) == Sources(s, init) + {s.checkpoints[c].source}
  {
    var chain, last := init + [c], s.checkpoints[c].source;
    forall x | x in Sources(s, init) + {last} ensures x in Sources(s, chain) {
      if x == last { assert s.checkpoints[chain[|init|]].source == x; }
      else {
        var k :| 0 <= k < |init| && s.checkpoints[init[k]].source == x;
        assert s.checkpoints[chain[k]].source == x;
      }
    }
  }

  lemma SourceIsNew(s: Tree, init: seq<nat>, c: nat)
    requires ChainsLinked(s) && c in s.checkpoints && c !in init && forall b :: b in init ==> b in s.checkpoints
    ensures s.checkpoints[c].source !in Sources(s, init)
  {
    forall k | 0 <= k < |init| ensures s.checkpoints[init[k]].source != s.checkpoints[c].source { assert init[k] in init; }
  }

  lemma {:induction false} DistinctSources(s: Tree, chain: seq<nat>)
    requires ChainsLinked(s) && Distinct(chain) && forall c :: c in chain ==> c in s.checkpoints
    ensures |Sources(s, chain)| == |chain|
  {
    hide Sources, ChainsLinked;
    if chain != [] {
      var init, c := chain[..|chain| - 1], chain[|chain| - 1];
      assert chain == init + [c];
      DistinctSources(s, init);
      SourceIsNew(s, init, c);
      SourcesNext(s, init, c);
    } else {
      NoSources(s);
    }
  }

  lemma NoSources(s: Tree)
    ensures Sources(s, []) == {}
  {
  }

  /** An agent's context version is the length of its checkpoint chain, and the chain records
      exactly its done runs, each once. */
  lemma ChainRecordsDoneRuns(s: Tree, a: AgentId)
    requires VersionsCount(s) && ChainsLinked(s) && a in s.agents
    ensures VersionCounts(s, a)
    ensures var chain := Chain(s, s.agents[a].checkpoint);
      && |chain| == s.agents[a].contextVersion && Distinct(chain)
      && (forall c :: c in chain ==> c in s.checkpoints) && Sources(s, chain) == DoneRuns(s, a)
  {
    assert VersionCounts(s, a);
    var chain := Chain(s, s.agents[a].checkpoint);
    if s.agents[a].checkpoint.Some? {
      ChainCounts(s, s.agents[a].checkpoint.value);
      DistinctSources(s, chain);
      forall x | x in Sources(s, chain) ensures x in DoneRuns(s, a) {
        var k :| 0 <= k < |chain| && s.checkpoints[chain[k]].source == x;
        assert ChainLinked(s, chain[k]);
      }
      EqualBySize(Sources(s, chain), DoneRuns(s, a));
    } else {
      EqualBySize(Sources(s, chain), DoneRuns(s, a));
    }
  }

  // ----- authority ----------------------------------------------------------

  /** In every reachable tree grants and depths stay inside every ancestor's limits, and the agents
      that take part in a root run never outnumber what its root agent allows. */
  lemma AuthorityOnlyNarrows(states: seq<Tree>, events: seq<Event>, i: nat, now: nat, ancestor: AgentId, a: AgentId)
    requires Execution(states, events) && i <= |events| && ClockAt(events, i, now)
    requires a in states[i].agents
    ensures Shape(states[i])
    ensures AgentUnder(states[i], ancestor, a) ==>
      && ancestor in states[i].agents
      && Within(states[i].agents[a].info.grant, states[i].agents[ancestor].info.grant)
      && (a != ancestor ==> states[i].agents[a].info.depth <= states[i].agents[ancestor].info.grant.maxDepth)
    ensures forall r :: r in states[i].runs ==>
      |Participants(states[i], states[i].runs[r].info.root)| <= RootAgent(states[i], r).info.grant.maxAgentsPerRoot
  {
    ReachableTreesAreSound(states, events, i, now);
    var s := states[i];
    if AgentUnder(s, ancestor, a) { GrantWithinAncestor(s, ancestor, a); }
    forall r | r in s.runs
      ensures |Participants(s, s.runs[r].info.root)| <= RootAgent(s, r).info.grant.maxAgentsPerRoot
    {
      assert FitsCapacity(s, r);
    }
  }

  /** The live runs under a root never outnumber its agent's slots, at any clock reading. */
  lemma ParallelismIsBounded(states: seq<Tree>, events: seq<Event>, i: nat, now: nat, r: RunId)
    requires Execution(states, events) && i <= |events| && ClockAt(events, i, now) && r in states[i].runs
    ensures Shape(states[i])
    ensures |Live(states[i], states[i].runs[r].info.root, now)| <= RootAgent(states[i], r).info.grant.maxParallelRuns
  {
    ReachableTreesAreSound(states, events, i, now);
    assert FitsParallelism(states[i], now, r);
  }
}
