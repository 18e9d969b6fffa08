/** Each step of the run tree keeps the invariant. */
module AgentTreeSteps {
  import opened Prelude
  import opened AgentTree
  import opened AgentTreeInvariant
  import DependencyGraph

  /** The host may name a generated id only if it was already handed out. */
  predicate HostIdsFree(s: Tree, cmd: RootCommand) {
    && (cmd.runId.GeneratedRun? ==> cmd.runId.n <= s.runSeq)
    && (cmd.agentId.GeneratedAgent? ==> cmd.agentId.n <= s.agentSeq)
  }

  /** What the environment owes: no id collision, and a clock that does not run backwards within a step. */
  predicate Admissible(s: Tree, now: nat, cmd: Command) {
    match cmd
    case DoBeginRoot(root) => HostIdsFree(s, root)
    case DoRenew(_, later, _, _, _) => now <= later
    case _ => true
  }

  // ----- the passing of time ------------------------------------------------

  lemma TimeKeepsSound(s: Tree, now: nat, later: nat)
    requires Sound(s, now) && now <= later
    ensures Sound(s, later)
  {
    forall r | r in s.runs ensures FitsParallelism(s, later, r) {
      assert FitsParallelism(s, now, r);
      SubsetCount(Live(s, s.runs[r].info.root, later), Live(s, s.runs[r].info.root, now));
    }
  }

  // ----- lease steps --------------------------------------------------------

  lemma ClaimIsSound(s: Tree, now: nat, id: RunId, owner: string, duration: pos)
    requires Sound(s, now)
    ensures Sound(After(s, ClaimRun(s, now, id, owner, duration)), now)
  {
    var r := ClaimRun(s, now, id, owner, duration);
    if r.Ok? && r.value.1.Some? {
      assert RunLinked(s, id);
      ReplacingIsSound(s, r.value.0, r.value.1.value, now);
    }
  }

  lemma SuspendIsSound(s: Tree, now: nat, id: RunId, claim: Claim)
    requires Sound(s, now)
    ensures Sound(After(s, SuspendRun(s, now, id, claim)), now)
  {
    var r := SuspendRun(s, now, id, claim);
    if r.Ok? {
      assert RunLinked(s, id);
      ReplacingIsSound(s, r.value.0, r.value.1, now);
    }
  }

  lemma RenewIsSound(s: Tree, now: nat, later: nat, id: RunId, owner: string, epoch: nat, duration: pos)
    requires Sound(s, now) && now <= later
    ensures Sound(After(s, RenewRunLease(s, now, later, id, owner, epoch, duration)), now)
  {
    var r := RenewRunLease(s, now, later, id, owner, epoch, duration);
    if r.Ok? {
      assert RunLinked(s, id);
      assert LeaseForm(s.runs[id]);
      ReplacingIsSound(s, r.value.0, r.value.1, now);
    }
  }

  lemma MarkWaitingIsSound(s: Tree, now: nat, id: RunId, claim: Claim)
    requires Sound(s, now)
    ensures Sound(After(s, MarkWaiting(s, now, id, claim)), now)
  {
    var r := MarkWaiting(s, now, id, claim);
    if r.Ok? {
      assert RunLinked(s, id);
      ReplacingIsSound(s, r.value.0, r.value.1, now);
    }
  }

  lemma ReleaseWaitingIsSound(s: Tree, now: nat, id: RunId, claim: Claim)
    requires Sound(s, now)
    ensures Sound(After(s, ReleaseWaiting(s, now, id, claim)), now)
  {
    var r := ReleaseWaiting(s, now, id, claim);
    if r.Ok? {
      assert RunLinked(s, id);
      var root := s.runs[id].info.root;
      SubsetCount(Live(s, root, now), RunningUnder(s, root));
      ReplacingIsSound(s, r.value.0, r.value.1, now);
    }
  }

  // ----- settlement ---------------------------------------------------------

  lemma CompleteIsSound(s: Tree, now: nat, id: RunId, claim: Claim, v: nat, result: string, ref: string, fp: string)
    requires Sound(s, now)
    ensures Sound(After(s, CompleteRun(s, now, id, claim, v, result, ref, fp)), now)
  {
    var r := CompleteRun(s, now, id, claim, v, result, ref, fp);
    if r.Ok? {
      assert RunLinked(s, id);
      forall q | q in s.runs && s.runs[q].info.parent == Some(id) ensures !s.runs[q].status.Active() {
        assert RunLinked(s, q);
        assert Descends(s, id, q);
      }
      CompletingIsSound(s, r.value.0, r.value.1, ref, fp, now);
    }
  }

  /** The runs below `id` contain every effect of their members. */
  lemma BelowIsDownward(s: Tree, id: RunId)
    requires RunShape(s)
    ensures forall r ::
              && r in s.runs && s.runs[r].info.parent.Some?
              && s.runs[r].info.parent.value in Below(s, id) + {id}
              ==> r in Below(s, id)
  {
    forall r | r in s.runs && s.runs[r].info.parent.Some? && s.runs[r].info.parent.value in Below(s, id) + {id}
      ensures Descends(s, id, r)
    {
      assert RunLinked(s, r);
    }
  }

  lemma FailIsSound(s: Tree, now: nat, id: RunId, code: string, claim: Claim)
    requires Sound(s, now)
    ensures Sound(After(s, FailRun(s, now, id, code, claim)), now)
  {
    var r := FailRun(s, now, id, code, claim);
    if r.Ok? && s.runs[id].status.Active() {
      assert RunLinked(s, id);
      BelowIsDownward(s, id);
      var t := r.value.0;
      forall q | q in t.runs ensures CauseActive(t, q) {
        assert CauseActive(s, q) && RunLinked(s, q);
      }
      SettlingIsSound(s, t, now);
    }
  }

  lemma CancelIsSound(s: Tree, now: nat, id: RunId)
    requires Sound(s, now)
    ensures Sound(After(s, CancelSubtree(s, id)), now)
  {
    if id in s.runs {
      BelowIsDownward(s, id);
      CancelingDownwardIsSound(s, Below(s, id) + {id}, "agent_run_canceled", now);
    }
  }

  lemma CloseIsSound(s: Tree, now: nat, id: AgentId)
    requires Sound(s, now)
    ensures Sound(After(s, CloseAgent(s, id)), now)
  {
    if CloseAgent(s, id).Ok? { ClosingIsSound(s, id, now); }
  }

  // ----- new runs -----------------------------------------------------------

  lemma RunsOfUnknownAgents(s: Tree, a: AgentId)
    requires RunShape(s) && a !in s.agents
    ensures forall r :: r in s.runs ==> s.runs[r].info.agent != a
  {
    forall r | r in s.runs ensures s.runs[r].info.agent != a { assert RunLinked(s, r); }
  }

  lemma RootJoins(s: Tree, cmd: RootCommand, agent: Agent)
    requires RunShape(s) && AgentShape(s) && HostIdsFree(s, cmd) && cmd.runId !in s.runs
    requires agent.info.id == cmd.agentId && agent.info.parent.None? && Enlists(s, agent)
    ensures var (t, run) := RootAdded(s, cmd, agent);
      Joins(s, t, agent.(latestRun := Some(cmd.runId)), run) && HasRoom(s, agent.(latestRun := Some(cmd.runId)), run)
  {
    if cmd.agentId in s.agents { assert AgentLinked(s, cmd.agentId); }
  }

  lemma BeginRootIsSound(s: Tree, now: nat, cmd: RootCommand)
    requires Sound(s, now) && HostIdsFree(s, cmd)
    ensures Sound(After(s, BeginRoot(s, cmd)), now)
  {
    var r := BeginRoot(s, cmd);
    if r.Ok? && cmd.runId !in s.runs {
      var agent;
      if cmd.agentId in s.agents {
        agent := s.agents[cmd.agentId];
        assert AgentLinked(s, cmd.agentId);
      } else {
        agent := NewRootAgent(cmd);
        RunsOfUnknownAgents(s, cmd.agentId);
      }
      RootJoins(s, cmd, agent);
      JoiningIsConsistent(s, r.value.0, agent.(latestRun := Some(cmd.runId)), r.value.1, now);
    }
  }

  lemma ContinueIsSound(s: Tree, now: nat, q: RunId, key: string, request: Continuation, claim: Claim)
    requires Sound(s, now)
    ensures Sound(After(s, ContinueAgent(s, now, q, key, request, claim)), now)
  {
    var r := ContinueAgent(s, now, q, key, request, claim);
    if r.Ok? && (q, key) !in s.continues {
      assert RunLinked(s, q) && RootAgrees(s, q) && AgentLinked(s, request.agentId);
      assert AgentLinked(s, s.runs[q].info.agent);
      JoiningIsConsistent(s, r.value.0, r.value.1.agent, r.value.1.run, now);
    }
  }

  // ----- authority along the agent tree -------------------------------------

  /** Every agent's grant is contained in every ancestor's, and its depth in every proper ancestor's limit. */
  lemma {:induction false} GrantWithinAncestor(s: Tree, ancestor: AgentId, a: AgentId)
    requires AgentShape(s) && Delegated(s) && a in s.agents && AgentUnder(s, ancestor, a)
    ensures ancestor in s.agents && Within(s.agents[a].info.grant, s.agents[ancestor].info.grant)
    ensures a != ancestor ==> s.agents[a].info.depth <= s.agents[ancestor].info.grant.maxDepth
    decreases s.agents[a].info.depth
  {
    if a != ancestor {
      assert AgentLinked(s, a) && DelegatedTo(s, a);
      GrantWithinAncestor(s, ancestor, s.agents[a].info.parent.value);
    }
  }

  lemma {:induction false} RootIsAncestor(s: Tree, a: AgentId)
    requires AgentShape(s) && a in s.agents
    ensures AgentUnder(s, s.agents[a].info.root, a)
    decreases s.agents[a].info.depth
  {
    assert AgentLinked(s, a);
    if s.agents[a].info.parent.Some? { RootIsAncestor(s, s.agents[a].info.parent.value); }
  }

  // ----- spawning -----------------------------------------------------------

  /** The checks a spawn has passed before it writes. */
  ghost predicate SpawnAllowed(s: Tree, c: Spawning) {
    && c.parent.info.id in s.runs && s.runs[c.parent.info.id] == c.parent && c.parent.status.Active()
    && c.parent.info.agent == c.creator.info.id
    && c.creator.info.id in s.agents && s.agents[c.creator.info.id] == c.creator
    && c.creator.info.depth < c.creator.info.grant.maxDepth
    && c.agentBase == s.agentSeq && c.runBase == s.runSeq && c.seqBase == s.sequence
    && (forall i :: 0 <= i < |c.children| ==>
          Within(ChildGrant(c.creator.info.grant, c.children[i].grant), c.creator.info.grant))
    && |Participants(s, c.parent.info.root)| + |c.children| <= c.creator.info.grant.maxAgentsPerRoot
  }

  ghost predicate IsChild(c: Spawning, k: nat, r: RunId, run: Run) {
    r.GeneratedRun? && c.runBase < r.n <= c.runBase + k && r.n - c.runBase - 1 < |c.children|
    && run == ChildRun(c, r.n - c.runBase - 1)
  }

  /** `t` extends `s` by the first `k` children. */
  ghost predicate Grown(s: Tree, t: Tree, c: Spawning, k: nat) {
    && t.agentSeq == c.agentBase + k && t.runSeq == c.runBase + k && t.sequence == c.seqBase + k
    && (forall r :: r in s.runs ==> r in t.runs && t.runs[r] == s.runs[r])
    && (forall a :: a in s.agents ==> a in t.agents && t.agents[a] == s.agents[a])
    && (forall r :: r in t.runs && r !in s.runs ==> IsChild(c, k, r, t.runs[r]))
    && (forall i: nat :: c.runBase < i <= c.runBase + k ==> GeneratedRun(i) in t.runs)
    && Crowd(t, c) <= Crowd(s, c) + k
  }

  ghost function Crowd(s: Tree, c: Spawning): nat { |Participants(s, c.parent.info.root)| }

  lemma ChildJoins(s: Tree, t: Tree, c: Spawning, k: nat)
    requires SpawnAllowed(s, c) && k < |c.children| && Grown(s, t, c, k)
    requires RunShape(t) && AgentShape(t) && Unused(t) && RootsAgree(t)
    ensures Joins(t, AddChild(t, c, k), ChildAgent(c, k), ChildRun(c, k))
  {
    hide DependencyIds, Crowd, Participants;
    assert RunLinked(t, c.parent.info.id) && AgentLinked(t, c.creator.info.id) && RootAgrees(t, c.parent.info.id);
    RunsOfUnknownAgents(t, GeneratedAgent(c.agentBase + k + 1));
  }

  lemma ChildHasRoom(s: Tree, t: Tree, c: Spawning, k: nat, now: nat)
    requires Consistent(s, now) && SpawnAllowed(s, c) && k < |c.children|
    requires Consistent(t, now) && Grown(s, t, c, k)
    ensures HasRoom(t, ChildAgent(c, k), ChildRun(c, k))
  {
    assert RunLinked(t, c.parent.info.id) && RootAgrees(t, c.parent.info.id);
    RootIsAncestor(t, c.creator.info.id);
    GrantWithinAncestor(t, c.creator.info.root, c.creator.info.id);
  }

  lemma NothingGrown(s: Tree, c: Spawning)
    requires SpawnAllowed(s, c)
    ensures Grown(s, s, c, 0)
  {
  }

  lemma ChildCrowds(t: Tree, c: Spawning, k: nat)
    requires k < |c.children| && GeneratedRun(c.runBase + k + 1) !in t.runs
    ensures Crowd(AddChild(t, c, k), c) <= Crowd(t, c) + 1
  {
    ParticipantsAfterJoining(t, AddChild(t, c, k), ChildRun(c, k), c.parent.info.root);
  }

  lemma ChildGrows(s: Tree, t: Tree, c: Spawning, k: nat)
    requires k < |c.children| && Grown(s, t, c, k)
    requires GeneratedRun(c.runBase + k + 1) !in t.runs && GeneratedAgent(c.agentBase + k + 1) !in t.agents
    ensures Grown(s, AddChild(t, c, k), c, k + 1)
  {
    hide Crowd;
    ChildCrowds(t, c, k);
    var u, child := AddChild(t, c, k), ChildRun(c, k);
    assert child.info.id == GeneratedRun(c.runBase + k + 1) && u.runs == t.runs[child.info.id := child];
    assert ChildAgent(c, k).info.id == GeneratedAgent(c.agentBase + k + 1);
    assert IsChild(c, k + 1, child.info.id, child);
    forall r | r in t.runs && r !in s.runs ensures IsChild(c, k + 1, r, t.runs[r]) { assert IsChild(c, k, r, t.runs[r]); }
    hide ChildRun, ChildAgent, IsChild;
  }

  lemma ChildStep(s: Tree, t: Tree, c: Spawning, k: nat, now: nat)
    requires Consistent(s, now) && SpawnAllowed(s, c) && k < |c.children|
    requires Consistent(t, now) && Grown(s, t, c, k)
    ensures Consistent(AddChild(t, c, k), now) && Grown(s, AddChild(t, c, k), c, k + 1)
  {
    assert GeneratedRun(c.runBase + k + 1) !in t.runs && GeneratedAgent(c.agentBase + k + 1) !in t.agents;
    ChildJoins(s, t, c, k);
    hide Consistent, Grown, SpawnAllowed, Joins, HasRoom;
    ChildHasRoom(s, t, c, k, now);
    ChildGrows(s, t, c, k);
    JoiningIsConsistent(t, AddChild(t, c, k), ChildAgent(c, k), ChildRun(c, k), now);
  }

  lemma {:induction false} ChildrenGrow(s: Tree, c: Spawning, k: nat, now: nat)
    requires Consistent(s, now) && SpawnAllowed(s, c) && k <= |c.children|
    ensures Consistent(ChildrenAdded(s, c, k), now) && Grown(s, ChildrenAdded(s, c, k), c, k)
  {
    hide Consistent, Grown, SpawnAllowed, AddChild;
    if k == 0 {
      NothingGrown(s, c);
    } else {
      ChildrenGrow(s, c, k - 1, now);
      ChildStep(s, ChildrenAdded(s, c, k - 1), c, k - 1, now);
    }
  }

  lemma SiblingIdExists(c: Spawning, t: Tree, i: nat, d: RunId)
    requires i < |c.children| && ChildrenWellFormed(c.children)
    requires forall n: nat :: c.runBase < n <= c.runBase + |c.children| ==> GeneratedRun(n) in t.runs
    requires d in ChildRun(c, i).info.dependencies
    ensures d in t.runs
  {
    var names := Names(c.children);
    var j :| 0 <= j < |c.children[i].dependsOn| && d == DependencyIds(names, c.runBase, c.children[i].dependsOn)[j];
    var rank :| DependencyGraph.Ranks(names, NamedDependencies(c.children), rank);
    assert c.children[i].dependsOn[j] in NamedDependencies(c.children)[i];
  }

  lemma ChildrenKnowDependencies(s: Tree, c: Spawning, t: Tree)
    requires DependenciesKnown(s) && Grown(s, t, c, |c.children|) && ChildrenWellFormed(c.children)
    ensures DependenciesKnown(t)
  {
    forall r, d | r in t.runs && d in t.runs[r].info.dependencies ensures d in t.runs {
      hide ChildrenWellFormed;
      if r !in s.runs { SiblingIdExists(c, t, r.n - c.runBase - 1, d); }
    }
  }

  /** Receipts and the batch counter take no part in the invariant. */
  lemma BookkeepingIsConsistent(s: Tree, t: Tree, now: nat)
    requires Sound(s, now) && t == s.(batchSeq := t.batchSeq, spawns := t.spawns)
    ensures Sound(t, now)
  {
    SkeletonKeepsShape(s, t);
    SkeletonKeepsStatics(s, t);
    forall r | r in t.runs ensures CauseActive(t, r) && DependencySettled(t, r) && FitsParallelism(t, now, r) {
      assert RunLinked(s, r) && CauseActive(s, r) && DependencySettled(s, r) && FitsParallelism(s, now, r);
      assert Live(t, s.runs[r].info.root, now) == Live(s, s.runs[r].info.root, now);
    }
    forall a | a in t.agents ensures VersionCounts(t, a) {
      assert VersionCounts(s, a);
      assert DoneRuns(t, a) == DoneRuns(s, a);
    }
    forall c | c in t.checkpoints ensures ChainLinked(t, c) { assert ChainLinked(s, c); }
  }

  lemma SpawningIsSound(s: Tree, now: nat, c: Spawning, receipt: SpawnReceipt)
    requires Sound(s, now) && SpawnAllowed(s, c) && ChildrenWellFormed(c.children)
    ensures Sound(Spawned(s, c, receipt), now)
  {
    var t := ChildrenAdded(s, c, |c.children|);
    assert Consistent(s, now) && DependenciesKnown(s);
    hide Consistent, SpawnAllowed, ChildrenWellFormed, Grown, DependenciesKnown;
    ChildrenGrow(s, c, |c.children|, now);
    ChildrenKnowDependencies(s, c, t);
    BookkeepingIsConsistent(t, Spawned(s, c, receipt), now);
  }

  /** A spawn that succeeds afresh has passed its checks. */
  lemma SpawnPassedChecks(s: Tree, now: nat, p: RunId, key: string, children: seq<ChildSpec>, claim: Claim)
    returns (c: Spawning)
    requires Shape(s) && SpawnAgents(s, now, p, key, children, claim).Ok? && (p, key) !in s.spawns
    ensures p in s.runs && s.runs[p].info.agent in s.agents
    ensures c == Spawning(s.runs[p], s.agents[s.runs[p].info.agent], key, children,
                          s.agentSeq, s.runSeq, s.sequence, s.batchSeq + 1)
    ensures SpawnAgents(s, now, p, key, children, claim).value.1 ==
            SpawnReceipt(children, c.batch, SpawnItems(c, |children|))
    ensures SpawnAllowed(s, c) && ChildrenWellFormed(c.children)
    ensures var r := SpawnAgents(s, now, p, key, children, claim).value; r.0 == Spawned(s, c, r.1)
  {
    hide ChildrenWellFormed, ChildrenAdded;
    var parent := s.runs[p];
    assert RunLinked(s, p);
    assert AgentLinked(s, parent.info.agent);
    c := Spawning(parent, s.agents[parent.info.agent], key, children, s.agentSeq, s.runSeq, s.sequence, s.batchSeq + 1);
  }

  lemma SpawnIsSound(s: Tree, now: nat, p: RunId, key: string, children: seq<ChildSpec>, claim: Claim)
    requires Sound(s, now)
    ensures Sound(After(s, SpawnAgents(s, now, p, key, children, claim)), now)
  {
    var r := SpawnAgents(s, now, p, key, children, claim);
    if r.Ok? {
      if (p, key) in s.spawns {
        hide Consistent, DependenciesKnown;
      } else {
        var c := SpawnPassedChecks(s, now, p, key, children, claim);
        hide Sound, SpawnAgents, SpawnAllowed, ChildrenWellFormed, Spawned;
        SpawningIsSound(s, now, c, r.value.1);
      }
    }
  }

  // ----- any step -----------------------------------------------------------

  lemma StepIsSound(s: Tree, now: nat, cmd: Command)
    requires Sound(s, now) && Admissible(s, now, cmd)
    ensures Sound(Step(s, now, cmd), now)
  {
    match cmd
    case DoBeginRoot(root) => BeginRootIsSound(s, now, root);
    case DoSpawn(p, key, children, claim) => SpawnIsSound(s, now, p, key, children, claim);
    case DoContinue(q, key, request, claim) => ContinueIsSound(s, now, q, key, request, claim);
    case DoClaim(r, owner, duration) => ClaimIsSound(s, now, r, owner, duration);
    case DoSuspend(r, claim) => SuspendIsSound(s, now, r, claim);
    case DoRenew(r, later, owner, epoch, duration) => RenewIsSound(s, now, later, r, owner, epoch, duration);
    case DoMarkWaiting(r, claim) => MarkWaitingIsSound(s, now, r, claim);
    case DoReleaseWaiting(r, claim) => ReleaseWaitingIsSound(s, now, r, claim);
    case DoComplete(r, claim, v, result, ref, fp) => CompleteIsSound(s, now, r, claim, v, result, ref, fp);
    case DoFail(r, code, claim) => FailIsSound(s, now, r, code, claim);
    case DoCancel(r) => CancelIsSound(s, now, r);
    case DoClose(a) => CloseIsSound(s, now, a);
  }
}
