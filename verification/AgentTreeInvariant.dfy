/** What every step of the run tree keeps. */
module AgentTreeInvariant {
  import opened Prelude
  import opened AgentTree

  // ----- the invariant, clause by clause ------------------------------------

  /** Generated ids and sequence numbers still to be handed out are unused. */
  ghost predicate Unused(s: Tree) {
    && (forall n: nat :: GeneratedRun(n) in s.runs ==> n <= s.runSeq)
    && (forall n: nat :: GeneratedAgent(n) in s.agents ==> n <= s.agentSeq)
    && (forall r :: r in s.runs ==> s.runs[r].info.created <= s.sequence)
    && (forall c :: c in s.checkpoints ==> c <= s.checkpointSeq)
  }

  /** If run `r` is active, so is the run that caused it. */
  ghost predicate CauseActive(s: Tree, r: RunId)
    requires r in s.runs
  {
    s.runs[r].status.Active() && s.runs[r].info.parent.Some? ==>
      s.runs[r].info.parent.value in s.runs && s.runs[s.runs[r].info.parent.value].status.Active()
  }

  ghost predicate CausesActive(s: Tree) {
    forall r {:trigger CauseActive(s, r)} :: r in s.runs ==> CauseActive(s, r)
  }

  ghost predicate OneActiveRun(s: Tree) {
    forall q, r ::
      && q in s.runs && r in s.runs && s.runs[q].status.Active() && s.runs[r].status.Active()
      && s.runs[q].info.agent == s.runs[r].info.agent
      ==> q == r
  }

  ghost predicate ActiveAgentsOpen(s: Tree) {
    forall r :: r in s.runs && s.runs[r].status.Active() ==>
      s.runs[r].info.agent in s.agents && !s.agents[s.runs[r].info.agent].closed
  }

  /** Run `r` belongs to the agent tree that its root run's agent heads. */
  ghost predicate RootAgrees(s: Tree, r: RunId)
    requires RunShape(s) && r in s.runs
  {
    assert RunLinked(s, r);
    s.runs[s.runs[r].info.root].info.agent == s.agents[s.runs[r].info.agent].info.root
  }

  ghost predicate RootsAgree(s: Tree)
    requires RunShape(s)
  {
    forall r {:trigger RootAgrees(s, r)} :: r in s.runs ==> RootAgrees(s, r)
  }

  /** The authority and depth of agent `a` stay inside its parent's grant. */
  ghost predicate DelegatedTo(s: Tree, a: AgentId)
    requires a in s.agents
  {
    s.agents[a].info.parent.Some? ==>
      && s.agents[a].info.parent.value in s.agents
      && Within(s.agents[a].info.grant, s.agents[s.agents[a].info.parent.value].info.grant)
      && s.agents[a].info.depth <= s.agents[s.agents[a].info.parent.value].info.grant.maxDepth
  }

  ghost predicate Delegated(s: Tree) {
    forall a {:trigger DelegatedTo(s, a)} :: a in s.agents ==> DelegatedTo(s, a)
  }

  ghost predicate FitsCapacity(s: Tree, r: RunId)
    requires RunShape(s) && r in s.runs
  {
    |Participants(s, s.runs[r].info.root)| <= RootAgent(s, r).info.grant.maxAgentsPerRoot
  }

  ghost predicate WithinCapacity(s: Tree)
    requires RunShape(s)
  {
    forall r {:trigger FitsCapacity(s, r)} :: r in s.runs ==> FitsCapacity(s, r)
  }

  ghost predicate FitsParallelism(s: Tree, now: nat, r: RunId)
    requires RunShape(s) && r in s.runs
  {
    |Live(s, s.runs[r].info.root, now)| <= RootAgent(s, r).info.grant.maxParallelRuns
  }

  ghost predicate WithinParallelism(s: Tree, now: nat)
    requires RunShape(s)
  {
    forall r {:trigger FitsParallelism(s, now, r)} :: r in s.runs ==> FitsParallelism(s, now, r)
  }

  /** Only running and waiting runs hold leases; a lease always has an expiry. */
  predicate LeaseForm(run: Run) {
    && (run.owner.Some? <==> run.expiry.Some?)
    && (run.owner.Some? ==> run.status.Running? || run.status.Waiting?)
    && (run.status.Queued? ==> run.epoch == 0)
  }

  ghost predicate LeasesFormed(s: Tree) {
    forall r :: r in s.runs ==> LeaseForm(s.runs[r])
  }

  /** If run `r` was ever claimed, none of its dependencies is unfinished. */
  ghost predicate DependencySettled(s: Tree, r: RunId)
    requires r in s.runs
  {
    s.runs[r].epoch > 0 ==>
      forall d :: d in s.runs[r].info.dependencies ==> d in s.runs && !s.runs[d].status.Active()
  }

  ghost predicate DependenciesSettled(s: Tree) {
    forall r {:trigger DependencySettled(s, r)} :: r in s.runs ==> DependencySettled(s, r)
  }

  ghost function DoneRuns(s: Tree, a: AgentId): set<RunId> {
    set r | r in s.runs && s.runs[r].info.agent == a && s.runs[r].status.Done?
  }

  /** The context version counts the agent's done runs and heads its checkpoint chain. */
  ghost predicate VersionCounts(s: Tree, a: AgentId)
    requires a in s.agents
  {
    var agent := s.agents[a];
    && agent.contextVersion == |DoneRuns(s, a)|
    && (agent.checkpoint.None? <==> agent.contextVersion == 0)
    && (agent.checkpoint.Some? ==>
          && agent.checkpoint.value in s.checkpoints
          && s.checkpoints[agent.checkpoint.value].agent == a
          && s.checkpoints[agent.checkpoint.value].version == agent.contextVersion)
  }

  ghost predicate VersionsCount(s: Tree) {
    forall a {:trigger VersionCounts(s, a)} :: a in s.agents ==> VersionCounts(s, a)
  }

  /** Checkpoint `c` extends the previous one of its agent and comes from a done run. */
  ghost predicate ChainLinked(s: Tree, c: nat)
    requires c in s.checkpoints
  {
    var k := s.checkpoints[c];
    && 1 <= k.version && (k.previous.None? <==> k.version == 1)
    && (k.previous.Some? ==>
          && k.previous.value in s.checkpoints
          && s.checkpoints[k.previous.value].agent == k.agent
          && s.checkpoints[k.previous.value].version + 1 == k.version)
    && k.source in s.runs && s.runs[k.source].status.Done? && s.runs[k.source].info.agent == k.agent
  }

  ghost predicate ChainsLinked(s: Tree) {
    && (forall c {:trigger ChainLinked(s, c)} :: c in s.checkpoints ==> ChainLinked(s, c))
    && (forall b, c ::
          && b in s.checkpoints && c in s.checkpoints
          && s.checkpoints[b].source == s.checkpoints[c].source
          ==> b == c)
  }

  /** Everything but the existence of dependencies, which a spawn writes last. */
  ghost predicate Consistent(s: Tree, now: nat) {
    && RunShape(s) && AgentShape(s) && Unused(s) && CausesActive(s) && OneActiveRun(s) && ActiveAgentsOpen(s)
    && RootsAgree(s) && Delegated(s) && WithinCapacity(s) && WithinParallelism(s, now)
    && LeasesFormed(s) && DependenciesSettled(s) && VersionsCount(s) && ChainsLinked(s)
  }

  ghost predicate Sound(s: Tree, now: nat) {
    Consistent(s, now) && DependenciesKnown(s)
  }

  lemma SoundIsShaped(s: Tree, now: nat)
    requires Sound(s, now)
    ensures Shape(s) && LeasesFormed(s) && OneActiveRun(s)
  {
  }

  lemma SoundIsConsistent(s: Tree, now: nat)
    requires Sound(s, now)
    ensures Consistent(s, now)
  {
  }

  lemma EmptyIsSound(now: nat)
    ensures Sound(EMPTY, now)
  {
  }

  // ----- steps that keep the skeleton ---------------------------------------

  /** Same runs and agents, with the same fixed parts. */
  ghost predicate SameSkeleton(s: Tree, t: Tree) {
    && t.runs.Keys == s.runs.Keys && t.agents.Keys == s.agents.Keys
    && (forall r :: r in s.runs ==> t.runs[r].info == s.runs[r].info)
    && (forall a :: a in s.agents ==> t.agents[a].info == s.agents[a].info)
    && t.sequence == s.sequence && t.agentSeq == s.agentSeq && t.runSeq == s.runSeq
  }

  lemma SkeletonKeepsShape(s: Tree, t: Tree)
    requires Shape(s) && SameSkeleton(s, t)
    ensures Shape(t)
  {
    forall r | r in t.runs ensures RunLinked(t, r) { assert RunLinked(s, r); }
    forall a | a in t.agents ensures AgentLinked(t, a) { assert AgentLinked(s, a); }
  }

  lemma SkeletonKeepsStatics(s: Tree, t: Tree)
    requires Shape(s) && SameSkeleton(s, t) && Shape(t)
    requires RootsAgree(s) && Delegated(s) && WithinCapacity(s)
    ensures RootsAgree(t) && Delegated(t) && WithinCapacity(t)
  {
    forall r | r in t.runs ensures RootAgrees(t, r) && FitsCapacity(t, r) {
      assert RunLinked(s, r) && RootAgrees(s, r) && FitsCapacity(s, r);
      assert Participants(t, t.runs[r].info.root) == Participants(s, s.runs[r].info.root);
    }
    forall a | a in t.agents ensures DelegatedTo(t, a) { assert DelegatedTo(s, a); }
  }

  /** `t` differs from `s` in one active run, which stays active. */
  ghost predicate Replaces(s: Tree, t: Tree, b: Run) {
    && b.info.id in s.runs && b.info == s.runs[b.info.id].info
    && s.runs[b.info.id].status.Active() && b.status.Active() && LeaseForm(b)
    && t == PutRun(s, b)
  }

  lemma ReplacingKeepsSettledFacts(s: Tree, t: Tree, b: Run)
    requires Replaces(s, t, b) && CausesActive(s) && OneActiveRun(s) && ActiveAgentsOpen(s) && LeasesFormed(s)
    ensures CausesActive(t) && OneActiveRun(t) && ActiveAgentsOpen(t) && LeasesFormed(t)
  {
    forall r | r in t.runs ensures CauseActive(t, r) { assert CauseActive(s, r); }
  }

  lemma ReplacingKeepsContext(s: Tree, t: Tree, b: Run)
    requires Replaces(s, t, b) && VersionsCount(s) && ChainsLinked(s)
    ensures VersionsCount(t) && ChainsLinked(t)
  {
    forall a | a in t.agents ensures VersionCounts(t, a) {
      assert VersionCounts(s, a);
      assert DoneRuns(t, a) == DoneRuns(s, a);
    }
    forall c | c in t.checkpoints ensures ChainLinked(t, c) { assert ChainLinked(s, c); }
  }

  lemma ReplacingKeepsDependencies(s: Tree, t: Tree, b: Run)
    requires Replaces(s, t, b) && DependenciesSettled(s)
    requires b.epoch > 0 && s.runs[b.info.id].epoch == 0 ==>
               forall d :: d in b.info.dependencies ==> d in s.runs && !s.runs[d].status.Active()
    ensures DependenciesSettled(t)
  {
    forall r | r in t.runs ensures DependencySettled(t, r) { assert DependencySettled(s, r); }
  }

  /** A run may become live only while its root has a free slot. */
  lemma ReplacingKeepsParallelism(s: Tree, t: Tree, b: Run, now: nat)
    requires Shape(s) && Shape(t) && Replaces(s, t, b) && WithinParallelism(s, now)
    requires
      || |Live(s, b.info.root, now)| < RootAgent(s, b.info.id).info.grant.maxParallelRuns
      || b.info.id in Live(s, b.info.root, now)
      || !b.status.Running?
    ensures WithinParallelism(t, now)
  {
    forall r | r in t.runs ensures FitsParallelism(t, now, r) {
      assert RunLinked(s, r) && RunLinked(s, b.info.id) && FitsParallelism(s, now, r);
      var root := s.runs[r].info.root;
      var before, after := Live(s, root, now), Live(t, root, now);
      if root == b.info.root && b.status.Running? {
        assert after <= before + {b.info.id};
        SubsetCount(after, before + {b.info.id});
      } else {
        assert after <= before;
        SubsetCount(after, before);
      }
    }
  }

  lemma ReplacingIsSound(s: Tree, t: Tree, b: Run, now: nat)
    requires Sound(s, now) && Replaces(s, t, b)
    requires b.epoch > 0 && s.runs[b.info.id].epoch == 0 ==>
               forall d :: d in b.info.dependencies ==> d in s.runs && !s.runs[d].status.Active()
    requires
      || |Live(s, b.info.root, now)| < RootAgent(s, b.info.id).info.grant.maxParallelRuns
      || b.info.id in Live(s, b.info.root, now)
      || !b.status.Running?
    ensures Sound(t, now)
  {
    SkeletonKeepsShape(s, t);
    SkeletonKeepsStatics(s, t);
    ReplacingKeepsSettledFacts(s, t, b);
    ReplacingKeepsContext(s, t, b);
    ReplacingKeepsDependencies(s, t, b);
    ReplacingKeepsParallelism(s, t, b, now);
  }

  // ----- steps that settle runs ---------------------------------------------

  /** Some active runs of `s` failed or were canceled in `t`; nothing else changed. */
  ghost predicate Settles(s: Tree, t: Tree) {
    && t.runs.Keys == s.runs.Keys && t == s.(runs := t.runs)
    && (forall r :: r in s.runs && t.runs[r] != s.runs[r] ==>
          && t.runs[r].info == s.runs[r].info && s.runs[r].status.Active()
          && (t.runs[r].status.Failed? || t.runs[r].status.Canceled?)
          && t.runs[r].owner.None? && t.runs[r].expiry.None? && t.runs[r].epoch == s.runs[r].epoch)
  }

  lemma SettlingKeepsContext(s: Tree, t: Tree)
    requires Settles(s, t) && VersionsCount(s) && ChainsLinked(s)
    ensures VersionsCount(t) && ChainsLinked(t)
  {
    forall a | a in t.agents ensures VersionCounts(t, a) {
      assert VersionCounts(s, a);
      assert DoneRuns(t, a) == DoneRuns(s, a);
    }
    forall c | c in t.checkpoints ensures ChainLinked(t, c) { assert ChainLinked(s, c); }
  }

  lemma SettlingKeepsParallelism(s: Tree, t: Tree, now: nat)
    requires Shape(s) && Shape(t) && Settles(s, t) && WithinParallelism(s, now)
    ensures WithinParallelism(t, now)
  {
    forall r | r in t.runs ensures FitsParallelism(t, now, r) {
      assert RunLinked(s, r) && FitsParallelism(s, now, r);
      SubsetCount(Live(t, s.runs[r].info.root, now), Live(s, s.runs[r].info.root, now));
    }
  }

  lemma SettlingIsSound(s: Tree, t: Tree, now: nat)
    requires Sound(s, now) && Settles(s, t) && CausesActive(t)
    ensures Sound(t, now)
  {
    SkeletonKeepsShape(s, t);
    SkeletonKeepsStatics(s, t);
    SettlingKeepsContext(s, t);
    SettlingKeepsParallelism(s, t, now);
    forall r | r in t.runs ensures DependencySettled(t, r) { assert DependencySettled(s, r); }
  }

  /** Canceling a set of runs that contains every effect of its members keeps causes active. */
  lemma CancelingDownwardIsSound(s: Tree, ids: set<RunId>, code: string, now: nat)
    requires Sound(s, now)
    requires forall r :: r in s.runs && s.runs[r].info.parent.Some? && s.runs[r].info.parent.value in ids ==> r in ids
    ensures Sound(CancelAll(s, ids, code), now) && Settles(s, CancelAll(s, ids, code))
  {
    var t := CancelAll(s, ids, code);
    forall r | r in t.runs ensures CauseActive(t, r) { assert CauseActive(s, r); }
    SettlingIsSound(s, t, now);
  }

  // ----- completion and closing ---------------------------------------------

  /** A run without active effects becomes done and heads its agent's chain. */
  ghost predicate Completes(s: Tree, t: Tree, done: Run, ref: string, fp: string)
    requires Shape(s)
  {
    && done.info.id in s.runs && done.info == s.runs[done.info.id].info
    && s.runs[done.info.id].status.Running? && done.status.Done? && done.owner.None? && done.expiry.None?
    && done.epoch == s.runs[done.info.id].epoch
    && done.info.agent in s.agents
    && t == Completed(s, s.agents[done.info.agent], done, ref, fp)
    && (forall r :: r in s.runs && s.runs[r].info.parent == Some(done.info.id) ==> !s.runs[r].status.Active())
  }

  lemma CompletingKeepsSkeleton(s: Tree, t: Tree, done: Run, ref: string, fp: string)
    requires Shape(s) && Completes(s, t, done, ref, fp)
    ensures SameSkeleton(s, t)
  {
    assert RunLinked(s, done.info.id);
    assert AgentLinked(s, done.info.agent);
  }

  lemma CompletingKeepsCauses(s: Tree, t: Tree, done: Run, ref: string, fp: string)
    requires Shape(s) && Completes(s, t, done, ref, fp) && CausesActive(s) && DependenciesSettled(s)
    ensures CausesActive(t) && DependenciesSettled(t)
  {
    CompletingKeepsSkeleton(s, t, done, ref, fp);
    forall r | r in t.runs ensures CauseActive(t, r) { assert CauseActive(s, r); }
    forall r | r in t.runs ensures DependencySettled(t, r) { assert DependencySettled(s, r); }
  }

  lemma CompletingKeepsStatuses(s: Tree, t: Tree, done: Run, ref: string, fp: string)
    requires Shape(s) && Completes(s, t, done, ref, fp)
    requires OneActiveRun(s) && ActiveAgentsOpen(s) && LeasesFormed(s)
    ensures OneActiveRun(t) && ActiveAgentsOpen(t) && LeasesFormed(t)
  {
    CompletingKeepsSkeleton(s, t, done, ref, fp);
    assert AgentLinked(s, done.info.agent);
  }

  lemma CompletingKeepsVersions(s: Tree, t: Tree, done: Run, ref: string, fp: string)
    requires Shape(s) && Completes(s, t, done, ref, fp) && VersionsCount(s)
    requires forall c :: c in s.checkpoints ==> c <= s.checkpointSeq
    ensures VersionsCount(t)
  {
    CompletingKeepsSkeleton(s, t, done, ref, fp);
    forall a | a in t.agents ensures VersionCounts(t, a) {
      assert VersionCounts(s, a) && AgentLinked(s, done.info.agent);
      if a == done.info.agent {
        assert DoneRuns(t, a) == DoneRuns(s, a) + {done.info.id};
      } else {
        assert DoneRuns(t, a) == DoneRuns(s, a);
      }
    }
  }

  lemma CompletingKeepsChains(s: Tree, t: Tree, done: Run, ref: string, fp: string)
    requires Shape(s) && Completes(s, t, done, ref, fp) && VersionsCount(s) && ChainsLinked(s)
    requires forall c :: c in s.checkpoints ==> c <= s.checkpointSeq
    ensures ChainsLinked(t)
  {
    assert VersionCounts(s, done.info.agent) && AgentLinked(s, done.info.agent);
    forall c | c in t.checkpoints ensures ChainLinked(t, c) {
      if c in s.checkpoints { assert ChainLinked(s, c); }
    }
    forall b, c | b in t.checkpoints && c in t.checkpoints && t.checkpoints[b].source == t.checkpoints[c].source
      ensures b == c
    {
      if b in s.checkpoints { assert ChainLinked(s, b); }
      if c in s.checkpoints { assert ChainLinked(s, c); }
    }
  }

  lemma CompletingIsSound(s: Tree, t: Tree, done: Run, ref: string, fp: string, now: nat)
    requires Sound(s, now) && Completes(s, t, done, ref, fp)
    ensures Sound(t, now)
  {
    CompletingKeepsSkeleton(s, t, done, ref, fp);
    SkeletonKeepsShape(s, t);
    SkeletonKeepsStatics(s, t);
    CompletingKeepsCauses(s, t, done, ref, fp);
    CompletingKeepsStatuses(s, t, done, ref, fp);
    CompletingKeepsVersions(s, t, done, ref, fp);
    CompletingKeepsChains(s, t, done, ref, fp);
    forall r | r in t.runs ensures FitsParallelism(t, now, r) {
      assert RunLinked(s, r) && FitsParallelism(s, now, r);
      SubsetCount(Live(t, s.runs[r].info.root, now), Live(s, s.runs[r].info.root, now));
    }
  }

  function Closed(s: Tree, id: AgentId): Tree
    requires id in s.agents
  {
    s.(agents := s.agents[id := s.agents[id].(closed := true)])
  }

  lemma ClosingKeepsRuns(s: Tree, id: AgentId, now: nat)
    requires Shape(s) && id in s.agents && Shape(Closed(s, id))
    requires CausesActive(s) && DependenciesSettled(s) && WithinParallelism(s, now)
    ensures var t := Closed(s, id); CausesActive(t) && DependenciesSettled(t) && WithinParallelism(t, now)
  {
    var t := Closed(s, id);
    forall r | r in t.runs ensures CauseActive(t, r) && DependencySettled(t, r) && FitsParallelism(t, now, r) {
      assert RunLinked(s, r) && CauseActive(s, r) && DependencySettled(s, r) && FitsParallelism(s, now, r);
      assert Live(t, s.runs[r].info.root, now) == Live(s, s.runs[r].info.root, now);
    }
  }

  lemma ClosingKeepsContext(s: Tree, id: AgentId)
    requires id in s.agents && VersionsCount(s) && ChainsLinked(s)
    ensures var t := Closed(s, id); VersionsCount(t) && ChainsLinked(t)
  {
    var t := Closed(s, id);
    forall a | a in t.agents ensures VersionCounts(t, a) {
      assert VersionCounts(s, a);
      assert DoneRuns(t, a) == DoneRuns(s, a);
    }
    forall c | c in t.checkpoints ensures ChainLinked(t, c) { assert ChainLinked(s, c); }
  }

  lemma ClosingIsSound(s: Tree, id: AgentId, now: nat)
    requires Sound(s, now) && id in s.agents && !HasActiveRun(s, id)
    ensures Sound(Closed(s, id), now)
  {
    SkeletonKeepsShape(s, Closed(s, id));
    SkeletonKeepsStatics(s, Closed(s, id));
    ClosingKeepsRuns(s, id, now);
    ClosingKeepsContext(s, id);
  }

  // ----- steps that add a run -----------------------------------------------

  /** The agent of a new run: idle and unchanged but for its latest run, or new and inside its parent's grant. */
  ghost predicate Enlists(s: Tree, agent: Agent) {
    && !agent.closed
    && if agent.info.id in s.agents then
         agent == s.agents[agent.info.id].(latestRun := agent.latestRun) && !HasActiveRun(s, agent.info.id)
       else
         && agent.contextVersion == 0 && agent.checkpoint.None?
         && (forall r :: r in s.runs ==> s.runs[r].info.agent != agent.info.id)
         && match agent.info.parent
            case None => agent.info.root == agent.info.id && agent.info.depth == 0
            case Some(p) =>
              && p in s.agents && agent.info.root == s.agents[p].info.root
              && agent.info.depth == s.agents[p].info.depth + 1
              && agent.info.depth <= s.agents[p].info.grant.maxDepth
              && Within(agent.info.grant, s.agents[p].info.grant)
  }

  /** A new run: a running root, or a queued effect of an active run, of an agent of the same agent tree. */
  ghost predicate Attaches(s: Tree, agent: Agent, run: Run)
    requires RunShape(s)
  {
    && run.info.id !in s.runs && run.info.agent == agent.info.id && run.info.created == s.sequence + 1
    && run == NewRun(run.info, run.status)
    && match run.info.parent
       case None =>
         run.status.Running? && run.info.root == run.info.id && agent.info.parent.None?
       case Some(p) =>
         && run.status.Queued? && p in s.runs && s.runs[p].status.Active()
         && run.info.root == s.runs[p].info.root && run.info.root in s.runs
         && s.runs[run.info.root].info.agent == agent.info.root
  }

  /** `t` is `s` with one more run. */
  ghost predicate Joins(s: Tree, t: Tree, agent: Agent, run: Run)
    requires RunShape(s)
  {
    && Enlists(s, agent) && Attaches(s, agent, run)
    && t.agents == s.agents[agent.info.id := agent] && t.runs == s.runs[run.info.id := run]
    && t.checkpoints == s.checkpoints && t.checkpointSeq == s.checkpointSeq && t.sequence == s.sequence + 1
    && s.runSeq <= t.runSeq && s.agentSeq <= t.agentSeq
    && (run.info.id.GeneratedRun? ==> run.info.id.n <= t.runSeq)
    && (agent.info.id.GeneratedAgent? && agent.info.id !in s.agents ==> agent.info.id.n <= t.agentSeq)
  }

  lemma JoiningKeepsRunShape(s: Tree, t: Tree, agent: Agent, run: Run)
    requires RunShape(s) && Joins(s, t, agent, run) && Unused(s)
    ensures RunShape(t) && Unused(t)
  {
    forall r | r in t.runs ensures RunLinked(t, r) {
      if r != run.info.id { assert RunLinked(s, r); }
      else if run.info.parent.Some? { assert RunLinked(s, run.info.parent.value); }
    }
  }

  lemma JoiningKeepsAgents(s: Tree, t: Tree, agent: Agent, run: Run)
    requires RunShape(s) && AgentShape(s) && Joins(s, t, agent, run) && Delegated(s)
    ensures AgentShape(t) && Delegated(t)
  {
    forall a | a in t.agents ensures AgentLinked(t, a) && DelegatedTo(t, a) {
      if a in s.agents { assert AgentLinked(s, a) && DelegatedTo(s, a); }
      else if agent.info.parent.Some? { assert AgentLinked(s, agent.info.parent.value); }
    }
  }

  lemma JoiningKeepsCauses(s: Tree, t: Tree, agent: Agent, run: Run)
    requires RunShape(s) && Joins(s, t, agent, run) && CausesActive(s) && DependenciesSettled(s)
    ensures CausesActive(t) && DependenciesSettled(t)
  {
    forall r | r in t.runs ensures CauseActive(t, r) && DependencySettled(t, r) {
      if r in s.runs { assert CauseActive(s, r) && DependencySettled(s, r); }
    }
  }

  lemma JoiningKeepsStatuses(s: Tree, t: Tree, agent: Agent, run: Run)
    requires RunShape(s) && Joins(s, t, agent, run)
    requires OneActiveRun(s) && ActiveAgentsOpen(s) && LeasesFormed(s)
    ensures OneActiveRun(t) && ActiveAgentsOpen(t) && LeasesFormed(t)
  {
  }

  lemma JoiningKeepsRoots(s: Tree, t: Tree, agent: Agent, run: Run)
    requires RunShape(s) && RunShape(t) && AgentShape(s) && AgentShape(t) && Joins(s, t, agent, run) && RootsAgree(s)
    ensures RootsAgree(t)
  {
    forall r | r in t.runs ensures RootAgrees(t, r) {
      assert RunLinked(t, r);
      if r in s.runs { assert RunLinked(s, r) && RootAgrees(s, r); }
      else if run.info.parent.Some? { assert RunLinked(s, run.info.parent.value); }
      else { assert AgentLinked(t, agent.info.id); }
    }
  }

  lemma ParticipantsAfterJoining(s: Tree, t: Tree, run: Run, root: RunId)
    requires run.info.id !in s.runs && t.runs == s.runs[run.info.id := run]
    ensures Participants(t, root) ==
            Participants(s, root) + (if run.info.root == root then {run.info.agent} else {})
  {
    forall a | a in Participants(s, root) ensures a in Participants(t, root) {
      var r :| r in s.runs && s.runs[r].info.root == root && s.runs[r].info.agent == a;
      assert t.runs[r] == s.runs[r];
    }
    forall a | a in Participants(t, root) && a !in Participants(s, root)
      ensures run.info.root == root && a == run.info.agent
    {
      var r :| r in t.runs && t.runs[r].info.root == root && t.runs[r].info.agent == a;
    }
    assert run.info.id in t.runs;
  }

  /** The newcomer already takes part, or the root has room for one more agent. */
  ghost predicate HasRoom(s: Tree, agent: Agent, run: Run)
    requires RunShape(s)
  {
    run.info.parent.Some? ==>
      && run.info.parent.value in s.runs
      && (|| agent.info.id in Participants(s, run.info.root)
          || |Participants(s, run.info.root)| < RootAgent(s, run.info.parent.value).info.grant.maxAgentsPerRoot)
  }

  lemma NewcomerFits(s: Tree, t: Tree, agent: Agent, run: Run)
    requires RunShape(s) && RunShape(t) && Joins(s, t, agent, run) && WithinCapacity(s) && HasRoom(s, agent, run)
    ensures FitsCapacity(t, run.info.id)
  {
    assert RunLinked(t, run.info.id);
    ParticipantsAfterJoining(s, t, run, run.info.root);
    if run.info.parent.Some? {
      assert RunLinked(s, run.info.parent.value) && FitsCapacity(s, run.info.parent.value);
    } else {
      forall q | q in s.runs ensures s.runs[q].info.root != run.info.root { assert RunLinked(s, q); }
      assert Participants(s, run.info.root) == {};
    }
  }

  lemma JoiningKeepsCapacity(s: Tree, t: Tree, agent: Agent, run: Run)
    requires RunShape(s) && RunShape(t) && Joins(s, t, agent, run) && WithinCapacity(s) && HasRoom(s, agent, run)
    ensures WithinCapacity(t)
  {
    NewcomerFits(s, t, agent, run);
    forall r | r in s.runs ensures FitsCapacity(t, r) {
      assert RunLinked(s, r) && RunLinked(t, r) && FitsCapacity(s, r);
      ParticipantsAfterJoining(s, t, run, s.runs[r].info.root);
    }
  }

  lemma JoiningKeepsParallelism(s: Tree, t: Tree, agent: Agent, run: Run, now: nat)
    requires RunShape(s) && RunShape(t) && Joins(s, t, agent, run) && WithinParallelism(s, now)
    ensures WithinParallelism(t, now)
  {
    forall r | r in t.runs ensures FitsParallelism(t, now, r) {
      assert RunLinked(t, r);
      var root := t.runs[r].info.root;
      if r in s.runs || run.info.parent.Some? {
        var q := if r in s.runs then r else run.info.parent.value;
        assert RunLinked(s, q) && FitsParallelism(s, now, q);
        assert Live(t, root, now) <= Live(s, root, now);
        SubsetCount(Live(t, root, now), Live(s, root, now));
      } else {
        forall q | q in s.runs ensures s.runs[q].info.root != root { assert RunLinked(s, q); }
        SubsetCount(Live(t, root, now), {run.info.id});
      }
    }
  }

  lemma JoiningKeepsContext(s: Tree, t: Tree, agent: Agent, run: Run)
    requires RunShape(s) && Joins(s, t, agent, run) && VersionsCount(s) && ChainsLinked(s)
    ensures VersionsCount(t) && ChainsLinked(t)
  {
    forall a | a in t.agents ensures VersionCounts(t, a) {
      assert DoneRuns(t, a) == DoneRuns(s, a);
      if a in s.agents { assert VersionCounts(s, a); }
      else { assert DoneRuns(s, a) == {}; }
    }
    forall c | c in t.checkpoints ensures ChainLinked(t, c) { assert ChainLinked(s, c); }
  }

  lemma JoiningIsConsistent(s: Tree, t: Tree, agent: Agent, run: Run, now: nat)
    requires Consistent(s, now) && Joins(s, t, agent, run) && HasRoom(s, agent, run)
    ensures Consistent(t, now)
  {
    JoiningKeepsRunShape(s, t, agent, run);
    JoiningKeepsAgents(s, t, agent, run);
    JoiningKeepsCauses(s, t, agent, run);
    JoiningKeepsStatuses(s, t, agent, run);
    JoiningKeepsRoots(s, t, agent, run);
    JoiningKeepsCapacity(s, t, agent, run);
    JoiningKeepsParallelism(s, t, agent, run, now);
    JoiningKeepsContext(s, t, agent, run);
  }
}
