/** What each step of the run tree does, told run by run and agent by agent. */
module AgentTreeEffects {
  import opened Prelude
  import opened AgentTree
  import opened AgentTreeInvariant
  import opened AgentTreeSteps
  import DependencyGraph

  // ----- cancellation and failure -------------------------------------------

  /** The run is over with this status and code; it keeps everything else but its lease. */
  ghost predicate Ended(before: Run, after: Run, status: Status, code: string) {
    && after.status == status && after.errorCode == Some(code) && after.owner.None? && after.expiry.None?
    && after.info == before.info && after.result == before.result && after.epoch == before.epoch
  }

  /** Nothing but runs differs, and no run came or went. */
  ghost predicate OnlyRunsDiffer(s: Tree, t: Tree) {
    t == s.(runs := t.runs) && t.runs.Keys == s.runs.Keys
  }

  /** A run that the step concerns: the one named, or one that it caused. */
  ghost predicate Concerns(s: Tree, id: RunId, r: RunId)
    requires RunShape(s) && r in s.runs
  {
    r == id || Descends(s, id, r)
  }

  /** A cancellation of a known run ends that run and all it caused, as far as they are active, and answers which. */
  lemma CancelEnds(s: Tree, id: RunId)
    requires Shape(s)
    ensures CancelSubtree(s, id).Ok? <==> id in s.runs
    ensures id !in s.runs ==> CancelSubtree(s, id) == Fail(RunNotFound)
    ensures id in s.runs ==>
      var (t, answer) := CancelSubtree(s, id).value;
      && OnlyRunsDiffer(s, t)
      && (forall r :: r in answer <==> r in s.runs && Concerns(s, id, r) && s.runs[r].status.Active())
      && (forall r :: r in answer ==> Ended(s.runs[r], t.runs[r], Canceled, "agent_run_canceled"))
      && (forall r :: r in s.runs && r !in answer ==> t.runs[r] == s.runs[r])
  {
  }

  /** A failure of an active run by its holder fails it and cancels all active runs that it caused. */
  lemma FailEnds(s: Tree, now: nat, id: RunId, code: string, claim: Claim)
    requires Shape(s)
    ensures var r := FailRun(s, now, id, code, claim);
      && (id !in s.runs ==> r == Fail(RunNotFound))
      && (id in s.runs && !s.runs[id].status.Active() ==> r == Ok((s, s.runs[id])))
      && (id in s.runs && s.runs[id].status.Active() && !Accepts(s.runs[id], claim, now) ==> r == Fail(LeaseLost))
      && (id in s.runs && s.runs[id].status.Active() && Accepts(s.runs[id], claim, now) ==>
            && r.Ok?
            && var (t, run) := r.value;
               && OnlyRunsDiffer(s, t) && run == t.runs[id] && Ended(s.runs[id], run, Failed, code)
               && forall q :: q in s.runs && q != id ==>
                    if Descends(s, id, q) && s.runs[q].status.Active()
                    then Ended(s.runs[q], t.runs[q], Canceled, "ancestor_run_failed")
                    else t.runs[q] == s.runs[q])
  {
    if id in s.runs { assert RunLinked(s, id); }
  }

  // ----- grants ----------------------------------------------------------

  /** A grant lies within another exactly if it allows nothing that the other does not. */
  lemma WithinExactly(child: Grant, parent: Grant)
    ensures Within(child, parent) <==>
      && (parent.canSpawn || !child.canSpawn)
      && child.maxDepth <= parent.maxDepth && child.maxChildrenPerCall <= parent.maxChildrenPerCall
      && child.maxAgentsPerRoot <= parent.maxAgentsPerRoot && child.maxParallelRuns <= parent.maxParallelRuns
      && Elements(child.allowedTools) <= Elements(parent.allowedTools)
      && Elements(child.allowedModels) <= Elements(parent.allowedModels)
  {
    assert forall name, names: seq<string> :: name in Elements(names) <==> name in names;
  }

  // ----- leases -------------------------------------------------------------

  /** Only the life of run `id` differs, and not its result. */
  ghost predicate OneRunDiffers(s: Tree, t: Tree, id: RunId) {
    && id in s.runs && id in t.runs && t == s.(runs := s.runs[id := t.runs[id]])
    && t.runs[id].info == s.runs[id].info && t.runs[id].result == s.runs[id].result && t.runs[id].errorCode == s.runs[id].errorCode
  }

  /** Who holds no lease is accepted without a token; who holds one, with the owner and epoch of an unexpired lease. */
  lemma AcceptedExactly(run: Run, claim: Claim, now: nat)
    requires LeaseForm(run)
    ensures Accepts(run, claim, now) <==>
      && claim.owner == run.owner && claim.epoch == (if run.owner.Some? then Some(run.epoch) else None)
      && (run.expiry.Some? ==> now < run.expiry.value)
  {
  }

  predicate Working(run: Run) { run.status.Running? || run.status.Waiting? }

  /** A run nobody holds but somebody may: queued, running under a lapsed lease, or waiting after its lease was given up. */
  predicate Available(run: Run, now: nat) {
    || run.status.Queued?
    || (run.status.Running? && run.expiry.Some? && run.expiry.value <= now)
    || (run.status.Waiting? && run.owner.None? && run.epoch >= 1)
  }

  /** Nothing it depends on is still to be done. */
  ghost predicate DependenciesOver(s: Tree, run: Run) {
    forall d :: d in run.info.dependencies ==>
      d in s.runs && (s.runs[d].status.Done? || s.runs[d].status.Failed? || s.runs[d].status.Canceled?)
  }

  /** How many runs under a root run now, under no lease or an unexpired one. */
  ghost function RunningNow(s: Tree, root: RunId, now: nat): nat {
    |set r | r in s.runs && s.runs[r].info.root == root && s.runs[r].status.Running?
             && (s.runs[r].expiry.Some? ==> now < s.runs[r].expiry.value)|
  }

  /** A claim hands out exactly an available run whose dependencies are over, under an open root with a free slot. */
  lemma ClaimGrantsExactly(s: Tree, now: nat, id: RunId, owner: string, duration: pos)
    requires Shape(s) && id in s.runs
    ensures var (r, run) := (ClaimRun(s, now, id, owner, duration), s.runs[id]);
      var ready := Available(run, now) && DependenciesOver(s, run);
      && (r == Fail(AgentClosed) <==> ready && RootAgent(s, id).closed)
      && (r.Ok? <==> !(ready && RootAgent(s, id).closed))
      && (r.Ok? && r.value.1.Some? <==>
            ready && !RootAgent(s, id).closed && RunningNow(s, run.info.root, now) < RootAgent(s, id).info.grant.maxParallelRuns)
  {
    assert RunLinked(s, id);
    assert Live(s, s.runs[id].info.root, now) ==
      set r | r in s.runs && s.runs[r].info.root == s.runs[id].info.root && s.runs[r].status.Running?
              && (s.runs[r].expiry.Some? ==> now < s.runs[r].expiry.value);
    hide RunShape, AgentShape;
  }

  /** A claim that hands the run out starts it under the claimer's lease; any other answer changes nothing. */
  lemma ClaimStarts(s: Tree, now: nat, id: RunId, owner: string, duration: pos)
    requires Shape(s)
    ensures var r := ClaimRun(s, now, id, owner, duration);
      && (id !in s.runs <==> r == Fail(RunNotFound))
      && (r.Ok? && r.value.1.None? ==> r.value.0 == s)
      && (r.Ok? && r.value.1.Some? ==>
            && OneRunDiffers(s, r.value.0, id)
            && var run := r.value.0.runs[id];
               r.value.1 == Some(run) && run.status.Running? && run.owner == Some(owner) && run.epoch == s.runs[id].epoch + 1
               && run.expiry == Some(now + duration))
  {
    if id in s.runs { assert RunLinked(s, id); }
  }

  /** Suspending gives the lease up and waits; whoever claims next gets the next epoch. */
  lemma SuspendGivesUp(s: Tree, now: nat, id: RunId, claim: Claim)
    requires Shape(s)
    ensures var r := SuspendRun(s, now, id, claim);
      && (r.Ok? <==> id in s.runs && Working(s.runs[id]) && Accepts(s.runs[id], claim, now))
      && (r.Fail? ==> r.fault == if id !in s.runs then RunNotFound else if !Working(s.runs[id]) then RunNotActive else LeaseLost)
      && (r.Ok? ==>
            && OneRunDiffers(s, r.value.0, id)
            && var run := r.value.0.runs[id];
               r.value.1 == run && run.status.Waiting? && run.owner.None? && run.expiry.None? && run.epoch == s.runs[id].epoch)
  {
    if id in s.runs { assert RunLinked(s, id); }
  }

  /** Renewing moves the end of the lease and nothing else. */
  lemma RenewalExtends(s: Tree, now: nat, later: nat, id: RunId, owner: string, epoch: nat, duration: pos)
    requires Shape(s)
    ensures var r := RenewRunLease(s, now, later, id, owner, epoch, duration);
      && (r.Ok? <==> id in s.runs && Working(s.runs[id]) && Accepts(s.runs[id], Claim(Some(owner), Some(epoch)), now))
      && (r.Fail? ==> r.fault == if id !in s.runs then RunNotFound else if !Working(s.runs[id]) then RunNotActive else LeaseLost)
      && (r.Ok? ==>
            && OneRunDiffers(s, r.value.0, id)
            && var run := r.value.0.runs[id];
               r.value.1 == run && run.status == s.runs[id].status && run.owner == s.runs[id].owner
               && run.epoch == s.runs[id].epoch && run.expiry == Some(later + duration))
  {
    if id in s.runs { assert RunLinked(s, id); }
  }

  /** A run that starts to wait keeps its lease; one that runs again needs a free slot and an open root. */
  lemma WaitingKeepsLease(s: Tree, now: nat, id: RunId, claim: Claim)
    requires Shape(s)
    ensures var r := MarkWaiting(s, now, id, claim);
      && (r.Ok? <==> id in s.runs && s.runs[id].status.Running? && Accepts(s.runs[id], claim, now))
      && (r.Fail? ==> r.fault == if id !in s.runs then RunNotFound else if !s.runs[id].status.Running? then StateConflict else LeaseLost)
      && (r.Ok? ==>
            && OneRunDiffers(s, r.value.0, id)
            && var (was, run) := (s.runs[id], r.value.0.runs[id]);
               r.value.1 == run && run.status.Waiting? && run.owner == was.owner && run.epoch == was.epoch && run.expiry == was.expiry)
    ensures var r := ReleaseWaiting(s, now, id, claim);
      && (r.Ok? <==>
            && id in s.runs && s.runs[id].status.Waiting? && Accepts(s.runs[id], claim, now) && !RootAgent(s, id).closed
            && |set q | q in s.runs && s.runs[q].info.root == s.runs[id].info.root && s.runs[q].status.Running?|
                 < RootAgent(s, id).info.grant.maxParallelRuns)
      && (r.Fail? ==>
            r.fault == (if id !in s.runs then RunNotFound
                        else if !s.runs[id].status.Waiting? then StateConflict
                        else if !Accepts(s.runs[id], claim, now) then LeaseLost
                        else if RootAgent(s, id).closed then AgentClosed
                        else CapacityExceeded))
      && (r.Ok? ==>
            && OneRunDiffers(s, r.value.0, id)
            && var (was, run) := (s.runs[id], r.value.0.runs[id]);
               r.value.1 == run && run.status.Running? && run.owner == was.owner && run.epoch == was.epoch && run.expiry == was.expiry)
  {
    if id in s.runs {
      assert RunLinked(s, id);
      assert RunningUnder(s, s.runs[id].info.root) ==
        set q | q in s.runs && s.runs[q].info.root == s.runs[id].info.root && s.runs[q].status.Running?;
    }
    hide RunShape, AgentShape;
  }

  /** No run of the agent is still to be done. */
  ghost predicate Idle(s: Tree, a: AgentId) {
    forall r :: r in s.runs && s.runs[r].info.agent == a ==> s.runs[r].status.Done? || s.runs[r].status.Failed? || s.runs[r].status.Canceled?
  }

  /** The agents that have runs under a root run. */
  ghost function Joined(s: Tree, root: RunId): set<AgentId> {
    set r | r in s.runs && s.runs[r].info.root == root :: s.runs[r].info.agent
  }

  lemma IdleIs(s: Tree)
    ensures forall a :: Idle(s, a) <==> !HasActiveRun(s, a)
    ensures forall root :: Joined(s, root) == Participants(s, root)
  {
  }

  // ----- completion and closing ---------------------------------------------

  /** Nothing that the run caused is still active. */
  ghost predicate Quiescent(s: Tree, id: RunId)
    requires RunShape(s) && id in s.runs
  {
    forall r :: r in s.runs && Descends(s, id, r) ==> !s.runs[r].status.Active()
  }

  lemma {:induction false} DescendantsShareRoot(s: Tree, id: RunId, r: RunId)
    requires RunShape(s) && r in s.runs && Descends(s, id, r)
    ensures id in s.runs && s.runs[id].info.root == s.runs[r].info.root
    decreases s.runs[r].info.created
  {
    assert RunLinked(s, r);
    if s.runs[r].info.parent.value != id { DescendantsShareRoot(s, id, s.runs[r].info.parent.value); }
  }

  predicate AgentIsClosed(s: Tree, a: AgentId) { a in s.agents && s.agents[a].closed }

  /** A completion is accepted exactly from the holder of a running, quiescent run of an open agent at the version it read;
      then the run is done with its result, and a new checkpoint that comes from it heads its agent's context. */
  lemma CompletionDoes(s: Tree, now: nat, id: RunId, claim: Claim, version: nat, result: string, ref: string, fp: string)
    requires Shape(s)
    ensures var r := CompleteRun(s, now, id, claim, version, result, ref, fp);
      && (r.Ok? <==>
            && id in s.runs && s.runs[id].status.Running? && Accepts(s.runs[id], claim, now) && Quiescent(s, id)
            && s.runs[id].info.agent in s.agents && !s.agents[s.runs[id].info.agent].closed
            && s.agents[s.runs[id].info.agent].contextVersion == version)
      && (r.Fail? ==>
            r.fault == (if id !in s.runs then RunNotFound
                        else if !s.runs[id].status.Running? then StateConflict
                        else if !Accepts(s.runs[id], claim, now) then LeaseLost
                        else if !Quiescent(s, id) then NotQuiescent
                        else if AgentIsClosed(s, s.runs[id].info.agent) then AgentClosed
                        else ContextConflict))
      && (r.Ok? ==>
            var (t, run, a, n) := (r.value.0, r.value.1, s.runs[id].info.agent, s.checkpointSeq + 1);
            && id in t.runs && a in t.agents && n in t.checkpoints
            && t == s.(runs := s.runs[id := run], agents := s.agents[a := t.agents[a]],
                       checkpoints := s.checkpoints[n := t.checkpoints[n]], checkpointSeq := n)
            && run.status.Done? && run.result == Some(result) && run.owner.None? && run.expiry.None?
            && run.info == s.runs[id].info && run.epoch == s.runs[id].epoch && run.errorCode == s.runs[id].errorCode
            && t.agents[a] == s.agents[a].(contextVersion := version + 1, checkpoint := Some(n))
            && t.checkpoints[n] == Checkpoint(a, version + 1, s.agents[a].checkpoint, id, ref, fp))
  {
    if id in s.runs {
      assert RunLinked(s, id) && AgentLinked(s, s.runs[id].info.agent);
      forall r | r in s.runs && Descends(s, id, r) ensures s.runs[r].info.root == s.runs[id].info.root {
        DescendantsShareRoot(s, id, r);
      }
    }
    hide RunShape, AgentShape, DependenciesKnown, Accepts;
  }

  /** An open agent without an active run is closed, and nothing else changes. */
  lemma ClosingCloses(s: Tree, a: AgentId)
    ensures var r := CloseAgent(s, a);
      && (r.Ok? <==> a in s.agents && !s.agents[a].closed && Idle(s, a))
      && (r.Fail? ==> r.fault == if a !in s.agents then AgentNotFound else if s.agents[a].closed then AgentClosed else AgentBusy)
      && (r.Ok? ==> r.value.0 == s.(agents := s.agents[a := r.value.1]) && r.value.1 == s.agents[a].(closed := true))
  {
    IdleIs(s);
    hide Idle, HasActiveRun;
  }

  // ----- new runs -----------------------------------------------------------

  /** A run as it is created: never claimed, without result. */
  ghost predicate Unclaimed(run: Run, status: Status) {
    run.status == status && run.result.None? && run.errorCode.None? && run.owner.None? && run.epoch == 0 && run.expiry.None?
  }

  /** A root starts running at once, under a new agent or an idle open root agent with the same grant. */
  lemma RootBegins(s: Tree, cmd: RootCommand)
    requires Shape(s)
    ensures var r := BeginRoot(s, cmd);
      && (cmd.runId in s.runs ==>
            r == if cmd.runId in s.roots && s.roots[cmd.runId] == cmd then Ok((s, s.runs[cmd.runId])) else Fail(IdempotencyConflict))
      && (cmd.runId !in s.runs ==>
            (r.Ok? <==> cmd.agentId in s.agents ==>
               var agent := s.agents[cmd.agentId];
               agent.info.parent.None? && !agent.closed && agent.info.grant == cmd.grant && Idle(s, cmd.agentId)))
      && (cmd.runId !in s.runs && r.Ok? ==>
            var (t, run) := r.value;
            && cmd.agentId in t.agents
            && t == s.(runs := s.runs[cmd.runId := run], agents := s.agents[cmd.agentId := t.agents[cmd.agentId]],
                       roots := s.roots[cmd.runId := cmd], sequence := s.sequence + 1)
            && Unclaimed(run, Running) && run.info.id == cmd.runId == run.info.root && run.info.agent == cmd.agentId
            && run.info.parent.None? && run.info.work.objective == cmd.objective && run.info.created == s.sequence + 1
            && run.info.dependencies == [] && run.info.batch.None?
            && RootAgentAfter(s, t.agents[cmd.agentId], run.info.previous, cmd))
  {
    if cmd.agentId in s.agents { assert AgentLinked(s, cmd.agentId); }
    IdleIs(s);
    hide RunShape, AgentShape, DependenciesKnown, HasActiveRun, Idle;
  }

  /** The root's agent: the one there was, with the new run as its latest, or one with the command's profile and grant. */
  ghost predicate RootAgentAfter(s: Tree, after: Agent, previous: Option<RunId>, cmd: RootCommand) {
    && after.latestRun == Some(cmd.runId)
    && (if cmd.agentId in s.agents
        then after == s.agents[cmd.agentId].(latestRun := after.latestRun) && previous == s.agents[cmd.agentId].latestRun
        else
          && previous.None? && !after.closed && after.contextVersion == 0 && after.checkpoint.None?
          && after.info == AgentInfo(cmd.agentId, cmd.agentId, None, 0, cmd.runId, cmd.key, cmd.profile, cmd.grant))
  }

  /** The agent that a continuation asks for may go on: open, below the asking one in its tree, idle, at the version read,
      and with room for it under the root run. */
  ghost predicate MayContinue(s: Tree, requester: Run, q: Continuation)
    requires AgentShape(s) && requester.info.agent in s.agents
  {
    var asking := s.agents[requester.info.agent];
    && q.agentId in s.agents && asking.info.root in s.agents
    && var target := s.agents[q.agentId];
       && !target.closed && !asking.closed && !s.agents[asking.info.root].closed
       && target.info.root == asking.info.root && AgentUnder(s, requester.info.agent, q.agentId)
       && target.contextVersion == q.expectedVersion && Idle(s, q.agentId)
       && var joined := Joined(s, requester.info.root);
          q.agentId in joined || |joined| < s.agents[asking.info.root].info.grant.maxAgentsPerRoot
  }

  /** Why a known agent may not go on: the first of these that applies. */
  ghost function RefusedContinuation(s: Tree, requester: Run, q: Continuation): Fault
    requires AgentShape(s) && requester.info.agent in s.agents && q.agentId in s.agents
  {
    var (asking, target) := (s.agents[requester.info.agent], s.agents[q.agentId]);
    if target.closed || asking.closed then AgentClosed
    else if target.info.root != asking.info.root || !AgentUnder(s, requester.info.agent, q.agentId) then ScopeViolation
    else if target.contextVersion != q.expectedVersion then ContextConflict
    else if !Idle(s, q.agentId) then AgentBusy
    else if AgentIsClosed(s, asking.info.root) then AgentClosed
    else CapacityExceeded
  }

  /** A continuation gives an agent a further, queued run, caused by the asking one. */
  lemma ContinuationBrings(s: Tree, now: nat, requester: RunId, key: string, q: Continuation, claim: Claim)
    requires Shape(s) && (requester, key) !in s.continues
    ensures var r := ContinueAgent(s, now, requester, key, q, claim);
      && (r.Ok? <==>
            && requester in s.runs && Working(s.runs[requester]) && Accepts(s.runs[requester], claim, now)
            && s.runs[requester].info.agent in s.agents && MayContinue(s, s.runs[requester], q))
      && (r.Fail? ==>
            r.fault == (if requester !in s.runs then RunNotFound
                        else if !Working(s.runs[requester]) then RunNotActive
                        else if !Accepts(s.runs[requester], claim, now) then LeaseLost
                        else if q.agentId !in s.agents || s.runs[requester].info.agent !in s.agents then AgentNotFound
                        else RefusedContinuation(s, s.runs[requester], q)))
      && (r.Ok? ==>
            var (t, receipt, id) := (r.value.0, r.value.1, GeneratedRun(s.runSeq + 1));
            && receipt.request == q && receipt.run.info.id == id && receipt.agent == s.agents[q.agentId].(latestRun := Some(id))
            && t == s.(runs := s.runs[id := receipt.run], agents := s.agents[q.agentId := receipt.agent],
                       continues := s.continues[(requester, key) := receipt], runSeq := s.runSeq + 1, sequence := s.sequence + 1)
            && Unclaimed(receipt.run, Queued) && receipt.run.info.agent == q.agentId
            && receipt.run.info.parent == Some(requester) && receipt.run.info.root == s.runs[requester].info.root
            && receipt.run.info.previous == s.agents[q.agentId].latestRun && receipt.run.info.created == s.sequence + 1
            && receipt.run.info.work == Work(q.message, "{}", q.required, q.priority) && receipt.run.info.dependencies == []
            && receipt.run.info.batch.None?)
  {
    if requester in s.runs { assert RunLinked(s, requester) && AgentLinked(s, s.runs[requester].info.agent); }
    if q.agentId in s.agents { assert AgentLinked(s, q.agentId); }
    IdleIs(s);
    hide Idle, Joined;
    hide RunShape, AgentShape, DependenciesKnown, HasActiveRun, Participants, Accepts, AgentUnder;
  }

  /** Asked again with the same key, a spawn or a continuation answers as before and changes nothing. */
  lemma RequestsReplay(s: Tree, now: nat, id: RunId, key: string, q: Continuation, children: seq<ChildSpec>, claim: Claim)
    requires Shape(s)
    ensures (id, key) in s.continues ==>
      ContinueAgent(s, now, id, key, q, claim) ==
        if s.continues[(id, key)].request == q then Ok((s, s.continues[(id, key)])) else Fail(IdempotencyConflict)
    ensures (id, key) in s.spawns && children != [] && ChildrenWellFormed(children) ==>
      SpawnAgents(s, now, id, key, children, claim) ==
        if s.spawns[(id, key)].children == children then Ok((s, s.spawns[(id, key)])) else Fail(IdempotencyConflict)
  {
    hide RunShape, AgentShape, DependenciesKnown, ChildrenWellFormed;
  }

  // ----- spawned children ---------------------------------------------------

  /** The creator may spawn these children now. */
  ghost predicate MaySpawn(s: Tree, parent: Run, children: seq<ChildSpec>)
    requires parent.info.agent in s.agents
  {
    var creator := s.agents[parent.info.agent];
    var grant := creator.info.grant;
    && !creator.closed && grant.canSpawn && creator.info.depth < grant.maxDepth && |children| <= grant.maxChildrenPerCall
    && |Joined(s, parent.info.root)| + |children| <= grant.maxAgentsPerRoot
    && forall i :: 0 <= i < |children| && children[i].grant.Some? ==> Within(children[i].grant.value, grant)
  }

  /** Why children that are well formed may not be spawned: the first of these that applies. */
  ghost function RefusedSpawn(s: Tree, parent: Run, children: seq<ChildSpec>): Fault
    requires parent.info.agent in s.agents
  {
    var creator := s.agents[parent.info.agent];
    if creator.closed then AgentClosed
    else if !creator.info.grant.canSpawn then CapabilityEscalation
    else if creator.info.depth >= creator.info.grant.maxDepth then DepthExceeded
    else if |children| > creator.info.grant.maxChildrenPerCall then CapacityExceeded
    else if |Joined(s, parent.info.root)| + |children| > creator.info.grant.maxAgentsPerRoot then CapacityExceeded
    else CapabilityEscalation
  }

  lemma SpawnIsAllowed(s: Tree, parent: Run, children: seq<ChildSpec>)
    requires parent.info.agent in s.agents
    ensures SpawnFault(s, parent.info.root, s.agents[parent.info.agent], children).None? <==> MaySpawn(s, parent, children)
    ensures !MaySpawn(s, parent, children) ==>
      SpawnFault(s, parent.info.root, s.agents[parent.info.agent], children) == Some(RefusedSpawn(s, parent, children))
  {
    IdleIs(s);
    hide Joined, Participants;
    var grant := s.agents[parent.info.agent].info.grant;
    assert forall i :: 0 <= i < |children| ==>
      (Within(ChildGrant(grant, children[i].grant), grant) <==>
       (children[i].grant.Some? ==> Within(children[i].grant.value, grant)));
  }

  /** A spawn that is not a replay is accepted exactly for well-formed children of a working run whose holder asks and
      whose agent may have them. */
  lemma SpawnIsAcceptedExactly(s: Tree, now: nat, p: RunId, key: string, children: seq<ChildSpec>, claim: Claim)
    requires Shape(s) && (p, key) !in s.spawns
    ensures SpawnAgents(s, now, p, key, children, claim).Ok? <==>
      && children != [] && ChildrenWellFormed(children)
      && p in s.runs && Working(s.runs[p]) && Accepts(s.runs[p], claim, now)
      && s.runs[p].info.agent in s.agents && MaySpawn(s, s.runs[p], children)
    ensures SpawnAgents(s, now, p, key, children, claim).Fail? ==>
      SpawnAgents(s, now, p, key, children, claim).fault ==
        (if children == [] then CapacityExceeded
         else if !ChildrenWellFormed(children) then InvalidArgument
         else if p !in s.runs then RunNotFound
         else if !Working(s.runs[p]) then RunNotActive
         else if !Accepts(s.runs[p], claim, now) then LeaseLost
         else if s.runs[p].info.agent in s.agents then RefusedSpawn(s, s.runs[p], children) else AgentNotFound)
  {
    if p in s.runs {
      assert RunLinked(s, p);
      SpawnIsAllowed(s, s.runs[p], children);
    }
    hide RunShape, AgentShape, DependenciesKnown, ChildrenWellFormed, SpawnFault, MaySpawn, RefusedSpawn, Accepts, Spawned, SpawnItems;
  }

  function RunNumber(s: Tree, i: nat): RunId { GeneratedRun(s.runSeq + i + 1) }
  function AgentNumber(s: Tree, i: nat): AgentId { GeneratedAgent(s.agentSeq + i + 1) }

  /** Child `i` of a spawn by run `p`: an open agent below the creator's, and its first run, queued. */
  ghost predicate ChildIs(s: Tree, t: Tree, p: RunId, key: string, children: seq<ChildSpec>, i: nat)
    requires p in s.runs && s.runs[p].info.agent in s.agents && i < |children|
  {
    var (creator, spec, r, a) := (s.agents[s.runs[p].info.agent], children[i], RunNumber(s, i), AgentNumber(s, i));
    && r in t.runs && a in t.agents
    && var (run, agent) := (t.runs[r], t.agents[a]);
       && agent.info == AgentInfo(a, creator.info.root, Some(creator.info.id), creator.info.depth + 1, p, key, spec.profile,
                                  if spec.grant.Some? then spec.grant.value else creator.info.grant)
       && agent.contextVersion == 0 && agent.checkpoint.None? && agent.latestRun == Some(r) && !agent.closed
       && Unclaimed(run, Queued) && run.info.id == r && run.info.agent == a && run.info.root == s.runs[p].info.root
       && run.info.parent == Some(p) && run.info.previous.None? && run.info.batch == Some(s.batchSeq + 1)
       && run.info.work == spec.work && run.info.created == s.sequence + i + 1
       && DependsByName(t, run, spec.dependsOn)
  }

  /** The run depends on the first runs of agents with these names, from its own batch. */
  ghost predicate DependsByName(t: Tree, run: Run, names: seq<string>) {
    && |run.info.dependencies| == |names|
    && forall j :: 0 <= j < |names| ==>
         var d := run.info.dependencies[j];
         && d in t.runs && t.runs[d].info.batch == run.info.batch && t.runs[d].info.agent in t.agents
         && t.agents[t.runs[d].info.agent].info.profile.name == names[j]
         && t.agents[t.runs[d].info.agent].latestRun == Some(d)
  }

  /** The run ids and agent ids to come are free. */
  ghost predicate NumbersFree(s: Tree) {
    && (forall n: nat :: GeneratedRun(n) in s.runs ==> n <= s.runSeq)
    && (forall n: nat :: GeneratedAgent(n) in s.agents ==> n <= s.agentSeq)
  }

  lemma SoundNumbersFree(s: Tree)
    requires Unused(s)
    ensures NumbersFree(s)
  {
  }

  predicate NextRuns(s: Tree, n: nat, r: RunId) { r.GeneratedRun? && s.runSeq < r.n <= s.runSeq + n }
  predicate NextAgents(s: Tree, n: nat, a: AgentId) { a.GeneratedAgent? && s.agentSeq < a.n <= s.agentSeq + n }

  /** The next `n` run ids and agent ids are taken besides, and everything else is as it was. */
  ghost predicate Adds(s: Tree, t: Tree, n: nat) {
    && (forall r :: r in t.runs <==> r in s.runs || NextRuns(s, n, r))
    && (forall a :: a in t.agents <==> a in s.agents || NextAgents(s, n, a))
    && (forall r :: r in s.runs ==> t.runs[r] == s.runs[r])
    && (forall a :: a in s.agents ==> t.agents[a] == s.agents[a])
    && t == s.(runs := t.runs, agents := t.agents, sequence := s.sequence + n, agentSeq := s.agentSeq + n,
               runSeq := s.runSeq + n, batchSeq := t.batchSeq, spawns := t.spawns)
  }

  lemma AddsOneMore(s: Tree, u: Tree, n: nat, agent: Agent, run: Run)
    requires NumbersFree(s) && Adds(s, u, n) && run.info.id == RunNumber(s, n) && agent.info.id == AgentNumber(s, n)
    ensures Adds(s, AddRun(u, agent, run).(agentSeq := u.agentSeq + 1, runSeq := u.runSeq + 1), n + 1)
  {
  }

  ghost predicate WroteChild(s: Tree, t: Tree, c: Spawning, i: nat)
    requires i < |c.children|
  {
    && RunNumber(s, i) in t.runs && t.runs[RunNumber(s, i)] == ChildRun(c, i)
    && AgentNumber(s, i) in t.agents && t.agents[AgentNumber(s, i)] == ChildAgent(c, i)
  }

  ghost predicate WroteAll(s: Tree, t: Tree, c: Spawning, k: nat)
    requires k <= |c.children|
  {
    forall i: nat {:trigger WroteChild(s, t, c, i)} :: i < k ==> WroteChild(s, t, c, i)
  }

  lemma WroteOneMore(s: Tree, u: Tree, c: Spawning, k: nat)
    requires c.agentBase == s.agentSeq && c.runBase == s.runSeq && k < |c.children| && WroteAll(s, u, c, k)
    ensures WroteAll(s, AddChild(u, c, k), c, k + 1)
  {
    var t := AddChild(u, c, k);
    ChildIds(s, c, k);
    forall i: nat | i < k + 1 ensures WroteChild(s, t, c, i) {
      if i < k { assert WroteChild(s, u, c, i); }
    }
  }

  /** What the first `k` writes of a spawn leave. */
  lemma {:induction false} WritesAre(s: Tree, c: Spawning, k: nat)
    requires NumbersFree(s) && c.agentBase == s.agentSeq && c.runBase == s.runSeq && k <= |c.children|
    ensures Adds(s, ChildrenAdded(s, c, k), k) && WroteAll(s, ChildrenAdded(s, c, k), c, k)
    decreases k
  {
    hide NumbersFree, Adds, WroteAll, ChildRun, ChildAgent;
    if k > 0 {
      WritesAre(s, c, k - 1);
      ChildIds(s, c, k - 1);
      AddsOneMore(s, ChildrenAdded(s, c, k - 1), k - 1, ChildAgent(c, k - 1), ChildRun(c, k - 1));
      WroteOneMore(s, ChildrenAdded(s, c, k - 1), c, k - 1);
    } else {
      NothingAdded(s, c);
    }
  }

  lemma NothingAdded(s: Tree, c: Spawning)
    ensures Adds(s, s, 0) && WroteAll(s, s, c, 0)
  {
  }

  lemma ChildIds(s: Tree, c: Spawning, i: nat)
    requires c.agentBase == s.agentSeq && c.runBase == s.runSeq && i < |c.children|
    ensures ChildRun(c, i).info.id == RunNumber(s, i) && ChildAgent(c, i).info.id == AgentNumber(s, i)
  {
  }

  /** The answer lists the children as they were written. */
  ghost predicate ListsChildren(s: Tree, t: Tree, receipt: SpawnReceipt, children: seq<ChildSpec>) {
    && receipt.children == children && receipt.batch == s.batchSeq + 1 && |receipt.items| == |children|
    && forall i: nat :: i < |children| ==>
         && AgentNumber(s, i) in t.agents && RunNumber(s, i) in t.runs
         && receipt.items[i] == (t.agents[AgentNumber(s, i)], t.runs[RunNumber(s, i)])
  }

  /** An accepted spawn writes each child as its author asked, under the next numbers, and touches nothing else. */
  lemma SpawnBringsChildren(s: Tree, now: nat, p: RunId, key: string, children: seq<ChildSpec>, claim: Claim)
    requires Shape(s) && Unused(s) && (p, key) !in s.spawns && SpawnAgents(s, now, p, key, children, claim).Ok?
    ensures p in s.runs && s.runs[p].info.agent in s.agents
    ensures var (t, receipt) := SpawnAgents(s, now, p, key, children, claim).value;
      && Adds(s, t, |children|) && t.batchSeq == s.batchSeq + 1 && t.spawns == s.spawns[(p, key) := receipt]
      && (forall i :: 0 <= i < |children| ==> ChildIs(s, t, p, key, children, i))
      && ListsChildren(s, t, receipt, children)
  {
    SoundNumbersFree(s);
    assert RunLinked(s, p) && AgentLinked(s, s.runs[p].info.agent);
    var c := SpawnPassedChecks(s, now, p, key, children, claim);
    hide SpawnAgents, ChildRun, ChildAgent, ChildrenAdded, RunShape, AgentShape, DependenciesKnown, SpawnAllowed, SpawnItems;
    hide NumbersFree, Adds, WroteAll, ChildIs, ChildrenWellFormed, ListsChildren, Spawned;
    var (t, receipt) := SpawnAgents(s, now, p, key, children, claim).value;
    WritesAre(s, c, |children|);
    SpawnedIs(s, c, receipt);
    WrittenIsListed(s, t, c, receipt);
    forall i | 0 <= i < |children| ensures ChildIs(s, t, p, key, children, i) { SpawnedChildIs(s, t, c, p, i); }
  }

  lemma SpawnedIs(s: Tree, c: Spawning, receipt: SpawnReceipt)
    requires Adds(s, ChildrenAdded(s, c, |c.children|), |c.children|)
    requires WroteAll(s, ChildrenAdded(s, c, |c.children|), c, |c.children|)
    ensures var t := Spawned(s, c, receipt);
      && Adds(s, t, |c.children|) && WroteAll(s, t, c, |c.children|)
      && t.batchSeq == c.batch && t.spawns == s.spawns[(c.parent.info.id, c.key) := receipt]
  {
    hide ChildRun, ChildAgent, ChildrenAdded;
    var (u, t) := (ChildrenAdded(s, c, |c.children|), Spawned(s, c, receipt));
    forall i: nat | i < |c.children| ensures WroteChild(s, t, c, i) { assert WroteChild(s, u, c, i); }
  }

  lemma WrittenIsListed(s: Tree, t: Tree, c: Spawning, receipt: SpawnReceipt)
    requires WroteAll(s, t, c, |c.children|)
    requires c.batch == s.batchSeq + 1 && receipt == SpawnReceipt(c.children, c.batch, SpawnItems(c, |c.children|))
    ensures ListsChildren(s, t, receipt, c.children)
  {
    hide ChildRun, ChildAgent;
    ItemsAre(c, |c.children|);
    forall i: nat | i < |c.children|
      ensures AgentNumber(s, i) in t.agents && RunNumber(s, i) in t.runs
        && receipt.items[i] == (t.agents[AgentNumber(s, i)], t.runs[RunNumber(s, i)])
    {
      assert WroteChild(s, t, c, i);
    }
  }

  lemma {:induction false} ItemsAre(c: Spawning, k: nat)
    requires k <= |c.children|
    ensures forall i :: 0 <= i < k ==> SpawnItems(c, k)[i] == (ChildAgent(c, i), ChildRun(c, i))
  {
    hide ChildAgent, ChildRun;
    if k > 0 { ItemsAre(c, k - 1); }
  }

  lemma SpawnedChildIs(s: Tree, t: Tree, c: Spawning, p: RunId, i: nat)
    requires p in s.runs && s.runs[p].info.id == p && s.runs[p].info.agent in s.agents && i < |c.children|
    requires s.agents[s.runs[p].info.agent].info.id == s.runs[p].info.agent
    requires c == Spawning(s.runs[p], s.agents[s.runs[p].info.agent], c.key, c.children, s.agentSeq, s.runSeq, s.sequence, s.batchSeq + 1)
    requires ChildrenWellFormed(c.children)
    requires WroteAll(s, t, c, |c.children|)
    ensures ChildIs(s, t, p, c.key, c.children, i)
  {
    NamesAreSiblings(c.children, i);
    assert WroteChild(s, t, c, i);
    var (run, names) := (ChildRun(c, i), c.children[i].dependsOn);
    forall j | 0 <= j < |names|
      ensures var d := run.info.dependencies[j];
        && d in t.runs && t.runs[d].info.batch == run.info.batch && t.runs[d].info.agent in t.agents
        && t.agents[t.runs[d].info.agent].info.profile.name == names[j]
        && t.agents[t.runs[d].info.agent].latestRun == Some(d)
    {
      var k := DependencyGraph.IndexOf(Names(c.children), names[j]);
      assert WroteChild(s, t, c, k);
      assert names[j] in names && Names(c.children)[k] == c.children[k].profile.name;
      assert run.info.dependencies[j] == RunNumber(s, k);
      assert ChildRun(c, k).info.agent == AgentNumber(s, k);
    }
  }

  /** In a well-formed batch every dependency is the name of a sibling. */
  lemma NamesAreSiblings(children: seq<ChildSpec>, i: nat)
    requires ChildrenWellFormed(children) && i < |children|
    ensures forall d :: d in children[i].dependsOn ==> DependencyGraph.IndexOf(Names(children), d) < |children|
  {
    var rank: map<string, nat> :| DependencyGraph.Ranks(Names(children), NamedDependencies(children), rank);
    forall d | d in children[i].dependsOn ensures DependencyGraph.IndexOf(Names(children), d) < |children| {
      assert d in NamedDependencies(children)[i];
    }
  }
}
