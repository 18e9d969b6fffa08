/**
 The run tree of agents, runs, leases and context checkpoints
 (typescript/src/agent-tree.ts), as values.  Every public operation of the
 repository is one atomic step; this module gives each step as a function from
 the tree before to the tree after, with the faults it raises.
 */
module AgentTree {
  import opened Prelude
  import DependencyGraph

  // ----- identities ---------------------------------------------------------

  /** A run id is a text.  `GeneratedRun(n)` is the text "agent-run-n", whoever
      wrote it; `HostRun` is every other text. */
  datatype RunId = HostRun(text: string) | GeneratedRun(n: nat)
  datatype AgentId = HostAgent(text: string) | GeneratedAgent(n: nat)

  // ----- capability grants --------------------------------------------------

  datatype Grant = Grant(
    canSpawn: bool, maxDepth: pos, maxChildrenPerCall: pos, maxAgentsPerRoot: pos,
    maxParallelRuns: pos, allowedTools: seq<string>, allowedModels: seq<string>)

  /** `child` gives no authority that `parent` lacks. */
  predicate Within(child: Grant, parent: Grant) {
    && (child.canSpawn ==> parent.canSpawn)
    && child.maxDepth <= parent.maxDepth
    && child.maxChildrenPerCall <= parent.maxChildrenPerCall
    && child.maxAgentsPerRoot <= parent.maxAgentsPerRoot
    && child.maxParallelRuns <= parent.maxParallelRuns
    && (forall name :: name in child.allowedTools ==> name in parent.allowedTools)
    && (forall name :: name in child.allowedModels ==> name in parent.allowedModels)
  }

  /** The grant a child would get: the requested one, or the parent's own. */
  function ChildGrant(parent: Grant, requested: Option<Grant>): Grant {
    match requested case None => parent case Some(g) => g
  }

  // ----- records ------------------------------------------------------------

  datatype Profile = Profile(name: string, title: string, instruction: string)
  datatype Work = Work(objective: string, input: string, required: bool, priority: int)

  /** The part of an agent fixed at its creation. */
  datatype AgentInfo = AgentInfo(
    id: AgentId, root: AgentId, parent: Option<AgentId>, depth: nat,
    createdByRun: RunId, createdByCall: string, profile: Profile, grant: Grant)

  datatype Agent = Agent(
    info: AgentInfo, contextVersion: nat, checkpoint: Option<nat>,
    latestRun: Option<RunId>, closed: bool)

  datatype Status = Queued | Running | Waiting | Done | Failed | Canceled {
    predicate Active() { Queued? || Running? || Waiting? }
  }

  /** The part of a run fixed at its creation. */
  datatype RunInfo = RunInfo(
    id: RunId, agent: AgentId, root: RunId, parent: Option<RunId>, previous: Option<RunId>,
    batch: Option<nat>, dependencies: seq<RunId>, work: Work, created: nat)

  datatype Run = Run(
    info: RunInfo, status: Status, result: Option<string>, errorCode: Option<string>,
    owner: Option<string>, epoch: nat, expiry: Option<nat>)

  datatype Checkpoint = Checkpoint(
    agent: AgentId, version: nat, previous: Option<nat>, source: RunId,
    contentRef: string, fingerprint: string)

  // ----- commands -----------------------------------------------------------

  datatype Claim = Claim(owner: Option<string>, epoch: Option<nat>)

  datatype RootCommand = RootCommand(
    runId: RunId, agentId: AgentId, profile: Profile, objective: string, grant: Grant, key: string)

  datatype ChildSpec = ChildSpec(
    profile: Profile, dependsOn: seq<string>, work: Work, grant: Option<Grant>)

  datatype Continuation = Continuation(
    agentId: AgentId, expectedVersion: nat, message: string, required: bool, priority: int)

  datatype SpawnReceipt = SpawnReceipt(children: seq<ChildSpec>, batch: nat, items: seq<(Agent, Run)>)
  datatype ContinueReceipt = ContinueReceipt(request: Continuation, agent: Agent, run: Run)

  datatype Fault =
    | RunNotFound | RunNotActive | LeaseLost | AgentNotFound | AgentClosed | AgentBusy
    | CapabilityEscalation | DepthExceeded | CapacityExceeded | IdempotencyConflict
    | ScopeViolation | ContextConflict | StateConflict | NotQuiescent | InvalidArgument

  // ----- the store ----------------------------------------------------------

  datatype Tree = Tree(
    agents: map<AgentId, Agent>, runs: map<RunId, Run>, checkpoints: map<nat, Checkpoint>,
    spawns: map<(RunId, string), SpawnReceipt>, continues: map<(RunId, string), ContinueReceipt>,
    roots: map<RunId, RootCommand>,
    sequence: nat, agentSeq: nat, runSeq: nat, batchSeq: nat, checkpointSeq: nat)

  const EMPTY: Tree := Tree(map[], map[], map[], map[], map[], map[], 0, 0, 0, 0, 0)

  /** The references of run `r` resolve, and its cause is older. */
  ghost predicate RunLinked(s: Tree, r: RunId)
    requires r in s.runs
  {
    var i := s.runs[r].info;
    && i.id == r && i.agent in s.agents
    && i.root in s.runs && s.runs[i.root].info.parent.None? && s.runs[i.root].info.agent in s.agents
    && (i.parent.None? ==> i.root == r)
    && (i.parent.Some? ==>
          && i.parent.value in s.runs
          && s.runs[i.parent.value].info.created < i.created
          && s.runs[i.parent.value].info.root == i.root)
  }

  /** The references of agent `a` resolve, and it is one deeper than its parent. */
  ghost predicate AgentLinked(s: Tree, a: AgentId)
    requires a in s.agents
  {
    var i := s.agents[a].info;
    && i.id == a && i.root in s.agents && s.agents[i.root].info.parent.None?
    && (i.parent.None? ==> i.root == a && i.depth == 0)
    && (i.parent.Some? ==>
          && i.parent.value in s.agents
          && s.agents[i.parent.value].info.depth + 1 == i.depth
          && s.agents[i.parent.value].info.root == i.root)
  }

  ghost predicate RunShape(s: Tree) {
    forall r {:trigger RunLinked(s, r)} :: r in s.runs ==> RunLinked(s, r)
  }

  ghost predicate AgentShape(s: Tree) {
    forall a {:trigger AgentLinked(s, a)} :: a in s.agents ==> AgentLinked(s, a)
  }

  ghost predicate DependenciesKnown(s: Tree) {
    forall r, d :: r in s.runs && d in s.runs[r].info.dependencies ==> d in s.runs
  }

  ghost predicate Shape(s: Tree) { RunShape(s) && AgentShape(s) && DependenciesKnown(s) }

  /** `r` was caused, directly or not, by run `ancestor`. */
  ghost predicate Descends(s: Tree, ancestor: RunId, r: RunId)
    requires RunShape(s) && r in s.runs
    decreases s.runs[r].info.created
  {
    assert RunLinked(s, r);
    var p := s.runs[r].info.parent;
    p.Some? && (p.value == ancestor || Descends(s, ancestor, p.value))
  }

  /** `a` is `ancestor` or below it. */
  ghost predicate AgentUnder(s: Tree, ancestor: AgentId, a: AgentId)
    requires AgentShape(s) && a in s.agents
    decreases s.agents[a].info.depth
  {
    assert AgentLinked(s, a);
    a == ancestor ||
    (s.agents[a].info.parent.Some? && AgentUnder(s, ancestor, s.agents[a].info.parent.value))
  }

  predicate Expired(run: Run, now: nat) {
    (run.status.Running? || run.status.Waiting?) && run.expiry.Some? && run.expiry.value <= now
  }

  /** The authority check in front of every run mutation. */
  predicate Accepts(run: Run, claim: Claim, now: nat) {
    if run.owner.None? then claim == Claim(None, None)
    else claim == Claim(run.owner, Some(run.epoch)) && !Expired(run, now)
  }

  ghost predicate HasActiveRun(s: Tree, a: AgentId) {
    exists r :: r in s.runs && s.runs[r].info.agent == a && s.runs[r].status.Active()
  }

  /** The agents taking part in a root run. */
  ghost function Participants(s: Tree, root: RunId): set<AgentId> {
    set r | r in s.runs && s.runs[r].info.root == root :: s.runs[r].info.agent
  }

  /** The running runs under a root whose lease, if any, is unexpired. */
  ghost function Live(s: Tree, root: RunId, now: nat): set<RunId> {
    set r | r in s.runs && s.runs[r].info.root == root && s.runs[r].status.Running?
            && !Expired(s.runs[r], now)
  }

  ghost function RunningUnder(s: Tree, root: RunId): set<RunId> {
    set r | r in s.runs && s.runs[r].info.root == root && s.runs[r].status.Running?
  }

  ghost function RootAgent(s: Tree, r: RunId): Agent
    requires RunShape(s) && r in s.runs
  {
    assert RunLinked(s, r);
    s.agents[s.runs[s.runs[r].info.root].info.agent]
  }

  function PutRun(s: Tree, run: Run): Tree {
    s.(runs := s.runs[run.info.id := run])
  }

  function AddRun(s: Tree, agent: Agent, run: Run): Tree {
    s.(agents := s.agents[agent.info.id := agent], runs := s.runs[run.info.id := run],
       sequence := s.sequence + 1)
  }

  function NewRun(info: RunInfo, status: Status): Run {
    Run(info, status, None, None, None, 0, None)
  }

  // ----- beginRoot ----------------------------------------------------------

  ghost function BeginRoot(s: Tree, cmd: RootCommand): Outcome<(Tree, Run), Fault> {
    if cmd.runId in s.runs then
      if cmd.runId in s.roots && s.roots[cmd.runId] == cmd then Ok((s, s.runs[cmd.runId]))
      else Fail(IdempotencyConflict)
    else if cmd.agentId in s.agents then
      var agent := s.agents[cmd.agentId];
      if agent.info.parent.Some? || agent.closed || agent.info.grant != cmd.grant then Fail(ScopeViolation)
      else if HasActiveRun(s, cmd.agentId) then Fail(AgentBusy)
      else Ok(RootAdded(s, cmd, agent))
    else
      Ok(RootAdded(s, cmd, NewRootAgent(cmd)))
  }

  function NewRootAgent(cmd: RootCommand): Agent {
    Agent(AgentInfo(cmd.agentId, cmd.agentId, None, 0, cmd.runId, cmd.key, cmd.profile, cmd.grant),
          0, None, None, false)
  }

  function RootAdded(s: Tree, cmd: RootCommand, agent: Agent): (Tree, Run) {
    var run := NewRun(
      RunInfo(cmd.runId, cmd.agentId, cmd.runId, None, agent.latestRun, None, [],
              Work(cmd.objective, "{}", true, 0), s.sequence + 1),
      Running);
    (AddRun(s, agent.(latestRun := Some(cmd.runId)), run).(roots := s.roots[cmd.runId := cmd]), run)
  }

  // ----- spawnAgents --------------------------------------------------------

  function Names(children: seq<ChildSpec>): seq<string> {
    seq(|children|, i requires 0 <= i < |children| => children[i].profile.name)
  }

  function NamedDependencies(children: seq<ChildSpec>): seq<seq<string>> {
    seq(|children|, i requires 0 <= i < |children| => children[i].dependsOn)
  }

  /** Everything a spawn reads before it starts writing. */
  datatype Spawning = Spawning(parent: Run, creator: Agent, key: string, children: seq<ChildSpec>,
                               agentBase: nat, runBase: nat, seqBase: nat, batch: nat)

  /** The run ids of the siblings a child named as dependencies. */
  function DependencyIds(names: seq<string>, runBase: nat, dependsOn: seq<string>): seq<RunId> {
    seq(|dependsOn|, i requires 0 <= i < |dependsOn| =>
      GeneratedRun(runBase + DependencyGraph.IndexOf(names, dependsOn[i]) + 1))
  }

  function ChildAgent(c: Spawning, i: nat): Agent
    requires i < |c.children|
  {
    Agent(
      AgentInfo(GeneratedAgent(c.agentBase + i + 1), c.creator.info.root, Some(c.creator.info.id),
                c.creator.info.depth + 1, c.parent.info.id, c.key, c.children[i].profile,
                ChildGrant(c.creator.info.grant, c.children[i].grant)),
      0, None, Some(GeneratedRun(c.runBase + i + 1)), false)
  }

  function ChildRun(c: Spawning, i: nat): Run
    requires i < |c.children|
  {
    NewRun(
      RunInfo(GeneratedRun(c.runBase + i + 1), GeneratedAgent(c.agentBase + i + 1), c.parent.info.root,
              Some(c.parent.info.id), None, Some(c.batch),
              DependencyIds(Names(c.children), c.runBase, c.children[i].dependsOn),
              c.children[i].work, c.seqBase + i + 1),
      Queued)
  }

  function AddChild(s: Tree, c: Spawning, i: nat): Tree
    requires i < |c.children|
  {
    AddRun(s, ChildAgent(c, i), ChildRun(c, i)).(agentSeq := s.agentSeq + 1, runSeq := s.runSeq + 1)
  }

  /** The tree after the first `k` children were written. */
  function ChildrenAdded(s: Tree, c: Spawning, k: nat): Tree
    requires k <= |c.children|
    decreases k
  {
    if k == 0 then s else AddChild(ChildrenAdded(s, c, k - 1), c, k - 1)
  }

  ghost predicate ChildrenWellFormed(children: seq<ChildSpec>) {
    && Distinct(Names(children))
    && DependencyGraph.WellFormed(Names(children), NamedDependencies(children))
  }

  /** The authority and capacity checks of a spawn, in order. */
  ghost function SpawnFault(s: Tree, root: RunId, creator: Agent, children: seq<ChildSpec>): Option<Fault> {
    var grant := creator.info.grant;
    if creator.closed then Some(AgentClosed)
    else if !grant.canSpawn then Some(CapabilityEscalation)
    else if creator.info.depth >= grant.maxDepth then Some(DepthExceeded)
    else if |children| > grant.maxChildrenPerCall then Some(CapacityExceeded)
    else if |Participants(s, root)| + |children| > grant.maxAgentsPerRoot then Some(CapacityExceeded)
    else if exists i :: 0 <= i < |children| && !Within(ChildGrant(grant, children[i].grant), grant)
    then Some(CapabilityEscalation)
    else None
  }

  ghost function SpawnAgents(s: Tree, now: nat, parentId: RunId, key: string, children: seq<ChildSpec>, claim: Claim)
    : Outcome<(Tree, SpawnReceipt), Fault>
    requires Shape(s)
  {
    if children == [] then Fail(CapacityExceeded)
    else if !ChildrenWellFormed(children) then Fail(InvalidArgument)
    else if (parentId, key) in s.spawns then
      if s.spawns[(parentId, key)].children == children then Ok((s, s.spawns[(parentId, key)]))
      else Fail(IdempotencyConflict)
    else if parentId !in s.runs then Fail(RunNotFound)
    else
      var parent := s.runs[parentId];
      assert RunLinked(s, parentId);
      if !parent.status.Running? && !parent.status.Waiting? then Fail(RunNotActive)
      else if !Accepts(parent, claim, now) then Fail(LeaseLost)
      else
        var creator := s.agents[parent.info.agent];
        var fault := SpawnFault(s, parent.info.root, creator, children);
        if fault.Some? then Fail(fault.value)
        else
          var c := Spawning(parent, creator, key, children, s.agentSeq, s.runSeq, s.sequence, s.batchSeq + 1);
          var receipt := SpawnReceipt(children, c.batch, SpawnItems(c, |children|));
          Ok((Spawned(s, c, receipt), receipt))
  }

  function SpawnItems(c: Spawning, k: nat): (items: seq<(Agent, Run)>)
    requires k <= |c.children|
    ensures |items| == k
  {
    if k == 0 then [] else SpawnItems(c, k - 1) + [(ChildAgent(c, k - 1), ChildRun(c, k - 1))]
  }

  function Spawned(s: Tree, c: Spawning, receipt: SpawnReceipt): Tree {
    ChildrenAdded(s, c, |c.children|).(
      batchSeq := c.batch, spawns := s.spawns[(c.parent.info.id, c.key) := receipt])
  }

  // ----- continueAgent ------------------------------------------------------

  /** The scope, version and capacity checks of a continuation, in order. */
  ghost function ContinuationFault(s: Tree, requester: Run, asking: Agent, target: Agent, expectedVersion: nat): Option<Fault>
    requires AgentShape(s) && target.info.id in s.agents && asking.info.root in s.agents
  {
    var root, joined := s.agents[asking.info.root], Participants(s, requester.info.root);
    if target.closed || asking.closed then Some(AgentClosed)
    else if asking.info.root != target.info.root || !AgentUnder(s, asking.info.id, target.info.id)
    then Some(ScopeViolation)
    else if target.contextVersion != expectedVersion then Some(ContextConflict)
    else if HasActiveRun(s, target.info.id) then Some(AgentBusy)
    else if root.closed then Some(AgentClosed)
    else if target.info.id !in joined && |joined| >= root.info.grant.maxAgentsPerRoot then Some(CapacityExceeded)
    else None
  }

  ghost function ContinueAgent(s: Tree, now: nat, requesterId: RunId, key: string, q: Continuation, claim: Claim)
    : Outcome<(Tree, ContinueReceipt), Fault>
    requires Shape(s)
  {
    if (requesterId, key) in s.continues then
      if s.continues[(requesterId, key)].request == q then Ok((s, s.continues[(requesterId, key)]))
      else Fail(IdempotencyConflict)
    else if requesterId !in s.runs then Fail(RunNotFound)
    else
      var requester := s.runs[requesterId];
      if !requester.status.Running? && !requester.status.Waiting? then Fail(RunNotActive)
      else if !Accepts(requester, claim, now) then Fail(LeaseLost)
      else if q.agentId !in s.agents then Fail(AgentNotFound)
      else
        assert RunLinked(s, requesterId);
        var target, asking := s.agents[q.agentId], s.agents[requester.info.agent];
        assert AgentLinked(s, q.agentId) && AgentLinked(s, requester.info.agent);
        var fault := ContinuationFault(s, requester, asking, target, q.expectedVersion);
        if fault.Some? then Fail(fault.value) else Ok(Continued(s, requester, target, key, q))
  }

  function Continued(s: Tree, requester: Run, target: Agent, key: string, q: Continuation): (Tree, ContinueReceipt) {
    var run := NewRun(
      RunInfo(GeneratedRun(s.runSeq + 1), target.info.id, requester.info.root, Some(requester.info.id),
              target.latestRun, None, [], Work(q.message, "{}", q.required, q.priority), s.sequence + 1),
      Queued);
    var agent := target.(latestRun := Some(run.info.id));
    var receipt := ContinueReceipt(q, agent, run);
    (AddRun(s, agent, run).(runSeq := s.runSeq + 1,
                            continues := s.continues[(requester.info.id, key) := receipt]), receipt)
  }

  // ----- leases -------------------------------------------------------------

  predicate Reclaimable(run: Run, now: nat) {
    || (run.status.Running? && Expired(run, now))
    || (run.status.Waiting? && run.owner.None? && run.epoch > 0)
  }

  ghost function ClaimRun(s: Tree, now: nat, id: RunId, owner: string, duration: pos)
    : Outcome<(Tree, Option<Run>), Fault>
    requires Shape(s)
  {
    if id !in s.runs then Fail(RunNotFound)
    else
      var run := s.runs[id];
      assert RunLinked(s, id);
      if !run.status.Queued? && !Reclaimable(run, now) then Ok((s, None))
      else if exists d :: d in run.info.dependencies && s.runs[d].status.Active() then Ok((s, None))
      else if RootAgent(s, id).closed then Fail(AgentClosed)
      else if |Live(s, run.info.root, now)| >= RootAgent(s, id).info.grant.maxParallelRuns then Ok((s, None))
      else
        var claimed := run.(status := Running, owner := Some(owner), epoch := run.epoch + 1,
                            expiry := Some(now + duration));
        Ok((PutRun(s, claimed), Some(claimed)))
  }

  function SuspendRun(s: Tree, now: nat, id: RunId, claim: Claim): Outcome<(Tree, Run), Fault> {
    if id !in s.runs then Fail(RunNotFound)
    else
      var run := s.runs[id];
      if !run.status.Running? && !run.status.Waiting? then Fail(RunNotActive)
      else if !Accepts(run, claim, now) then Fail(LeaseLost)
      else
        var suspended := run.(status := Waiting, owner := None, expiry := None);
        Ok((PutRun(s, suspended), suspended))
  }

  /** The clock is read once for the check and again, `later`, for the new expiry. */
  function RenewRunLease(s: Tree, now: nat, later: nat, id: RunId, owner: string, epoch: nat, duration: pos)
    : Outcome<(Tree, Run), Fault>
  {
    if id !in s.runs then Fail(RunNotFound)
    else
      var run := s.runs[id];
      if !run.status.Running? && !run.status.Waiting? then Fail(RunNotActive)
      else if !Accepts(run, Claim(Some(owner), Some(epoch)), now) then Fail(LeaseLost)
      else
        var renewed := run.(expiry := Some(later + duration));
        Ok((PutRun(s, renewed), renewed))
  }

  function MarkWaiting(s: Tree, now: nat, id: RunId, claim: Claim): Outcome<(Tree, Run), Fault> {
    if id !in s.runs then Fail(RunNotFound)
    else
      var run := s.runs[id];
      if !run.status.Running? then Fail(StateConflict)
      else if !Accepts(run, claim, now) then Fail(LeaseLost)
      else Ok((PutRun(s, run.(status := Waiting)), run.(status := Waiting)))
  }

  ghost function ReleaseWaiting(s: Tree, now: nat, id: RunId, claim: Claim): Outcome<(Tree, Run), Fault>
    requires Shape(s)
  {
    if id !in s.runs then Fail(RunNotFound)
    else
      var run := s.runs[id];
      if !run.status.Waiting? then Fail(StateConflict)
      else if !Accepts(run, claim, now) then Fail(LeaseLost)
      else if RootAgent(s, id).closed then Fail(AgentClosed)
      else if |RunningUnder(s, run.info.root)| >= RootAgent(s, id).info.grant.maxParallelRuns
      then Fail(CapacityExceeded)
      else Ok((PutRun(s, run.(status := Running)), run.(status := Running)))
  }

  // ----- settlement ---------------------------------------------------------

  /** A settled run keeps its epoch but gives up its lease. */
  function Settle(run: Run, status: Status, result: Option<string>, errorCode: Option<string>): Run {
    run.(status := status, result := result, errorCode := errorCode, owner := None, expiry := None)
  }

  ghost function CompleteRun(s: Tree, now: nat, id: RunId, claim: Claim, expectedVersion: nat,
                             result: string, contentRef: string, fingerprint: string)
    : Outcome<(Tree, Run), Fault>
    requires Shape(s)
  {
    if id !in s.runs then Fail(RunNotFound)
    else
      var run := s.runs[id];
      if !run.status.Running? then Fail(StateConflict)
      else if !Accepts(run, claim, now) then Fail(LeaseLost)
      else if exists r :: r in s.runs && s.runs[r].info.root == run.info.root
                          && s.runs[r].status.Active() && Descends(s, id, r)
      then Fail(NotQuiescent)
      else
        assert RunLinked(s, id);
        var agent := s.agents[run.info.agent];
        if agent.closed then Fail(AgentClosed)
        else if agent.contextVersion != expectedVersion then Fail(ContextConflict)
        else
          var done := Settle(run, Done, Some(result), run.errorCode);
          Ok((Completed(s, agent, done, contentRef, fingerprint), done))
  }

  function Completed(s: Tree, agent: Agent, done: Run, contentRef: string, fingerprint: string): Tree {
    var n := s.checkpointSeq + 1;
    s.(checkpointSeq := n,
       checkpoints := s.checkpoints[n := Checkpoint(agent.info.id, agent.contextVersion + 1, agent.checkpoint,
                                                    done.info.id, contentRef, fingerprint)],
       runs := s.runs[done.info.id := done],
       agents := s.agents[agent.info.id := agent.(contextVersion := agent.contextVersion + 1, checkpoint := Some(n))])
  }

  function CancelIfActive(run: Run, code: string): Run {
    if run.status.Active() then Settle(run, Canceled, run.result, Some(code)) else run
  }

  /** Every active run of `ids` becomes canceled with `code`. */
  ghost function CancelAll(s: Tree, ids: set<RunId>, code: string): Tree {
    s.(runs := map r | r in s.runs :: if r in ids then CancelIfActive(s.runs[r], code) else s.runs[r])
  }

  ghost function Below(s: Tree, id: RunId): set<RunId>
    requires RunShape(s)
  {
    set r | r in s.runs && Descends(s, id, r)
  }

  ghost function FailRun(s: Tree, now: nat, id: RunId, code: string, claim: Claim): Outcome<(Tree, Run), Fault>
    requires Shape(s)
  {
    if id !in s.runs then Fail(RunNotFound)
    else
      var run := s.runs[id];
      if !run.status.Active() then Ok((s, run))
      else if !Accepts(run, claim, now) then Fail(LeaseLost)
      else
        var failed := Settle(run, Failed, run.result, Some(code));
        Ok((PutRun(CancelAll(s, Below(s, id), "ancestor_run_failed"), failed), failed))
  }

  ghost function CancelSubtree(s: Tree, id: RunId): Outcome<(Tree, set<RunId>), Fault>
    requires Shape(s)
  {
    if id !in s.runs then Fail(RunNotFound)
    else
      var subtree := Below(s, id) + {id};
      Ok((CancelAll(s, subtree, "agent_run_canceled"), set r | r in subtree && s.runs[r].status.Active()))
  }

  ghost function CloseAgent(s: Tree, id: AgentId): Outcome<(Tree, Agent), Fault> {
    if id !in s.agents then Fail(AgentNotFound)
    else if s.agents[id].closed then Fail(AgentClosed)
    else if HasActiveRun(s, id) then Fail(AgentBusy)
    else
      var closed := s.agents[id].(closed := true);
      Ok((s.(agents := s.agents[id := closed]), closed))
  }

  // ----- whole runs ---------------------------------------------------------

  datatype Command =
    | DoBeginRoot(root: RootCommand)
    | DoSpawn(parent: RunId, spawnKey: string, children: seq<ChildSpec>, claim: Claim)
    | DoContinue(requester: RunId, continueKey: string, request: Continuation, claim: Claim)
    | DoClaim(run: RunId, owner: string, duration: pos)
    | DoSuspend(run: RunId, claim: Claim)
    | DoRenew(run: RunId, later: nat, owner: string, epoch: nat, duration: pos)
    | DoMarkWaiting(run: RunId, claim: Claim)
    | DoReleaseWaiting(run: RunId, claim: Claim)
    | DoComplete(run: RunId, claim: Claim, version: nat, result: string, contentRef: string, fingerprint: string)
    | DoFail(run: RunId, code: string, claim: Claim)
    | DoCancel(run: RunId)
    | DoClose(agent: AgentId)

  /** The tree a call leaves behind; a call that raises leaves it as it was. */
  ghost function After<T>(s: Tree, r: Outcome<(Tree, T), Fault>): Tree {
    match r case Ok(v) => v.0 case Fail(_) => s
  }

  ghost function Step(s: Tree, now: nat, cmd: Command): Tree
    requires Shape(s)
  {
    match cmd
    case DoBeginRoot(root) => After(s, BeginRoot(s, root))
    case DoSpawn(p, key, children, claim) => After(s, SpawnAgents(s, now, p, key, children, claim))
    case DoContinue(q, key, request, claim) => After(s, ContinueAgent(s, now, q, key, request, claim))
    case DoClaim(r, owner, duration) => After(s, ClaimRun(s, now, r, owner, duration))
    case DoSuspend(r, claim) => After(s, SuspendRun(s, now, r, claim))
    case DoRenew(r, later, owner, epoch, duration) => After(s, RenewRunLease(s, now, later, r, owner, epoch, duration))
    case DoMarkWaiting(r, claim) => After(s, MarkWaiting(s, now, r, claim))
    case DoReleaseWaiting(r, claim) => After(s, ReleaseWaiting(s, now, r, claim))
    case DoComplete(r, claim, v, result, ref, fp) => After(s, CompleteRun(s, now, r, claim, v, result, ref, fp))
    case DoFail(r, code, claim) => After(s, FailRun(s, now, r, code, claim))
    case DoCancel(r) => After(s, CancelSubtree(s, r))
    case DoClose(a) => After(s, CloseAgent(s, a))
  }
}
