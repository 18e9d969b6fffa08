/** Host-chosen ids of a root that collide with ids the repository will generate itself. */
module AgentTreeCollisions {
  import opened Prelude
  import opened AgentTree
  import opened AgentTreeInvariant
  import opened AgentTreeSteps
  import opened AgentTreeRuns
  import DependencyGraph
  import Decimal

  /** The run and the agent of a root are in the tree, with the fixed parts they were created with. */
  ghost predicate RootStands(s: Tree, t: Tree, cmd: RootCommand)
    requires cmd.runId in s.runs && cmd.agentId in s.agents
  {
    && cmd.runId in t.runs && t.runs[cmd.runId].info == s.runs[cmd.runId].info
    && cmd.agentId in t.agents && t.agents[cmd.agentId].info == s.agents[cmd.agentId].info
  }

  /** Nothing that may follow changes what the root's run and agent are. */
  ghost predicate RootStandsForEver(s: Tree, now: nat, cmd: RootCommand)
    requires cmd.runId in s.runs && cmd.agentId in s.agents
  {
    forall states: seq<Tree>, events: seq<Event> :: GoesOn(s, now, states, events) ==> RootStands(s, states[|events|], cmd)
  }

  // ----- free ids stand -----------------------------------------------------

  lemma {:induction false} SoundRootStands(
      s: Tree, now: nat, states: seq<Tree>, events: seq<Event>, i: nat, t: nat, cmd: RootCommand)
    requires Sound(s, now) && GoesOn(s, now, states, events) && i <= |events| && ClockAt(events, i, t) && now <= t
    requires cmd.runId in s.runs && cmd.agentId in s.agents
    ensures RootStands(s, states[i], cmd)
    decreases i
  {
    hide Sound, Step, Admissible;
    if i > 0 {
      assert Follows(states, events, i - 1);
      var (from, at) := (states[i - 1], events[i - 1].now);
      ContinuationsStaySound(s, now, states, events, i, t);
      if i > 1 { assert Follows(states, events, i - 2); }
      SoundRootStands(s, now, states, events, i - 1, at, cmd);
      SoundIsShaped(from, at);
      StepEvolves(from, at, events[i - 1].cmd);
      assert AgentEvolves(from, states[i], cmd.agentId);
    }
  }

  // ----- colliding ids do not -----------------------------------------------

  lemma RootRunsLinked(s: Tree, cmd: RootCommand, agent: Agent)
    requires RunShape(s) && DependenciesKnown(s) && cmd.runId !in s.runs && agent.info.id == cmd.agentId && agent.info.parent.None?
    ensures var t := RootAdded(s, cmd, agent).0; RunShape(t) && DependenciesKnown(t)
  {
    var t := RootAdded(s, cmd, agent).0;
    forall r | r in t.runs ensures RunLinked(t, r) {
      if r in s.runs { assert RunLinked(s, r); }
    }
  }

  lemma RootAgentsLinked(s: Tree, cmd: RootCommand, agent: Agent)
    requires AgentShape(s) && agent.info.id == cmd.agentId == agent.info.root && agent.info.parent.None? && agent.info.depth == 0
    requires cmd.agentId in s.agents ==> agent == s.agents[cmd.agentId]
    ensures AgentShape(RootAdded(s, cmd, agent).0)
  {
    var t := RootAdded(s, cmd, agent).0;
    forall a | a in t.agents ensures AgentLinked(t, a) {
      if a in s.agents { assert AgentLinked(s, a); }
    }
  }

  lemma RootKeepsShape(s: Tree, cmd: RootCommand)
    requires Shape(s) && cmd.runId !in s.runs && BeginRoot(s, cmd).Ok?
    ensures var t := BeginRoot(s, cmd).value.0;
      && Shape(t) && cmd.runId in t.runs && cmd.agentId in t.agents
      && t.runs[cmd.runId].info.parent.None? && t.agents[cmd.agentId].info.parent.None?
      && t.runSeq == s.runSeq && t.agentSeq == s.agentSeq
  {
    var agent := if cmd.agentId in s.agents then s.agents[cmd.agentId] else NewRootAgent(cmd);
    if cmd.agentId in s.agents { assert AgentLinked(s, cmd.agentId); }
    hide RunShape, AgentShape, DependenciesKnown, HasActiveRun;
    RootRunsLinked(s, cmd, agent);
    RootAgentsLinked(s, cmd, agent);
  }

  ghost function TextsInUse(s: Tree): set<string> {
    (set r | r in s.runs && r.HostRun? :: r.text) + (set a | a in s.agents && a.HostAgent? :: a.text)
    + (set k | k in s.spawns && k.0.HostRun? :: k.0.text)
  }

  const KEY := "k"

  /** A root command whose ids nobody uses yet, with room for `m` children. */
  ghost predicate Helper(s: Tree, cmd: RootCommand, m: pos) {
    && cmd.runId !in s.runs && cmd.agentId !in s.agents && (cmd.runId, KEY) !in s.spawns
    && cmd.grant.canSpawn && cmd.grant.maxChildrenPerCall >= m && cmd.grant.maxAgentsPerRoot > m
  }

  lemma HelperExists(s: Tree, m: pos) returns (cmd: RootCommand)
    ensures Helper(s, cmd, m) && HostIdsFree(s, cmd)
  {
    forall i: nat, j: nat | Decimal.Digits(i) == Decimal.Digits(j) ensures i == j { Decimal.DigitsInjective(i, j); }
    var text := Decimal.Digits(Decimal.Search(Decimal.Digits, TextsInUse(s), 0));
    var grant := Grant(true, 1, m, m + 1, 1, [], []);
    cmd := RootCommand(HostRun(text), HostAgent(text), Profile("", "", ""), "", grant, "");
    assert (cmd.runId, KEY) in s.spawns ==> text in TextsInUse(s);
    assert cmd.runId in s.runs ==> text in TextsInUse(s);
    assert cmd.agentId in s.agents ==> text in TextsInUse(s);
  }

  function Child(i: nat): ChildSpec {
    ChildSpec(Profile(Decimal.Digits(i), "", ""), [], Work("", "", true, 0), None)
  }

  /** Children with different names that wait for nothing. */
  function Brood(m: nat): (children: seq<ChildSpec>)
    ensures |children| == m
  {
    seq(m, i requires 0 <= i < m => Child(i))
  }

  lemma BroodIsWellFormed(m: nat)
    ensures ChildrenWellFormed(Brood(m))
  {
    var names := Names(Brood(m));
    forall i, j | 0 <= i < j < m ensures names[i] != names[j] {
      if names[i] == names[j] { Decimal.DigitsInjective(i, j); }
    }
    var rank: map<string, nat> := map name | name in names :: 0;
    assert DependencyGraph.Ranks(names, NamedDependencies(Brood(m)), rank);
  }

  lemma HelperIsAlone(s: Tree, cmd: RootCommand, m: pos)
    requires Shape(s) && Helper(s, cmd, m)
    ensures BeginRoot(s, cmd) == Ok(RootAdded(s, cmd, NewRootAgent(cmd)))
    ensures var t := RootAdded(s, cmd, NewRootAgent(cmd)).0; Shape(t) && Participants(t, cmd.runId) == {cmd.agentId}
  {
    RootKeepsShape(s, cmd);
    var (t, run) := RootAdded(s, cmd, NewRootAgent(cmd));
    ParticipantsAfterJoining(s, t, run, cmd.runId);
    forall q | q in s.runs ensures s.runs[q].info.root != cmd.runId { assert RunLinked(s, q); }
    assert Participants(s, cmd.runId) == {};
  }

  function BroodSpawning(t: Tree, cmd: RootCommand, m: nat): Spawning
    requires cmd.runId in t.runs && cmd.agentId in t.agents
  {
    Spawning(t.runs[cmd.runId], t.agents[cmd.agentId], KEY, Brood(m), t.agentSeq, t.runSeq, t.sequence, t.batchSeq + 1)
  }

  lemma BroodIsAllowed(s: Tree, t: Tree, cmd: RootCommand, m: pos)
    requires Helper(s, cmd, m) && t == RootAdded(s, cmd, NewRootAgent(cmd)).0 && Participants(t, cmd.runId) == {cmd.agentId}
    ensures cmd.runId in t.runs && cmd.agentId in t.agents
    ensures SpawnFault(t, cmd.runId, t.agents[cmd.agentId], Brood(m)).None?
  {
    var children := Brood(m);
    assert forall i :: 0 <= i < m ==> Within(ChildGrant(cmd.grant, children[i].grant), cmd.grant);
  }

  lemma BroodIsSpawned(s: Tree, t: Tree, now: nat, cmd: RootCommand, m: pos)
    requires Shape(t) && Helper(s, cmd, m) && t == RootAdded(s, cmd, NewRootAgent(cmd)).0
    requires Participants(t, cmd.runId) == {cmd.agentId}
    ensures cmd.runId in t.runs && cmd.agentId in t.agents
    ensures var r := SpawnAgents(t, now, cmd.runId, KEY, Brood(m), Claim(None, None));
      r.Ok? && r.value.0 == Spawned(t, BroodSpawning(t, cmd, m), r.value.1)
  {
    hide RunShape, AgentShape, DependenciesKnown, ChildrenWellFormed, SpawnFault, ChildrenAdded, Participants, SpawnItems;
    BroodIsWellFormed(m);
    BroodIsAllowed(s, t, cmd, m);
  }

  lemma LastChildIsThere(t: Tree, c: Spawning, receipt: SpawnReceipt)
    requires c.children != []
    ensures var (u, m) := (Spawned(t, c, receipt), |c.children|);
      && var (run, agent) := (GeneratedRun(c.runBase + m), GeneratedAgent(c.agentBase + m));
         && run in u.runs && u.runs[run].info.parent == Some(c.parent.info.id)
         && agent in u.agents && u.agents[agent].info.parent == Some(c.creator.info.id)
  {
    var m := |c.children|;
    assert ChildrenAdded(t, c, m) == AddChild(ChildrenAdded(t, c, m - 1), c, m - 1);
  }

  /** Two commands lead from any tree to one that has the `m`-th generated run and agent, whoever had those ids before. */
  lemma SomeoneTakesTheNumbers(s: Tree, now: nat, m: pos) returns (states: seq<Tree>, events: seq<Event>)
    requires Shape(s)
    ensures GoesOn(s, now, states, events)
    ensures var (t, run, agent) := (states[|events|], GeneratedRun(s.runSeq + m), GeneratedAgent(s.agentSeq + m));
      && run in t.runs && t.runs[run].info.parent.Some? && agent in t.agents && t.agents[agent].info.parent.Some?
  {
    hide Shape, SpawnAgents, BeginRoot, RootAdded, Brood;
    var cmd := HelperExists(s, m);
    HelperIsAlone(s, cmd, m);
    var t := RootAdded(s, cmd, NewRootAgent(cmd)).0;
    BroodIsSpawned(s, t, now, cmd, m);
    var r := SpawnAgents(t, now, cmd.runId, KEY, Brood(m), Claim(None, None));
    LastChildIsThere(t, BroodSpawning(t, cmd, m), r.value.1);
    RootKeepsShape(s, cmd);
    events := [Event(now, DoBeginRoot(cmd)), Event(now, DoSpawn(cmd.runId, KEY, Brood(m), Claim(None, None)))];
    states := [s, t, Step(t, now, events[1].cmd)];
    assert Follows(states, events, 0) && Follows(states, events, 1);
  }

  /**
   A fresh root keeps its run and its agent through everything that may follow if and only if neither id is among the
   generated ids still to come; that is also exactly when it keeps the invariant.
   */
  lemma RootStandsExactlyWithoutCollision(s: Tree, now: nat, cmd: RootCommand)
    requires Sound(s, now) && cmd.runId !in s.runs && BeginRoot(s, cmd).Ok?
    ensures var t := BeginRoot(s, cmd).value.0;
      && cmd.runId in t.runs && cmd.agentId in t.agents
      && (RootStandsForEver(t, now, cmd) <==> HostIdsFree(s, cmd))
      && (Sound(t, now) <==> HostIdsFree(s, cmd))
  {
    SoundIsShaped(s, now);
    RootKeepsShape(s, cmd);
    var t := BeginRoot(s, cmd).value.0;
    if HostIdsFree(s, cmd) {
      BeginRootIsSound(s, now, cmd);
      FreeRootStands(t, now, cmd);
    } else {
      CollidingRootFalls(s, now, cmd);
    }
  }

  lemma FreeRootStands(t: Tree, now: nat, cmd: RootCommand)
    requires Sound(t, now) && cmd.runId in t.runs && cmd.agentId in t.agents
    ensures RootStandsForEver(t, now, cmd)
  {
    hide Sound, RootStands;
    forall states: seq<Tree>, events: seq<Event> | GoesOn(t, now, states, events) ensures RootStands(t, states[|events|], cmd) {
      var n := |events|;
      if n > 0 {
        assert Follows(states, events, n - 1);
        ClockIsLater(t, now, states, events, n - 1);
      }
      SoundRootStands(t, now, states, events, n, if n > 0 then events[n - 1].now else now, cmd);
    }
  }

  lemma CollidingRootFalls(s: Tree, now: nat, cmd: RootCommand)
    requires Sound(s, now) && cmd.runId !in s.runs && BeginRoot(s, cmd).Ok? && !HostIdsFree(s, cmd)
    ensures var t := BeginRoot(s, cmd).value.0;
      && cmd.runId in t.runs && cmd.agentId in t.agents && !RootStandsForEver(t, now, cmd) && !Sound(t, now)
  {
    hide RunShape, AgentShape, DependenciesKnown, BeginRoot, Sound;
    SoundIsShaped(s, now);
    RootKeepsShape(s, cmd);
    var t := BeginRoot(s, cmd).value.0;
    var m := if cmd.runId.GeneratedRun? && cmd.runId.n > s.runSeq then cmd.runId.n - s.runSeq else cmd.agentId.n - s.agentSeq;
    var states, events := SomeoneTakesTheNumbers(t, now, m);
    assert !RootStands(t, states[|events|], cmd);
    if Sound(t, now) { FreeRootStands(t, now, cmd); }
  }

  /** A root that took the `m`-th run id to come becomes its own parent when it spawns `m` children. */
  lemma CollidingRootBecomesItsOwnParent(s: Tree, now: nat, cmd: RootCommand, m: pos)
    requires Shape(s) && Helper(s, cmd, m) && cmd.runId == GeneratedRun(s.runSeq + m)
    ensures BeginRoot(s, cmd).Ok?
    ensures var t := BeginRoot(s, cmd).value.0;
      && Shape(t)
      && var r := SpawnAgents(t, now, cmd.runId, KEY, Brood(m), Claim(None, None));
         r.Ok? && cmd.runId in r.value.0.runs && r.value.0.runs[cmd.runId].info.parent == Some(cmd.runId)
  {
    hide Shape, SpawnAgents, BeginRoot, RootAdded, Brood;
    HelperIsAlone(s, cmd, m);
    RootKeepsShape(s, cmd);
    var t := RootAdded(s, cmd, NewRootAgent(cmd)).0;
    BroodIsSpawned(s, t, now, cmd, m);
    var r := SpawnAgents(t, now, cmd.runId, KEY, Brood(m), Claim(None, None));
    LastChildIsThere(t, BroodSpawning(t, cmd, m), r.value.1);
    HelperRuns(s, cmd);
  }

  lemma HelperRuns(s: Tree, cmd: RootCommand)
    ensures var t := RootAdded(s, cmd, NewRootAgent(cmd)).0;
      && cmd.runId in t.runs && t.runs[cmd.runId].info.id == cmd.runId
      && cmd.agentId in t.agents && t.agents[cmd.agentId].info.id == cmd.agentId
  {
  }
}
