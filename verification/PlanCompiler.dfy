/**
 Lowering of a planner's work plan to an executable plan (src/purra/plan_compiler.py):
 public capabilities become sequences of runtime tools, and missing prerequisites are inserted.
 */
module PlanCompiler {
  import opened Prelude
  import opened Plan
  import Decimal

  datatype Capability = Capability(name: string, schema: string)

  datatype Mode = ReadMode | ProposeMode | ConfirmMode

  datatype Registration = Registration(
    name: string, prerequisites: seq<string>, capability: Option<Capability>, title: string, mode: Mode, risk: Risk)

  datatype WorkPlan = WorkPlan(title: string, goal: Option<string>, steps: seq<WorkStep>)

  datatype Constraints = Constraints(
    contextSatisfied: set<string>, executionSatisfied: set<string>, excluded: set<string>,
    waived: set<(string, string)>)

  datatype Fault =
    | PrerequisiteCycle(trail: seq<string>) | UnavailableTool | ExcludedPrerequisite | NotOneTool | DisabledTool
    | PrivateTool | UnavailableCapability | RedundantCapability | CapabilityCollision | ConflictingCapability
    | CapabilityCycle

  // ----- inputs -------------------------------------------------------------

  /** Registrations by name; a later one replaces an earlier one of the same name. */
  function ByName(regs: seq<Registration>): (m: map<string, Registration>)
    ensures forall name :: name in m ==> m[name].name == name && m[name] in regs
    ensures forall r :: r in regs ==> r.name in m
  {
    if regs == [] then map[]
    else
      var last := regs[|regs| - 1];
      assert regs == regs[..|regs| - 1] + [last];
      ByName(regs[..|regs| - 1])[last.name := last]
  }

  function WorkIds(steps: seq<WorkStep>): seq<string> {
    seq(|steps|, i requires 0 <= i < |steps| => steps[i].id)
  }

  /** What the constructor of a work plan checks: unique ids, and dependencies on earlier steps only. */
  ghost predicate ValidWorkPlan(plan: WorkPlan) {
    && plan.steps != [] && Distinct(WorkIds(plan.steps))
    && forall k, d :: 0 <= k < |plan.steps| && d in plan.steps[k].dependsOn ==> d in WorkIds(plan.steps[..k])
  }

  // ----- planning capabilities ----------------------------------------------

  predicate Groups(reg: Registration, enabled: set<string>) {
    reg.name in enabled && reg.capability.Some?
  }

  /** The enabled members of a capability, in registration order. */
  function Members(regs: seq<Registration>, enabled: set<string>, name: string): (m: seq<Registration>)
    ensures forall r :: r in m <==> r in regs && Groups(r, enabled) && r.capability.value.name == name
  {
    if regs == [] then []
    else
      var last := regs[|regs| - 1];
      assert regs == regs[..|regs| - 1] + [last];
      var rest := Members(regs[..|regs| - 1], enabled, name);
      if Groups(last, enabled) && last.capability.value.name == name then rest + [last] else rest
  }

  ghost predicate NamesRuntimeTool(regs: seq<Registration>, enabled: set<string>, name: string) {
    exists h :: h in regs && h.name in enabled && h.name == name
  }

  /** No capability is named like an enabled tool, and members of one capability agree on it. */
  ghost predicate CapabilitiesAgree(regs: seq<Registration>, enabled: set<string>) {
    && (forall g :: g in regs && Groups(g, enabled) ==> !NamesRuntimeTool(regs, enabled, g.capability.value.name))
    && (forall g, h ::
          && g in regs && h in regs && Groups(g, enabled) && Groups(h, enabled)
          && g.capability.value.name == h.capability.value.name
          ==> g.capability == h.capability)
  }

  /** `schemas` holds the capability of every grouped member seen so far, and nothing else. */
  ghost predicate Tracks(regs: seq<Registration>, seen: seq<Registration>, enabled: set<string>, schemas: map<string, Capability>) {
    && (forall g :: g in seen && Groups(g, enabled) ==>
          && !NamesRuntimeTool(regs, enabled, g.capability.value.name)
          && g.capability.value.name in schemas && schemas[g.capability.value.name] == g.capability.value)
    && (forall name :: name in schemas ==> Members(seen, enabled, name) != [])
  }

  lemma TracksNext(regs: seq<Registration>, seen: seq<Registration>, enabled: set<string>, schemas: map<string, Capability>,
                   reg: Registration)
    requires Tracks(regs, seen, enabled, schemas) && Groups(reg, enabled)
    requires !NamesRuntimeTool(regs, enabled, reg.capability.value.name)
    requires reg.capability.value.name in schemas ==> schemas[reg.capability.value.name] == reg.capability.value
    ensures Tracks(regs, seen + [reg], enabled, schemas[reg.capability.value.name := reg.capability.value])
  {
    MembersNext(seen, enabled, reg);
  }

  lemma MembersNext(seen: seq<Registration>, enabled: set<string>, reg: Registration)
    ensures forall name ::
              Members(seen + [reg], enabled, name) ==
              Members(seen, enabled, name) +
              (if Groups(reg, enabled) && reg.capability.value.name == name then [reg] else [])
  {
    assert (seen + [reg])[..|seen + [reg]| - 1] == seen;
  }

  lemma TracksSkip(regs: seq<Registration>, seen: seq<Registration>, enabled: set<string>, schemas: map<string, Capability>,
                   reg: Registration)
    requires Tracks(regs, seen, enabled, schemas) && !Groups(reg, enabled)
    ensures Tracks(regs, seen + [reg], enabled, schemas)
  {
    MembersNext(seen, enabled, reg);
  }

  lemma ConflictDisagrees(regs: seq<Registration>, seen: seq<Registration>, enabled: set<string>,
                          schemas: map<string, Capability>, reg: Registration)
    requires Tracks(regs, seen, enabled, schemas) && Groups(reg, enabled) && reg in regs
    requires forall g :: g in seen ==> g in regs
    requires reg.capability.value.name in schemas && schemas[reg.capability.value.name] != reg.capability.value
    ensures !CapabilitiesAgree(regs, enabled)
  {
    var g := Members(seen, enabled, reg.capability.value.name)[0];
    assert g in Members(seen, enabled, reg.capability.value.name);
  }

  /** Groups the enabled runtime tools by public capability. */
  method PlanningCapabilities(regs: seq<Registration>, enabled: set<string>)
    returns (r: Outcome<map<string, seq<Registration>>, Fault>)
    ensures r.Ok? <==> CapabilitiesAgree(regs, enabled)
    ensures r.Fail? ==> r.fault.CapabilityCollision? || r.fault.ConflictingCapability?
    ensures r.Ok? ==> forall name :: name in r.value <==> Members(regs, enabled, name) != []
    ensures r.Ok? ==> forall name :: name in r.value ==> r.value[name] == Members(regs, enabled, name)
  {
    hide CapabilitiesAgree, Tracks, NamesRuntimeTool, Members;
    var runtimeNames := set g | g in regs && g.name in enabled :: g.name;
    var grouped: map<string, seq<Registration>> := map[];
    var schemas: map<string, Capability> := map[];
    var i := 0;
    assert regs[..0] == [];
    NoneTracked(regs, enabled);
    while i < |regs|
      invariant i <= |regs| && schemas.Keys == grouped.Keys && Tracks(regs, regs[..i], enabled, schemas)
      invariant forall name :: if name in grouped then grouped[name] == Members(regs[..i], enabled, name)
                               else Members(regs[..i], enabled, name) == []
    {
      var reg := regs[i];
      assert regs[..i + 1] == regs[..i] + [reg];
      MembersNext(regs[..i], enabled, reg);
      if Groups(reg, enabled) {
        var capability := reg.capability.value;
        CollisionTest(regs, enabled, capability.name);
        if capability.name in runtimeNames {
          CollisionDisagrees(regs, enabled, reg);
          return Fail(CapabilityCollision);
        }
        if capability.name in schemas && schemas[capability.name] != capability {
          ConflictDisagrees(regs, regs[..i], enabled, schemas, reg);
          return Fail(ConflictingCapability);
        }
        TracksNext(regs, regs[..i], enabled, schemas, reg);
        schemas := schemas[capability.name := capability];
        grouped := grouped[capability.name := (if capability.name in grouped then grouped[capability.name] else []) + [reg]];
      } else {
        TracksSkip(regs, regs[..i], enabled, schemas, reg);
      }
      i := i + 1;
    }
    assert regs[..i] == regs;
    TrackedAgree(regs, enabled, schemas);
    TrackedNonempty(regs, enabled, schemas);
    r := Ok(grouped);
  }

  lemma NoneTracked(regs: seq<Registration>, enabled: set<string>)
    ensures Tracks(regs, [], enabled, map[]) && forall name :: Members([], enabled, name) == []
  {
  }

  lemma CollisionTest(regs: seq<Registration>, enabled: set<string>, name: string)
    ensures NamesRuntimeTool(regs, enabled, name) <==> name in set g | g in regs && g.name in enabled :: g.name
  {
  }

  lemma CollisionDisagrees(regs: seq<Registration>, enabled: set<string>, reg: Registration)
    requires reg in regs && Groups(reg, enabled) && NamesRuntimeTool(regs, enabled, reg.capability.value.name)
    ensures !CapabilitiesAgree(regs, enabled)
  {
  }

  lemma TrackedAgree(regs: seq<Registration>, enabled: set<string>, schemas: map<string, Capability>)
    requires Tracks(regs, regs, enabled, schemas)
    ensures CapabilitiesAgree(regs, enabled)
  {
  }

  lemma TrackedNonempty(regs: seq<Registration>, enabled: set<string>, schemas: map<string, Capability>)
    requires Tracks(regs, regs, enabled, schemas)
    ensures forall name :: name in schemas ==> Members(regs, enabled, name) != []
  {
  }

  // ----- the order of a capability's runtime tools ---------------------------

  /** Distinct group tools, each after its prerequisites in the group. */
  ghost predicate InDependencyOrder(group: map<string, Registration>, ordered: seq<string>) {
    && Distinct(ordered)
    && (forall i :: 0 <= i < |ordered| ==> ordered[i] in group)
    && (forall i, d :: 0 <= i < |ordered| && d in group[ordered[i]].prerequisites && d in group ==> d in ordered[..i])
  }

  lemma OrderGrows(group: map<string, Registration>, ordered: seq<string>, name: string)
    requires InDependencyOrder(group, ordered) && name in group && name !in ordered
    requires forall d :: d in group[name].prerequisites && d in group ==> d in ordered
    ensures InDependencyOrder(group, ordered + [name])
  {
    var longer := ordered + [name];
    assert longer[..|ordered|] == ordered;
    forall i, d | 0 <= i < |longer| && d in group[longer[i]].prerequisites && d in group ensures d in longer[..i] {
      if i < |ordered| { assert longer[..i] == ordered[..i]; }
    }
  }

  /** The order of a depth-first visit: what `name` needs in the group, then `name`; none if the visit comes back to a
      tool that is being visited. */
  function Visited(group: map<string, Registration>, name: string, ordered: seq<string>, visiting: set<string>): (r: Outcome<seq<string>, Fault>)
    requires name in group && visiting <= group.Keys
    ensures r.Fail? ==> r.fault == CapabilityCycle
    decreases |group| - |visiting|, 0
  {
    if name in ordered then Ok(ordered)
    else if name in visiting then Fail(CapabilityCycle)
    else
      SubsetCount(visiting + {name}, group.Keys);
      var before := VisitedAll(group, group[name].prerequisites, ordered, visiting + {name});
      if before.Fail? then before else Ok(before.value + [name])
  }

  function VisitedAll(group: map<string, Registration>, names: seq<string>, ordered: seq<string>, visiting: set<string>)
    : (r: Outcome<seq<string>, Fault>)
    requires visiting <= group.Keys
    ensures r.Fail? ==> r.fault == CapabilityCycle
    decreases |group| - |visiting|, 1 + |names|
  {
    if names == [] then Ok(ordered)
    else
      var (init, last) := (names[..|names| - 1], names[|names| - 1]);
      var before := VisitedAll(group, init, ordered, visiting);
      if before.Ok? && last in group then Visited(group, last, before.value, visiting) else before
  }

  function MemberNames(members: seq<Registration>): seq<string> {
    seq(|members|, i requires 0 <= i < |members| => members[i].name)
  }

  /** The order in which a capability's tools run. */
  function ToolOrder(members: seq<Registration>): Outcome<seq<string>, Fault> {
    VisitedAll(ByName(members), MemberNames(members), [], {})
  }

  lemma VisitedNext(group: map<string, Registration>, names: seq<string>, i: nat, ordered: seq<string>, visiting: set<string>)
    requires visiting <= group.Keys && i < |names|
    ensures VisitedAll(group, names[..i + 1], ordered, visiting) ==
      var before := VisitedAll(group, names[..i], ordered, visiting);
      if before.Ok? && names[i] in group then Visited(group, names[i], before.value, visiting) else before
  {
    assert names[..i + 1][..i] == names[..i];
  }

  lemma {:induction false} VisitStaysStopped(
      group: map<string, Registration>, names: seq<string>, i: nat, ordered: seq<string>, visiting: set<string>)
    requires visiting <= group.Keys && i <= |names| && VisitedAll(group, names[..i], ordered, visiting).Fail?
    ensures VisitedAll(group, names, ordered, visiting) == VisitedAll(group, names[..i], ordered, visiting)
    decreases |names| - i
  {
    if i < |names| {
      VisitedNext(group, names, i, ordered, visiting);
      VisitStaysStopped(group, names, i + 1, ordered, visiting);
    } else {
      assert names[..i] == names;
    }
  }

  /** A numbering under which every tool of the group comes above those it needs in the group. */
  ghost predicate GroupRank(group: map<string, Registration>, rank: map<string, nat>) {
    && group.Keys <= rank.Keys
    && (forall t, d :: t in group && d in group[t].prerequisites && d in group ==> rank[d] < rank[t])
  }

  /** The tools of the group do not need each other in a circle. */
  ghost predicate FreeOfCycles(group: map<string, Registration>) {
    exists rank: map<string, nat> :: GroupRank(group, rank)
  }

  /** Tools of the group being visited, each needing the next, the last one needing `name`. */
  ghost predicate VisitPath(group: map<string, Registration>, path: seq<string>, name: string) {
    && (forall i :: 0 <= i < |path| ==> path[i] in group)
    && (forall i :: 0 <= i < |path| - 1 ==> path[i + 1] in group[path[i]].prerequisites)
    && (path != [] ==> name in group[path[|path| - 1]].prerequisites)
  }

  lemma {:induction false} RankFallsAlongVisit(
      group: map<string, Registration>, rank: map<string, nat>, path: seq<string>, name: string, i: nat)
    requires GroupRank(group, rank) && VisitPath(group, path, name) && name in group && i < |path|
    ensures rank[name] < rank[path[i]]
    decreases |path| - i
  {
    if i + 1 < |path| {
      RankFallsAlongVisit(group, rank, path, name, i + 1);
      assert path[i + 1] in group[path[i]].prerequisites;
    }
  }

  lemma ReturningVisitIsCycle(group: map<string, Registration>, path: seq<string>, name: string)
    requires VisitPath(group, path, name) && name in group && name in path
    ensures !FreeOfCycles(group)
  {
    var i :| 0 <= i < |path| && path[i] == name;
    forall rank: map<string, nat> | GroupRank(group, rank) ensures false { RankFallsAlongVisit(group, rank, path, name, i); }
  }

  lemma VisitPathGrows(group: map<string, Registration>, path: seq<string>, name: string)
    requires VisitPath(group, path, name) && name in group
    ensures forall d :: d in group[name].prerequisites ==> VisitPath(group, path + [name], d)
    ensures Elements(path + [name]) == Elements(path) + {name}
  {
  }

  /** A whole group in dependency order is numbered by its places. */
  lemma OrderHasNoCycle(group: map<string, Registration>, ordered: seq<string>)
    requires InDependencyOrder(group, ordered) && Elements(ordered) == group.Keys
    ensures FreeOfCycles(group)
  {
    var rank: map<string, nat> := map t | t in ordered :: PlaceOf(ordered, t);
    forall t, d | t in group && d in group[t].prerequisites && d in group ensures rank[d] < rank[t] {
      assert t in Elements(ordered) && d in Elements(ordered);
      var k := PlaceOf(ordered, t);
      assert d in ordered[..k];
      var m :| 0 <= m < k && ordered[..k][m] == d;
      assert ordered[m] == d && ordered[PlaceOf(ordered, d)] == d;
    }
    assert forall t :: t in group ==> t in Elements(ordered);
    assert GroupRank(group, rank);
  }

  ghost function PlaceOf(s: seq<string>, x: string): (k: nat)
    requires x in s
    ensures k < |s| && s[k] == x
  {
    var k :| 0 <= k < |s| && s[k] == x;
    k
  }

  method VisitTool(group: map<string, Registration>, name: string, ordered: seq<string>, visiting: set<string>, ghost path: seq<string>)
    returns (r: Outcome<seq<string>, Fault>)
    requires InDependencyOrder(group, ordered) && name in group && visiting <= group.Keys
    requires VisitPath(group, path, name) && Elements(path) == visiting
    ensures r == Visited(group, name, ordered, visiting)
    ensures r.Fail? ==> !FreeOfCycles(group)
    ensures r.Ok? ==> InDependencyOrder(group, r.value) && name in r.value && forall x :: x in ordered ==> x in r.value
    ensures r.Ok? ==> forall v :: v in visiting && v in r.value ==> v in ordered
    decreases |group| - |visiting|
  {
    hide InDependencyOrder, VisitPath, FreeOfCycles, VisitedAll, Elements;
    if name in ordered { return Ok(ordered); }
    if name in visiting {
      InElements(path, name);
      ReturningVisitIsCycle(group, path, name);
      return Fail(CapabilityCycle);
    }
    SubsetCount(visiting + {name}, group.Keys);
    VisitPathGrows(group, path, name);
    var result := ordered;
    var needed := group[name].prerequisites;
    var i := 0;
    NothingVisited(group, needed, ordered, visiting + {name});
    while i < |needed|
      invariant i <= |needed| && InDependencyOrder(group, result) && forall x :: x in ordered ==> x in result
      invariant VisitedAll(group, needed[..i], ordered, visiting + {name}) == Ok(result)
      invariant forall v :: v in visiting + {name} && v in result ==> v in ordered
      invariant forall k :: 0 <= k < i && needed[k] in group ==> needed[k] in result
    {
      VisitedNext(group, needed, i, ordered, visiting + {name});
      if needed[i] in group {
        assert needed[i] in needed;
        var next := VisitTool(group, needed[i], result, visiting + {name}, path + [name]);
        if next.Fail? {
          VisitStaysStopped(group, needed, i + 1, ordered, visiting + {name});
          return next;
        }
        result := next.value;
      }
      i := i + 1;
    }
    assert needed[..i] == needed;
    assert name in visiting + {name} && name !in result;
    OrderGrows(group, result, name);
    return Ok(result + [name]);
  }

  lemma InElements(s: seq<string>, x: string)
    ensures x in Elements(s) <==> x in s
  {
  }

  lemma NothingVisited(group: map<string, Registration>, names: seq<string>, ordered: seq<string>, visiting: set<string>)
    requires visiting <= group.Keys
    ensures VisitedAll(group, names[..0], ordered, visiting) == Ok(ordered)
  {
  }

  lemma NothingOrdered(group: map<string, Registration>, name: string)
    ensures InDependencyOrder(group, []) && VisitPath(group, [], name) && Elements<string>([]) == {}
  {
  }

  lemma OrderStaysInGroup(group: map<string, Registration>, ordered: seq<string>)
    requires InDependencyOrder(group, ordered)
    ensures Elements(ordered) <= group.Keys
  {
  }

  /** All tools of a capability, prerequisites first; refused exactly if they need each other in a circle. */
  method OrderedRuntimeNames(members: seq<Registration>) returns (r: Outcome<seq<string>, Fault>)
    ensures r == ToolOrder(members)
    ensures r.Ok? <==> FreeOfCycles(ByName(members))
    ensures r.Ok? ==> InDependencyOrder(ByName(members), r.value) && Elements(r.value) == ByName(members).Keys
  {
    hide *;
    var group := ByName(members);
    var ordered: seq<string> := [];
    ghost var names := MemberNames(members);
    ToolOrderVisits(members);
    NothingOrdered(group, "");
    NothingVisited(group, names, [], {});
    var i := 0;
    while i < |members|
      invariant i <= |members| && InDependencyOrder(group, ordered)
      invariant VisitedAll(group, names[..i], [], {}) == Ok(ordered)
      invariant forall k :: 0 <= k < i ==> names[k] in ordered
    {
      NothingOrdered(group, members[i].name);
      VisitedNext(group, names, i, [], {});
      var next := VisitTool(group, members[i].name, ordered, {}, []);
      if next.Fail? {
        VisitStaysStopped(group, names, i + 1, [], {});
        return next;
      }
      ordered := next.value;
      i := i + 1;
    }
    assert names[..i] == names;
    WholeGroupIsOrdered(members, ordered);
    OrderHasNoCycle(group, ordered);
    return Ok(ordered);
  }

  lemma ToolOrderVisits(members: seq<Registration>)
    ensures ToolOrder(members) == VisitedAll(ByName(members), MemberNames(members), [], {})
    ensures |MemberNames(members)| == |members|
    ensures forall k :: 0 <= k < |members| ==> MemberNames(members)[k] == members[k].name && members[k].name in ByName(members)
  {
  }

  lemma WholeGroupIsOrdered(members: seq<Registration>, ordered: seq<string>)
    requires InDependencyOrder(ByName(members), ordered)
    requires forall k :: 0 <= k < |members| ==> MemberNames(members)[k] in ordered
    ensures Elements(ordered) == ByName(members).Keys
  {
    hide InDependencyOrder, ByName;
    var group := ByName(members);
    forall name | name in group ensures name in ordered {
      var k :| 0 <= k < |members| && members[k] == group[name];
      assert MemberNames(members)[k] == name;
    }
    OrderStaysInGroup(group, ordered);
  }

  // ----- step ids -----------------------------------------------------------

  const ID_LIMIT: nat := 48

  /** `s[:n]` as Python reads it, with a negative bound counted from the end. */
  function Prefix(s: string, n: int): string {
    if n >= |s| then s else if n >= 0 then s[..n] else if |s| + n >= 0 then s[..|s| + n] else ""
  }

  function Suffix(j: nat): string { "-" + Decimal.Digits(j) }

  function NumberedId(base: string): nat -> string {
    (j: nat) => Prefix(base, ID_LIMIT - |Suffix(j)|) + Suffix(j)
  }

  lemma NumberedIdsDiffer(base: string)
    ensures Decimal.Injective(NumberedId(base))
  {
    forall i: nat, j: nat | NumberedId(base)(i) == NumberedId(base)(j) ensures i == j {
      var x, y := Prefix(base, ID_LIMIT - |Suffix(i)|), Prefix(base, ID_LIMIT - |Suffix(j)|);
      assert x + ['-'] + Decimal.Digits(i) == x + Suffix(i);
      assert y + ['-'] + Decimal.Digits(j) == y + Suffix(j);
      Decimal.NumeralsAreSuffixFree(x, y, '-', Decimal.Digits(i), Decimal.Digits(j));
      Decimal.DigitsInjective(i, j);
    }
  }

  /** A step id at most 48 characters long (if its number fits), never used before. */
  function UniqueStepId(candidate: string, existing: set<string>): (id: string)
    ensures id !in existing
    ensures |id| <= ID_LIMIT || exists j :: |Suffix(j)| > ID_LIMIT && id == NumberedId(Prefix(candidate, ID_LIMIT))(j)
  {
    var base := Prefix(candidate, ID_LIMIT);
    NumberedIdsDiffer(base);
    if base !in existing then base
    else NumberedId(base)(Decimal.Search(NumberedId(base), existing, 2))
  }

  /** The loop that finds it: it stops because only finitely many ids are used. */
  method FindStepId(candidate: string, existing: set<string>) returns (id: string)
    ensures id == UniqueStepId(candidate, existing)
  {
    var base := Prefix(candidate, ID_LIMIT);
    NumberedIdsDiffer(base);
    if base !in existing { return base; }
    var f := NumberedId(base);
    var index := 2;
    while f(index) in existing
      invariant 2 <= index
      invariant Decimal.Search(f, existing, 2) == Decimal.Search(f, existing, index)
      decreases |Decimal.Taken(f, existing, index)|
    {
      Decimal.TakenShrinks(f, existing, index);
      index := index + 1;
    }
    return f(index);
  }

  // ----- the plan under construction ----------------------------------------

  datatype Env = Env(tools: map<string, Registration>, constraints: Constraints, enabled: set<string>)

  datatype Build = Build(
    expanded: seq<TaskStep>, completed: set<string>, inserted: seq<string>, lowered: seq<string>,
    ids: set<string>, sequence: nat)

  /** `tool` cannot run before `dep` unless `dep` was satisfied from the start. */
  predicate Needs(env: Env, tool: string, dep: string)
    requires tool in env.tools
  {
    dep in env.tools[tool].prerequisites && (tool, dep) !in env.constraints.waived
  }

  ghost predicate RunsTool(step: TaskStep, tool: string) { step.executor.Tool? && step.tools == [tool] }

  ghost predicate ToolIn(steps: seq<TaskStep>, tool: string) {
    exists j :: 0 <= j < |steps| && RunsTool(steps[j], tool)
  }

  /** A tool step names one registered tool, and what that tool needs comes earlier. */
  ghost predicate Ready(env: Env, base: set<string>, steps: seq<TaskStep>, k: nat)
    requires k < |steps|
  {
    steps[k].executor.Tool? ==>
      && |steps[k].tools| == 1 && steps[k].tools[0] in env.tools
      && forall dep :: Needs(env, steps[k].tools[0], dep) ==> dep in base || ToolIn(steps[..k], dep)
  }

  ghost predicate AllReady(env: Env, base: set<string>, steps: seq<TaskStep>) {
    forall k {:trigger Ready(env, base, steps, k)} :: 0 <= k < |steps| ==> Ready(env, base, steps, k)
  }

  ghost predicate Accounted(base: set<string>, b: Build) {
    forall tool :: tool in b.completed <==> tool in base || ToolIn(b.expanded, tool)
  }

  /** A tool step runs an enabled tool or one inserted as a prerequisite. */
  ghost predicate Entitled(env: Env, steps: seq<TaskStep>, inserted: seq<string>, k: nat)
    requires k < |steps|
  {
    steps[k].executor.Tool? ==> |steps[k].tools| == 1 && (steps[k].tools[0] in env.enabled || steps[k].tools[0] in inserted)
  }

  ghost predicate AllEntitled(env: Env, steps: seq<TaskStep>, inserted: seq<string>) {
    forall k {:trigger Entitled(env, steps, inserted, k)} :: 0 <= k < |steps| ==> Entitled(env, steps, inserted, k)
  }

  /** A step not yet begun; if the planner did not write it as it is, its tool's registration says how it is shown and
      what it risks. */
  ghost predicate Labeled(env: Env, step: TaskStep) {
    && step.status.Pending? && step.summary.None? && step.error.None?
    && (step.hidden || step.capability.Some? ==>
          && step.executor.Tool? && |step.tools| == 1 && step.tools[0] in env.tools
          && var reg := env.tools[step.tools[0]];
             && step.risk == Some(reg.risk) && (step.hidden ==> step.title == reg.title)
             && (step.capability.None? ==> step.kind == (if reg.mode.ReadMode? then Read else Analyze) && step.dependsOn == []))
  }

  ghost predicate AllLabeled(env: Env, steps: seq<TaskStep>) { forall k :: 0 <= k < |steps| ==> Labeled(env, steps[k]) }

  /** The tools of the hidden steps that belong to no capability, in order. */
  function InsertedIn(steps: seq<TaskStep>): seq<string> {
    if steps == [] then []
    else
      var last := steps[|steps| - 1];
      InsertedIn(steps[..|steps| - 1]) + if last.hidden && last.capability.None? then last.tools else []
  }

  /** The tools of the steps that belong to a capability, in order. */
  function LoweredIn(steps: seq<TaskStep>): seq<string> {
    if steps == [] then []
    else
      var last := steps[|steps| - 1];
      LoweredIn(steps[..|steps| - 1]) + if last.capability.Some? then last.tools else []
  }

  ghost predicate Lists(steps: seq<TaskStep>, inserted: seq<string>, lowered: seq<string>) {
    inserted == InsertedIn(steps) && lowered == LoweredIn(steps)
  }

  lemma ListsNext(steps: seq<TaskStep>, step: TaskStep, inserted: seq<string>, lowered: seq<string>)
    requires Lists(steps, inserted, lowered)
    ensures Lists(steps + [step], inserted + (if step.hidden && step.capability.None? then step.tools else []),
                  lowered + (if step.capability.Some? then step.tools else []))
  {
    assert (steps + [step])[..|steps|] == steps;
  }

  /** What the loop keeps: `completed` is the satisfied tools and those of the steps so far. */
  ghost predicate BuildOk(env: Env, base: set<string>, b: Build) {
    && Accounted(base, b) && AllReady(env, base, b.expanded) && ValidSteps(b.expanded)
    && AllEntitled(env, b.expanded, b.inserted) && AllLabeled(env, b.expanded) && Lists(b.expanded, b.inserted, b.lowered)
    && Elements(Ids(b.expanded)) <= b.ids
    && Distinct(b.inserted) && (forall tool :: tool in b.inserted ==> tool in b.completed && tool !in base)
  }

  function HostStep(reg: Registration, id: string, consumer: string): TaskStep {
    TaskStep(id, reg.title, if reg.mode.ReadMode? then Read else Analyze, Tool, Pending, Some(reg.risk),
             [reg.name], [],
             Some("Host-inserted prerequisite for " + consumer + "; derived from the registered tool context contract."),
             None, None, true, None)
  }

  /** A hidden step that runs a registered, not excluded tool. */
  ghost predicate IsHostStep(env: Env, step: TaskStep) {
    exists tool, consumer ::
      && tool in env.tools && tool !in env.constraints.excluded
      && step == HostStep(env.tools[tool], step.id, consumer)
  }

  ghost function ToolNames(steps: seq<TaskStep>): seq<string>
    requires forall k :: 0 <= k < |steps| ==> |steps[k].tools| == 1
  {
    seq(|steps|, i requires 0 <= i < |steps| => steps[i].tools[0])
  }

  /** `b` extends `a` by steps whose ids are new, except that `own` may be used. */
  ghost predicate Grows(a: Build, b: Build, own: set<string>) {
    && a.expanded <= b.expanded && a.completed <= b.completed && a.ids <= b.ids
    && (forall k :: |a.expanded| <= k < |b.expanded| ==> b.expanded[k].id !in a.ids || b.expanded[k].id in own)
  }

  /** `b` extends `a` by prerequisites only, each listed once as inserted. */
  ghost predicate Inserts(env: Env, a: Build, b: Build) {
    && Grows(a, b, {}) && b.lowered == a.lowered
    && (forall k :: |a.expanded| <= k < |b.expanded| ==> IsHostStep(env, b.expanded[k]) && |b.expanded[k].tools| == 1)
    && b.inserted == a.inserted + ToolNames(b.expanded[|a.expanded|..])
  }

  lemma InsertsNothing(env: Env, a: Build)
    ensures Inserts(env, a, a)
  {
    assert a.expanded[|a.expanded|..] == [];
    assert a.inserted + [] == a.inserted;
  }

  lemma InsertsTwice(env: Env, a: Build, b: Build, c: Build)
    requires Inserts(env, a, b) && Inserts(env, b, c)
    ensures Inserts(env, a, c)
  {
    var ab, bc := b.expanded[|a.expanded|..], c.expanded[|b.expanded|..];
    assert c.expanded[|a.expanded|..] == ab + bc;
    assert ToolNames(ab + bc) == ToolNames(ab) + ToolNames(bc);
    forall k | |a.expanded| <= k < |c.expanded| ensures IsHostStep(env, c.expanded[k]) && |c.expanded[k].tools| == 1
    {
      if k < |b.expanded| { assert c.expanded[k] == b.expanded[k]; }
    }
  }

  lemma ToolInNext(steps: seq<TaskStep>, step: TaskStep, tool: string)
    ensures ToolIn(steps + [step], tool) <==> ToolIn(steps, tool) || RunsTool(step, tool)
  {
    var longer := steps + [step];
    if ToolIn(steps, tool) {
      var j :| 0 <= j < |steps| && RunsTool(steps[j], tool);
      assert RunsTool(longer[j], tool);
    }
    if RunsTool(step, tool) { assert RunsTool(longer[|steps|], tool); }
    if ToolIn(longer, tool) && !RunsTool(step, tool) {
      var j :| 0 <= j < |longer| && RunsTool(longer[j], tool);
      assert longer[j] == steps[j];
    }
  }

  lemma IdsNext(steps: seq<TaskStep>, step: TaskStep)
    ensures Ids(steps + [step]) == Ids(steps) + [step.id]
    ensures Elements(Ids(steps + [step])) == Elements(Ids(steps)) + {step.id}
  {
    assert Ids(steps + [step]) == Ids(steps) + [step.id];
  }

  lemma StepsStayValid(steps: seq<TaskStep>, step: TaskStep)
    requires ValidSteps(steps) && step.id !in Ids(steps) && forall d :: d in step.dependsOn ==> d in Ids(steps)
    ensures ValidSteps(steps + [step])
  {
    var longer := steps + [step];
    IdsNext(steps, step);
    forall k | 0 <= k < |longer| ensures BackwardAt(longer, k) {
      if k < |steps| {
        assert BackwardAt(steps, k) && longer[..k] == steps[..k];
      } else {
        assert longer[..k] == steps;
      }
    }
  }

  lemma StepsStayReady(env: Env, base: set<string>, steps: seq<TaskStep>, step: TaskStep)
    requires AllReady(env, base, steps)
    requires step.executor.Tool? ==>
      && |step.tools| == 1 && step.tools[0] in env.tools
      && forall dep :: Needs(env, step.tools[0], dep) ==> dep in base || ToolIn(steps, dep)
    ensures AllReady(env, base, steps + [step])
  {
    var longer := steps + [step];
    forall k | 0 <= k < |longer| ensures Ready(env, base, longer, k) {
      if k < |steps| {
        assert Ready(env, base, steps, k) && longer[..k] == steps[..k];
      } else {
        assert longer[..k] == steps;
      }
    }
  }

  lemma StepsStayEntitled(env: Env, steps: seq<TaskStep>, inserted: seq<string>, step: TaskStep, more: seq<string>)
    requires AllEntitled(env, steps, inserted) && inserted <= more
    requires step.executor.Tool? ==> |step.tools| == 1 && (step.tools[0] in env.enabled || step.tools[0] in more)
    ensures AllEntitled(env, steps + [step], more)
  {
    var longer := steps + [step];
    forall k | 0 <= k < |longer| ensures Entitled(env, longer, more, k) {
      if k < |steps| { assert Entitled(env, steps, inserted, k) && longer[k] == steps[k]; }
    }
  }

  /** Appending a step whose needs are met keeps the construction sound. */
  lemma AppendingIsOk(env: Env, base: set<string>, b: Build, step: TaskStep, c: Build)
    requires BuildOk(env, base, b)
    requires c.expanded == b.expanded + [step] && c.ids == b.ids + {step.id} && step.id !in Ids(b.expanded)
    requires forall d :: d in step.dependsOn ==> d in Ids(b.expanded)
    requires step.executor.Tool? ==>
      && |step.tools| == 1 && step.tools[0] in env.tools
      && forall dep :: Needs(env, step.tools[0], dep) ==> dep in b.completed
    requires c.completed == b.completed + (if step.executor.Tool? then Elements(step.tools) else {})
    requires c.inserted == b.inserted || (step.executor.Tool? && step.tools[0] !in b.completed && c.inserted == b.inserted + step.tools)
    requires step.executor.Tool? ==> step.tools[0] in env.enabled || step.tools[0] in c.inserted
    requires Labeled(env, step)
    requires c.inserted == b.inserted + (if step.hidden && step.capability.None? then step.tools else [])
    requires c.lowered == b.lowered + (if step.capability.Some? then step.tools else [])
    ensures BuildOk(env, base, c)
  {
    ListsNext(b.expanded, step, b.inserted, b.lowered);
    StepsStayEntitled(env, b.expanded, b.inserted, step, c.inserted);
    StepsStayValid(b.expanded, step);
    StepsStayReady(env, base, b.expanded, step);
    IdsNext(b.expanded, step);
    forall tool ensures tool in c.completed <==> tool in base || ToolIn(c.expanded, tool) {
      ToolInNext(b.expanded, step, tool);
    }
  }

  // ----- prerequisites ------------------------------------------------------

  /** Distinct registered tools, each needing the next. */
  ghost predicate NeedPath(env: Env, path: seq<string>) {
    && Distinct(path) && (forall i :: 0 <= i < |path| ==> path[i] in env.tools)
    && (forall i :: 0 <= i < |path| - 1 ==> Needs(env, path[i], path[i + 1]))
  }

  ghost predicate Follows(env: Env, path: seq<string>, tool: string)
    requires NeedPath(env, path)
  {
    path == [] || Needs(env, path[|path| - 1], tool)
  }

  /** A trail of registered tools, each needing the next, that comes back to a tool it already passed. */
  ghost predicate IsCycle(env: Env, trail: seq<string>) {
    && |trail| >= 2 && trail[|trail| - 1] in trail[..|trail| - 1]
    && (forall i :: 0 <= i < |trail| - 1 ==> trail[i] in env.tools && Needs(env, trail[i], trail[i + 1]))
  }

  lemma PathClosesCycle(env: Env, path: seq<string>, tool: string)
    requires NeedPath(env, path) && Follows(env, path, tool) && tool in path
    ensures IsCycle(env, path + [tool])
  {
    assert (path + [tool])[..|path|] == path;
  }

  lemma PathGrows(env: Env, path: seq<string>, tool: string)
    requires NeedPath(env, path) && Follows(env, path, tool) && tool in env.tools && tool !in path
    ensures NeedPath(env, path + [tool]) && |path| < |env.tools|
    ensures forall dep :: Needs(env, tool, dep) ==> Follows(env, path + [tool], dep)
  {
    CountTellsDistinct(path + [tool]);
    SubsetCount(Elements(path + [tool]), env.tools.Keys);
  }

  lemma InsertingIsOk(env: Env, base: set<string>, b: Build, c: Build, dep: string, id: string, consumer: string)
    requires BuildOk(env, base, b) && dep in env.tools && env.tools[dep].name == dep
    requires dep !in b.completed && dep !in env.constraints.excluded && id !in b.ids
    requires forall d :: Needs(env, dep, d) ==> d in b.completed
    requires c == Build(b.expanded + [HostStep(env.tools[dep], id, consumer)], b.completed + {dep},
                        b.inserted + [dep], b.lowered, b.ids + {id}, b.sequence + 1)
    ensures BuildOk(env, base, c) && Inserts(env, b, c)
  {
    var step := HostStep(env.tools[dep], id, consumer);
    AppendingIsOk(env, base, b, step, c);
    assert c.expanded[|b.expanded|..] == [step];
    assert IsHostStep(env, step);
    assert ToolNames([step]) == [dep];
  }

  // ----- when prerequisites can be inserted ----------------------------------

  /** The registered `tool` needs `dep`, and `dep` is not done. */
  predicate Missing(env: Env, done: set<string>, tool: string, dep: string) {
    tool in env.tools && Needs(env, tool, dep) && dep !in done
  }

  /** A ranked tool is registered, and all it misses may be inserted and is ranked lower. */
  ghost predicate RankedTool(env: Env, done: set<string>, rank: map<string, nat>, t: string)
    requires t in rank
  {
    && t in env.tools
    && forall dep :: Missing(env, done, t, dep) ==>
         dep in rank && rank[dep] < rank[t] && dep !in env.constraints.excluded
  }

  ghost predicate Ranking(env: Env, done: set<string>, rank: map<string, nat>) {
    forall t {:trigger RankedTool(env, done, rank, t)} :: t in rank ==> RankedTool(env, done, rank, t)
  }

  ghost predicate Rankable(env: Env, done: set<string>, tools: set<string>) {
    exists rank: map<string, nat> :: Ranking(env, done, rank) && tools <= rank.Keys
  }

  /** `tool`, what it misses, and what that misses in turn are registered; none of it but `tool` is excluded; and nothing
      of it misses itself in a circle. */
  ghost predicate Insertable(env: Env, done: set<string>, tool: string) { Rankable(env, done, {tool}) }

  /** What `more` has and `done` lacks can all be inserted. */
  ghost predicate Supplies(env: Env, done: set<string>, more: set<string>) {
    done <= more && (more - done) !! env.constraints.excluded && Rankable(env, done, more - done)
  }

  lemma RankingSurvives(env: Env, done: set<string>, more: set<string>, rank: map<string, nat>)
    requires Ranking(env, done, rank) && done <= more
    ensures Ranking(env, more, rank)
  {
    forall t | t in rank ensures RankedTool(env, more, rank, t) { assert RankedTool(env, done, rank, t); }
  }

  lemma InsertableSurvives(env: Env, done: set<string>, more: set<string>, tool: string)
    requires Insertable(env, done, tool) && done <= more
    ensures Insertable(env, more, tool)
  {
    var rank: map<string, nat> :| Ranking(env, done, rank) && {tool} <= rank.Keys;
    RankingSurvives(env, done, more, rank);
  }

  lemma InsertableDescends(env: Env, done: set<string>, tool: string, dep: string)
    requires Insertable(env, done, tool) && Missing(env, done, tool, dep)
    ensures Insertable(env, done, dep) && dep !in env.constraints.excluded
  {
    var rank: map<string, nat> :| Ranking(env, done, rank) && {tool} <= rank.Keys;
    assert RankedTool(env, done, rank, tool);
  }

  /** The same, when part of what `tool` misses was inserted meanwhile. */
  lemma InsertableBelow(env: Env, done: set<string>, more: set<string>, tool: string, dep: string)
    requires done <= more && Missing(env, more, tool, dep)
    requires dep in env.constraints.excluded || !Insertable(env, more, dep)
    ensures !Insertable(env, done, tool)
  {
    if Insertable(env, done, tool) {
      InsertableSurvives(env, done, more, tool);
      InsertableDescends(env, more, tool, dep);
    }
  }

  lemma {:induction false} RanksAreBounded(rank: map<string, nat>) returns (bound: nat)
    ensures forall t :: t in rank ==> rank[t] < bound
    decreases |rank|
  {
    if rank == map[] { return 0; }
    var t :| t in rank;
    var rest := rank - {t};
    assert rank.Keys == rest.Keys + {t} && |rank.Keys| == |rest.Keys| + 1;
    bound := RanksAreBounded(rest);
    bound := if rank[t] < bound then bound else rank[t] + 1;
    forall u | u in rank ensures rank[u] < bound { assert u == t || rest[u] == rank[u]; }
  }

  /** What is ranked once the tools of `low` are done is ranked above them before. */
  lemma RanksJoin(env: Env, done: set<string>, more: set<string>, low: map<string, nat>, high: map<string, nat>)
    returns (rank: map<string, nat>)
    requires Ranking(env, done, low) && Ranking(env, more, high)
    requires more - done <= low.Keys && (more - done) !! env.constraints.excluded
    ensures Ranking(env, done, rank) && rank.Keys == low.Keys + high.Keys
  {
    var bound := RanksAreBounded(low);
    rank := map t | t in low.Keys + high.Keys :: if t in low then low[t] else bound + high[t];
    forall t | t in rank ensures RankedTool(env, done, rank, t) {
      if t in low {
        assert RankedTool(env, done, low, t);
      } else {
        assert RankedTool(env, more, high, t);
        forall dep | Missing(env, done, t, dep)
          ensures dep in rank && rank[dep] < rank[t] && dep !in env.constraints.excluded
        {
          if dep !in more { assert Missing(env, more, t, dep); }
        }
      }
    }
  }

  lemma SuppliesNothing(env: Env, done: set<string>)
    ensures Supplies(env, done, done)
  {
    assert Ranking(env, done, map[]);
  }

  lemma SuppliesTwice(env: Env, done: set<string>, more: set<string>, most: set<string>)
    requires Supplies(env, done, more) && Supplies(env, more, most)
    ensures Supplies(env, done, most)
  {
    hide Ranking;
    var low: map<string, nat> :| Ranking(env, done, low) && more - done <= low.Keys;
    var high: map<string, nat> :| Ranking(env, more, high) && most - more <= high.Keys;
    var rank := RanksJoin(env, done, more, low, high);
  }

  lemma SuppliesOne(env: Env, done: set<string>, more: set<string>, dep: string)
    requires Supplies(env, done, more) && Insertable(env, done, dep) && dep !in more && dep !in env.constraints.excluded
    ensures Supplies(env, more, more + {dep})
  {
    InsertableSurvives(env, done, more, dep);
    assert (more + {dep}) - more == {dep};
  }

  /** A tool none of whose needs is left over can itself be inserted. */
  lemma SuppliedIsInsertable(env: Env, done: set<string>, more: set<string>, tool: string)
    requires Supplies(env, done, more) && tool in env.tools
    requires forall dep :: Needs(env, tool, dep) ==> dep in more
    ensures Insertable(env, done, tool)
  {
    var rank: map<string, nat> :| Ranking(env, done, rank) && more - done <= rank.Keys;
    if tool !in rank {
      var bound := RanksAreBounded(rank);
      var with := rank[tool := bound];
      forall t | t in with ensures RankedTool(env, done, with, t) {
        if t != tool { assert RankedTool(env, done, rank, t); }
      }
      assert Ranking(env, done, with) && {tool} <= with.Keys;
    } else {
      assert {tool} <= rank.Keys;
    }
  }

  lemma SuppliesRegistered(env: Env, done: set<string>, more: set<string>)
    requires Supplies(env, done, more)
    ensures more - done <= env.tools.Keys
  {
    var rank: map<string, nat> :| Ranking(env, done, rank) && more - done <= rank.Keys;
    forall t | t in more - done ensures t in env.tools { assert RankedTool(env, done, rank, t); }
  }

  /** The search has gone along tools that are missing, each for the one before. */
  predicate FreshPath(done: set<string>, path: seq<string>, tool: string) {
    && (forall i :: 0 < i < |path| ==> path[i] !in done)
    && (path != [] ==> tool !in done)
  }

  lemma {:induction false} RankFallsAlongPath(
      env: Env, done: set<string>, path: seq<string>, tool: string, rank: map<string, nat>, i: nat)
    requires NeedPath(env, path) && Follows(env, path, tool) && FreshPath(done, path, tool)
    requires Ranking(env, done, rank) && i < |path| && path[i] in rank
    ensures tool in rank && rank[tool] < rank[path[i]]
    decreases |path| - i
  {
    assert RankedTool(env, done, rank, path[i]);
    var next := if i + 1 < |path| then path[i + 1] else tool;
    assert Missing(env, done, path[i], next);
    if i + 1 < |path| { RankFallsAlongPath(env, done, path, tool, rank, i + 1); }
  }

  lemma CycleIsNotInsertable(env: Env, done: set<string>, path: seq<string>, tool: string)
    requires NeedPath(env, path) && Follows(env, path, tool) && FreshPath(done, path, tool) && tool in path
    ensures !Insertable(env, done, tool)
  {
    var i :| 0 <= i < |path| && path[i] == tool;
    forall rank: map<string, nat> | Ranking(env, done, rank) && {tool} <= rank.Keys ensures false {
      RankFallsAlongPath(env, done, path, tool, rank, i);
    }
  }

  lemma UnregisteredIsNotInsertable(env: Env, done: set<string>, tool: string)
    requires tool !in env.tools
    ensures !Insertable(env, done, tool)
  {
    assert forall rank: map<string, nat> :: Ranking(env, done, rank) && tool in rank ==> RankedTool(env, done, rank, tool);
  }

  // ----- what is inserted ----------------------------------------------------

  ghost predicate Chain(env: Env, done: set<string>, chain: seq<string>) {
    |chain| >= 2 && forall i :: 0 <= i < |chain| - 1 ==> Missing(env, done, chain[i], chain[i + 1])
  }

  /** `x` is missing for `tool`, directly or for something that is. */
  ghost predicate LeadsTo(env: Env, done: set<string>, tool: string, x: string) {
    exists chain :: Chain(env, done, chain) && chain[0] == tool && chain[|chain| - 1] == x
  }

  /** What is done once all that `tool` misses, and what that misses in turn, is inserted. */
  ghost function Supplied(env: Env, done: set<string>, tool: string): set<string> {
    done + set x | x in env.tools && LeadsTo(env, done, tool, x)
  }

  lemma LeadsToMissing(env: Env, done: set<string>, tool: string, dep: string)
    requires Missing(env, done, tool, dep)
    ensures LeadsTo(env, done, tool, dep)
  {
    assert Chain(env, done, [tool, dep]);
  }

  lemma LeadsThrough(env: Env, done: set<string>, more: set<string>, tool: string, dep: string, x: string)
    requires Missing(env, done, tool, dep) && done <= more && LeadsTo(env, more, dep, x)
    ensures LeadsTo(env, done, tool, x)
  {
    var chain :| Chain(env, more, chain) && chain[0] == dep && chain[|chain| - 1] == x;
    var longer := [tool] + chain;
    forall i | 0 <= i < |longer| - 1 ensures Missing(env, done, longer[i], longer[i + 1]) {
      if i > 0 { assert Missing(env, more, chain[i - 1], chain[i]); }
    }
    assert Chain(env, done, longer);
  }

  /** Inserted tools have their needs met, so nothing that `tool` leads to is left out. */
  lemma {:induction false} ChainIsDone(env: Env, base: set<string>, done: set<string>, c: Build, chain: seq<string>, i: nat)
    requires BuildOk(env, base, c) && base <= done && Chain(env, done, chain) && 0 < i < |chain|
    requires chain[0] in env.tools && forall dep :: Needs(env, chain[0], dep) ==> dep in c.completed
    ensures chain[i] in c.completed
  {
    assert Missing(env, done, chain[i - 1], chain[i]);
    if i > 1 {
      ChainIsDone(env, base, done, c, chain, i - 1);
      assert Missing(env, done, chain[i - 2], chain[i - 1]);
      CompletedIsReady(env, base, c, chain[i - 1], chain[i]);
    }
  }

  lemma CompletedIsReady(env: Env, base: set<string>, c: Build, tool: string, dep: string)
    requires BuildOk(env, base, c) && tool in c.completed && tool !in base && tool in env.tools && Needs(env, tool, dep)
    ensures dep in c.completed
  {
    var j :| 0 <= j < |c.expanded| && RunsTool(c.expanded[j], tool);
    assert Ready(env, base, c.expanded, j);
    if dep !in base {
      var m :| 0 <= m < |c.expanded[..j]| && RunsTool(c.expanded[..j][m], dep);
      assert RunsTool(c.expanded[m], dep);
    }
  }

  lemma BaseIsDone(env: Env, base: set<string>, b: Build)
    requires BuildOk(env, base, b)
    ensures base <= b.completed
  {
  }

  /** What the loop inserted for `tool` is exactly what `tool` leads to. */
  lemma ExactlySupplied(env: Env, base: set<string>, b: Build, tool: string, c: Build)
    requires BuildOk(env, base, b) && BuildOk(env, base, c) && tool in env.tools
    requires Supplies(env, b.completed, c.completed)
    requires forall x :: x in c.completed ==> x in b.completed || LeadsTo(env, b.completed, tool, x)
    requires forall dep :: Needs(env, tool, dep) ==> dep in c.completed
    ensures c.completed == Supplied(env, b.completed, tool)
  {
    hide BuildOk, Supplies;
    assert b.completed <= c.completed by { SuppliesMore(env, b.completed, c.completed); }
    SuppliesRegistered(env, b.completed, c.completed);
    BaseIsDone(env, base, b);
    forall x | LeadsTo(env, b.completed, tool, x) ensures x in c.completed {
      var chain :| Chain(env, b.completed, chain) && chain[0] == tool && chain[|chain| - 1] == x;
      ChainIsDone(env, base, b.completed, c, chain, |chain| - 1);
    }
  }

  lemma SuppliesMore(env: Env, done: set<string>, more: set<string>)
    requires Supplies(env, done, more)
    ensures done <= more
  {
  }

  /** One round of the loop: `dep` was missing, what it needs is in `d`, and `dep` itself comes after. */
  lemma OneDependencyMore(env: Env, done: set<string>, c: set<string>, tool: string, dep: string, d: set<string>)
    requires Supplies(env, done, c) && Missing(env, c, tool, dep) && dep !in env.constraints.excluded
    requires Supplies(env, c, d) && d == Supplied(env, c, dep) && dep !in d && Insertable(env, c, dep)
    requires forall x :: x in c ==> x in done || LeadsTo(env, done, tool, x)
    ensures Supplies(env, done, d + {dep})
    ensures forall x :: x in d + {dep} ==> x in done || LeadsTo(env, done, tool, x)
  {
    hide LeadsTo, Rankable, Insertable;
    SuppliesOne(env, c, d, dep);
    SuppliesTwice(env, c, d, d + {dep});
    SuppliesTwice(env, done, c, d + {dep});
    assert Missing(env, done, tool, dep);
    LeadsToMissing(env, done, tool, dep);
    forall x | x in d && x !in c ensures LeadsTo(env, done, tool, x) { LeadsThrough(env, done, c, tool, dep, x); }
  }

  /** `tool` can be inserted exactly if it and all it leads to are registered, nothing it leads to is excluded, and
      nothing on the way leads back to itself. */
  lemma InsertableExactly(env: Env, done: set<string>, tool: string)
    ensures Insertable(env, done, tool) <==>
      && tool in env.tools && !LeadsTo(env, done, tool, tool)
      && forall x :: LeadsTo(env, done, tool, x) ==>
           x in env.tools && x !in env.constraints.excluded && !LeadsTo(env, done, x, x)
  {
    hide LeadsTo, Insertable;
    if Insertable(env, done, tool) {
      InsertableLeadsDown(env, done, tool, tool);
      forall x | LeadsTo(env, done, tool, x)
        ensures x in env.tools && x !in env.constraints.excluded && !LeadsTo(env, done, x, x)
      {
        InsertableLeadsDown(env, done, tool, x);
      }
    }
    if && tool in env.tools && !LeadsTo(env, done, tool, tool)
       && forall x :: LeadsTo(env, done, tool, x) ==>
            x in env.tools && x !in env.constraints.excluded && !LeadsTo(env, done, x, x)
    {
      CountingRanks(env, done, tool);
    }
  }

  lemma {:induction false} RankFallsAlongChain(env: Env, done: set<string>, rank: map<string, nat>, chain: seq<string>, i: nat)
    requires Ranking(env, done, rank) && Chain(env, done, chain) && 0 < i < |chain| && chain[0] in rank
    ensures chain[i] in rank && rank[chain[i]] < rank[chain[0]] && chain[i] !in env.constraints.excluded
  {
    if i > 1 { RankFallsAlongChain(env, done, rank, chain, i - 1); }
    assert RankedTool(env, done, rank, chain[i - 1]);
    assert Missing(env, done, chain[i - 1], chain[i]);
  }

  lemma InsertableLeadsDown(env: Env, done: set<string>, tool: string, x: string)
    requires Insertable(env, done, tool) && (x == tool || LeadsTo(env, done, tool, x))
    ensures x in env.tools && !LeadsTo(env, done, x, x) && (LeadsTo(env, done, tool, x) ==> x !in env.constraints.excluded)
  {
    hide RankedTool;
    var rank: map<string, nat> :| Ranking(env, done, rank) && {tool} <= rank.Keys;
    forall y, z | LeadsTo(env, done, y, z) && y in rank
      ensures z in rank && rank[z] < rank[y] && z !in env.constraints.excluded
    {
      var chain :| Chain(env, done, chain) && chain[0] == y && chain[|chain| - 1] == z;
      RankFallsAlongChain(env, done, rank, chain, |chain| - 1);
    }
    assert x in rank;
    RankedIsRegistered(env, done, rank, x);
  }

  lemma RankedIsRegistered(env: Env, done: set<string>, rank: map<string, nat>, x: string)
    requires Ranking(env, done, rank) && x in rank
    ensures x in env.tools
  {
    assert RankedTool(env, done, rank, x);
  }

  ghost function Ahead(env: Env, done: set<string>, t: string): set<string> {
    set x | x in env.tools && LeadsTo(env, done, t, x)
  }

  /** Each tool ranked by how many it leads to. */
  lemma CountingRanks(env: Env, done: set<string>, tool: string)
    requires tool in env.tools && !LeadsTo(env, done, tool, tool)
    requires forall x :: LeadsTo(env, done, tool, x) ==>
               x in env.tools && x !in env.constraints.excluded && !LeadsTo(env, done, x, x)
    ensures Insertable(env, done, tool)
  {
    hide LeadsTo;
    var rank: map<string, nat> := map t | t in Ahead(env, done, tool) + {tool} :: |Ahead(env, done, t)|;
    forall t | t in rank ensures RankedTool(env, done, rank, t) {
      forall dep | Missing(env, done, t, dep)
        ensures dep in rank && rank[dep] < rank[t] && dep !in env.constraints.excluded
      {
        LeadsToMissing(env, done, t, dep);
        if t != tool { LeadsTwice(env, done, tool, t, dep); }
        forall x | x in Ahead(env, done, dep) ensures x in Ahead(env, done, t) { LeadsThrough(env, done, done, t, dep, x); }
        assert dep in Ahead(env, done, t) && dep !in Ahead(env, done, dep);
        SubsetCount(Ahead(env, done, dep), Ahead(env, done, t) - {dep});
      }
    }
    assert Ranking(env, done, rank) && {tool} <= rank.Keys;
  }

  lemma LeadsTwice(env: Env, done: set<string>, x: string, y: string, z: string)
    requires LeadsTo(env, done, x, y) && LeadsTo(env, done, y, z)
    ensures LeadsTo(env, done, x, z)
  {
    var a :| Chain(env, done, a) && a[0] == x && a[|a| - 1] == y;
    var b :| Chain(env, done, b) && b[0] == y && b[|b| - 1] == z;
    var c := a + b[1..];
    forall i | 0 <= i < |c| - 1 ensures Missing(env, done, c[i], c[i + 1]) {
      if i < |a| - 1 {
        assert Missing(env, done, a[i], a[i + 1]);
      } else {
        assert Missing(env, done, b[i - |a| + 1], b[i - |a| + 2]);
      }
    }
    assert Chain(env, done, c);
  }

  /** The tools that `c` has completed and `b` has not are those it lists as inserted besides. */
  ghost predicate ListsInserted(b: Build, c: Build) {
    Elements(c.inserted) == Elements(b.inserted) + (c.completed - b.completed)
  }

  lemma ListsNothing(b: Build)
    ensures ListsInserted(b, b)
  {
  }

  lemma ListsOneMore(b: Build, c: Build, d: Build, e: Build, dep: string)
    requires ListsInserted(b, c) && ListsInserted(c, d) && b.completed <= c.completed <= d.completed && dep !in d.completed
    requires e.completed == d.completed + {dep} && e.inserted == d.inserted + [dep]
    ensures ListsInserted(b, e)
  {
    assert Elements(e.inserted) == Elements(d.inserted) + {dep};
  }

  /** Appends, depth first, every step that `tool` needs and nothing provides yet. */
  method AppendPrerequisites(env: Env, ghost base: set<string>, b: Build, tool: string, path: seq<string>)
    returns (r: Outcome<Build, Fault>)
    requires forall name :: name in env.tools ==> env.tools[name].name == name
    requires BuildOk(env, base, b) && NeedPath(env, path) && Follows(env, path, tool) && FreshPath(b.completed, path, tool)
    ensures r.Ok? <==> Insertable(env, b.completed, tool)
    ensures r.Ok? ==> BuildOk(env, base, r.value) && Inserts(env, b, r.value) && tool in env.tools && tool !in path
    ensures r.Ok? ==> r.value.completed == Supplied(env, b.completed, tool) && Supplies(env, b.completed, r.value.completed)
    ensures r.Ok? ==> forall dep :: Needs(env, tool, dep) ==> dep in r.value.completed
    ensures r.Ok? ==> ListsInserted(b, r.value) && r.value.lowered == b.lowered
    ensures r.Ok? ==> forall t :: t in path + [tool] && t in r.value.completed ==> t in b.completed
    ensures r.Fail? && r.fault.PrerequisiteCycle? ==> IsCycle(env, r.fault.trail)
    ensures r.Fail? ==> r.fault.PrerequisiteCycle? || r.fault.UnavailableTool? || r.fault.ExcludedPrerequisite?
    decreases |env.tools| - |path|
  {
    hide *;
    if tool in path {
      PathClosesCycle(env, path, tool);
      CycleIsNotInsertable(env, b.completed, path, tool);
      return Fail(PrerequisiteCycle(path + [tool]));
    }
    if tool !in env.tools {
      UnregisteredIsNotInsertable(env, b.completed, tool);
      return Fail(UnavailableTool);
    }
    PathGrows(env, path, tool);
    InsertsNothing(env, b);
    ListsNothing(b);
    SuppliesNothing(env, b.completed);
    var c := b;
    var needed := env.tools[tool].prerequisites;
    var i := 0;
    while i < |needed|
      invariant i <= |needed| && BuildOk(env, base, c) && Inserts(env, b, c) && Supplies(env, b.completed, c.completed)
      invariant ListsInserted(b, c) && c.lowered == b.lowered
      invariant forall k :: 0 <= k < i && (tool, needed[k]) !in env.constraints.waived ==> needed[k] in c.completed
      invariant forall t :: t in path + [tool] && t in c.completed ==> t in b.completed
      invariant forall x :: x in c.completed ==> x in b.completed || LeadsTo(env, b.completed, tool, x)
    {
      var dep := needed[i];
      if dep !in c.completed && (tool, dep) !in env.constraints.waived {
        MissingIs(env, c.completed, tool, dep);
        SuppliesMore(env, b.completed, c.completed);
        if dep in env.constraints.excluded {
          InsertableBelow(env, b.completed, c.completed, tool, dep);
          return Fail(ExcludedPrerequisite);
        }
        FreshPathGrows(b.completed, c.completed, path, tool, dep);
        var deeper := AppendPrerequisites(env, base, c, dep, path + [tool]);
        if deeper.Fail? {
          InsertableBelow(env, b.completed, c.completed, tool, dep);
          return deeper;
        }
        var d := deeper.value;
        assert dep in (path + [tool]) + [dep];
        // The dependency is still missing here: had the recursion inserted it, it would have closed a cycle.
        assert dep !in d.completed;
        var id := FindStepId("host-prerequisite-" + dep + "-" + Decimal.Digits(d.sequence + 1), d.ids);
        var e := Build(d.expanded + [HostStep(env.tools[dep], id, tool)], d.completed + {dep},
                       d.inserted + [dep], d.lowered, d.ids + {id}, d.sequence + 1);
        InsertingIsOk(env, base, d, e, dep, id, tool);
        InsertsTwice(env, c, d, e);
        InsertsTwice(env, b, c, e);
        CompletedGrows(env, c, d);
        CompletedGrows(env, c, e);
        ListsOneMore(b, c, d, e, dep);
        OneDependencyMore(env, b.completed, c.completed, tool, dep, d.completed);
        forall t | t in path + [tool] && t in e.completed ensures t in b.completed {
          assert t in (path + [tool]) + [dep];
        }
        c := e;
      }
      i := i + 1;
    }
    NeedsAreMet(env, tool, c.completed);
    SuppliedIsInsertable(env, b.completed, c.completed, tool);
    ExactlySupplied(env, base, b, tool, c);
    return Ok(c);
  }

  lemma MissingIs(env: Env, done: set<string>, tool: string, dep: string)
    requires tool in env.tools && dep in env.tools[tool].prerequisites && dep !in done && (tool, dep) !in env.constraints.waived
    ensures Missing(env, done, tool, dep) && Needs(env, tool, dep)
  {
  }

  lemma NeedsAreMet(env: Env, tool: string, done: set<string>)
    requires tool in env.tools
    requires forall dep :: dep in env.tools[tool].prerequisites && (tool, dep) !in env.constraints.waived ==> dep in done
    ensures forall dep :: Needs(env, tool, dep) ==> dep in done
  {
  }

  lemma FreshPathGrows(done: set<string>, more: set<string>, path: seq<string>, tool: string, dep: string)
    requires FreshPath(done, path, tool) && dep !in more
    requires forall t :: t in path + [tool] && t in more ==> t in done
    ensures FreshPath(more, path + [tool], dep)
  {
    var longer := path + [tool];
    forall i | 0 < i < |longer| ensures longer[i] !in more { assert longer[i] in path + [tool]; }
  }

  lemma CompletedGrows(env: Env, a: Build, b: Build)
    requires Inserts(env, a, b)
    ensures a.completed <= b.completed
  {
  }

  // ----- when tools can run ---------------------------------------------------

  /** What is done after running `names` in order, each behind all it is missing. */
  ghost function DoneAfter(env: Env, done: set<string>, names: seq<string>): set<string> {
    if names == [] then done
    else
      var (init, last) := (names[..|names| - 1], names[|names| - 1]);
      Supplied(env, DoneAfter(env, done, init), last) + {last}
  }

  /** What is inserted meanwhile. */
  ghost function InsertedBy(env: Env, done: set<string>, names: seq<string>): set<string> {
    if names == [] then {}
    else
      var (init, last) := (names[..|names| - 1], names[|names| - 1]);
      var before := DoneAfter(env, done, init);
      InsertedBy(env, done, init) + (Supplied(env, before, last) - before)
  }

  /** Whatever each of `names` is still missing when its turn comes can be inserted. */
  ghost predicate CanRun(env: Env, done: set<string>, names: seq<string>) {
    forall i :: 0 <= i < |names| ==> Insertable(env, DoneAfter(env, done, names[..i]), names[i])
  }

  lemma RunsNext(env: Env, done: set<string>, names: seq<string>, i: nat)
    requires i < |names|
    ensures DoneAfter(env, done, names[..i + 1]) == Supplied(env, DoneAfter(env, done, names[..i]), names[i]) + {names[i]}
    ensures InsertedBy(env, done, names[..i + 1]) ==
      InsertedBy(env, done, names[..i]) + (Supplied(env, DoneAfter(env, done, names[..i]), names[i]) - DoneAfter(env, done, names[..i]))
    ensures CanRun(env, done, names) ==> Insertable(env, DoneAfter(env, done, names[..i]), names[i])
    ensures Insertable(env, DoneAfter(env, done, names[..i]), names[i]) && CanRun(env, done, names[..i]) ==>
      CanRun(env, done, names[..i + 1])
  {
    hide Insertable, Supplied;
    assert names[..i + 1][..i] == names[..i];
    forall k | 0 <= k < i ensures names[..i][..k] == names[..i + 1][..k] == names[..k] { }
    if Insertable(env, DoneAfter(env, done, names[..i]), names[i]) && CanRun(env, done, names[..i]) {
      var longer := names[..i + 1];
      forall k | 0 <= k < |longer| ensures Insertable(env, DoneAfter(env, done, longer[..k]), longer[k]) {
        if k < i { assert Insertable(env, DoneAfter(env, done, names[..i][..k]), names[..i][k]); }
      }
    }
  }

  lemma NothingRuns(env: Env, done: set<string>, names: seq<string>)
    ensures DoneAfter(env, done, names[..0]) == done && InsertedBy(env, done, names[..0]) == {} && CanRun(env, done, names[..0])
  {
  }

  /** The names not done yet, in order. */
  function Remaining(names: seq<string>, done: set<string>): (left: seq<string>)
    ensures forall name :: name in left <==> name in names && name !in done
  {
    if names == [] then []
    else
      var (init, last) := (names[..|names| - 1], names[|names| - 1]);
      assert names == init + [last];
      Remaining(init, done) + (if last in done then [] else [last])
  }

  /** The tools that a capability with these members runs from here, or why it runs none. */
  function CapabilityTools(members: seq<Registration>, done: set<string>): Outcome<seq<string>, Fault> {
    var order := ToolOrder(members);
    if order.Fail? then order
    else if Remaining(order.value, done) == [] then Fail(RedundantCapability)
    else Ok(Remaining(order.value, done))
  }

  /** The tools that a planner's step stands for, or why it stands for none. */
  function StepTools(env: Env, regs: seq<Registration>, done: set<string>, step: WorkStep)
    : Outcome<seq<string>, Fault>
  {
    if !step.executor.Tool? then Ok([])
    else if |step.capabilities| != 1 then Fail(NotOneTool)
    else
      var selected := step.capabilities[0];
      if selected in env.tools then
        if selected !in env.enabled then Fail(DisabledTool)
        else if env.tools[selected].capability.Some? then Fail(PrivateTool)
        else Ok([selected])
      else if Members(regs, env.enabled, selected) == [] then Fail(UnavailableCapability)
      else CapabilityTools(Members(regs, env.enabled, selected), done)
  }

  /** The tools that a step runs because it names their capability. */
  function LoweredBy(env: Env, regs: seq<Registration>, done: set<string>, step: WorkStep): seq<string> {
    var names := StepTools(env, regs, done, step);
    if names.Ok? && step.executor.Tool? && step.capabilities[0] !in env.tools then names.value else []
  }

  ghost function DoneAfterSteps(env: Env, regs: seq<Registration>, done: set<string>, steps: seq<WorkStep>)
    : set<string>
  {
    if steps == [] then done
    else
      var (init, last) := (steps[..|steps| - 1], steps[|steps| - 1]);
      var before := DoneAfterSteps(env, regs, done, init);
      var names := StepTools(env, regs, before, last);
      if names.Ok? then DoneAfter(env, before, names.value) else before
  }

  ghost function InsertedBySteps(env: Env, regs: seq<Registration>, done: set<string>, steps: seq<WorkStep>): set<string> {
    if steps == [] then {}
    else
      var (init, last) := (steps[..|steps| - 1], steps[|steps| - 1]);
      var before := DoneAfterSteps(env, regs, done, init);
      var names := StepTools(env, regs, before, last);
      InsertedBySteps(env, regs, done, init) + if names.Ok? then InsertedBy(env, before, names.value) else {}
  }

  ghost function LoweredBySteps(env: Env, regs: seq<Registration>, done: set<string>, steps: seq<WorkStep>): seq<string> {
    if steps == [] then []
    else
      var (init, last) := (steps[..|steps| - 1], steps[|steps| - 1]);
      LoweredBySteps(env, regs, done, init) + LoweredBy(env, regs, DoneAfterSteps(env, regs, done, init), last)
  }

  /** When its turn comes, step `i` stands for tools that can run. */
  ghost predicate CompilesAt(env: Env, regs: seq<Registration>, done: set<string>, steps: seq<WorkStep>, i: nat)
    requires i < |steps|
  {
    var before := DoneAfterSteps(env, regs, done, steps[..i]);
    var names := StepTools(env, regs, before, steps[i]);
    names.Ok? && CanRun(env, before, names.value)
  }

  /** Registrations agree on capabilities, and every step stands for tools that can run when its turn comes. */
  ghost predicate CanCompile(env: Env, regs: seq<Registration>, done: set<string>, steps: seq<WorkStep>) {
    CapabilitiesAgree(regs, env.enabled) && forall i :: 0 <= i < |steps| ==> CompilesAt(env, regs, done, steps, i)
  }

  lemma StepsNext(env: Env, regs: seq<Registration>, done: set<string>, steps: seq<WorkStep>, i: nat)
    requires i < |steps|
    ensures var before := DoneAfterSteps(env, regs, done, steps[..i]);
      var names := StepTools(env, regs, before, steps[i]);
      && DoneAfterSteps(env, regs, done, steps[..i + 1]) == (if names.Ok? then DoneAfter(env, before, names.value) else before)
      && InsertedBySteps(env, regs, done, steps[..i + 1]) ==
           InsertedBySteps(env, regs, done, steps[..i]) + (if names.Ok? then InsertedBy(env, before, names.value) else {})
      && LoweredBySteps(env, regs, done, steps[..i + 1]) ==
           LoweredBySteps(env, regs, done, steps[..i]) + LoweredBy(env, regs, before, steps[i])
  {
    hide StepTools, DoneAfter, InsertedBy, LoweredBy;
    assert steps[..i + 1][..i] == steps[..i];
  }

  // ----- what is inserted, and what runs twice --------------------------------

  /** `x` is registered and inserted when the turn of `names[j]` comes. */
  ghost predicate InsertedFor(env: Env, done: set<string>, names: seq<string>, j: nat, x: string)
    requires j < |names|
  {
    x in env.tools && LeadsTo(env, DoneAfter(env, done, names[..j]), names[j], x)
  }

  lemma LedToIsMissing(env: Env, done: set<string>, tool: string, x: string)
    requires LeadsTo(env, done, tool, x)
    ensures x !in done
  {
    var chain :| Chain(env, done, chain) && chain[0] == tool && chain[|chain| - 1] == x;
    assert Missing(env, done, chain[|chain| - 2], chain[|chain| - 1]);
  }

  /** Inserted is exactly what some tool leads to when its turn comes. */
  lemma {:induction false} InsertedByExactly(env: Env, done: set<string>, names: seq<string>, x: string)
    ensures x in InsertedBy(env, done, names) <==> exists j :: 0 <= j < |names| && InsertedFor(env, done, names, j, x)
    decreases |names|
  {
    hide LeadsTo, DoneAfter;
    if names != [] {
      var (init, n) := (names[..|names| - 1], |names| - 1);
      InsertedByExactly(env, done, init, x);
      forall j | 0 <= j < n ensures InsertedFor(env, done, init, j, x) == InsertedFor(env, done, names, j, x) {
        assert init[..j] == names[..j];
      }
      if LeadsTo(env, DoneAfter(env, done, init), names[n], x) { LedToIsMissing(env, DoneAfter(env, done, init), names[n], x); }
      assert InsertedFor(env, done, names, n, x) <==>
        x in Supplied(env, DoneAfter(env, done, init), names[n]) - DoneAfter(env, done, init);
      if x in InsertedBy(env, done, init) {
        var j :| 0 <= j < |init| && InsertedFor(env, done, init, j, x);
        assert InsertedFor(env, done, names, j, x);
      }
    }
  }

  lemma LeadsWithLess(env: Env, done: set<string>, more: set<string>, tool: string, x: string)
    requires done <= more && LeadsTo(env, more, tool, x)
    ensures LeadsTo(env, done, tool, x)
  {
    var chain :| Chain(env, more, chain) && chain[0] == tool && chain[|chain| - 1] == x;
    forall i | 0 <= i < |chain| - 1 ensures Missing(env, done, chain[i], chain[i + 1]) {
      assert Missing(env, more, chain[i], chain[i + 1]);
    }
    assert Chain(env, done, chain);
  }

  lemma {:induction false} DoneGrows(env: Env, done: set<string>, names: seq<string>)
    ensures done <= DoneAfter(env, done, names) && Elements(names) <= DoneAfter(env, done, names)
    decreases |names|
  {
    if names != [] {
      var init := names[..|names| - 1];
      DoneGrows(env, done, init);
      assert names == init + [names[|names| - 1]];
    }
  }

  /** What a tool that ran, or was inserted, is missing is done as well. */
  lemma {:induction false} DoneIsClosed(env: Env, done: set<string>, names: seq<string>, y: string, z: string)
    requires Missing(env, done, y, z) && z in env.tools
    requires y in names || (y in DoneAfter(env, done, names) && y !in done)
    ensures z in DoneAfter(env, done, names)
    decreases |names|
  {
    hide LeadsTo;
    if names != [] {
      var (init, last) := (names[..|names| - 1], names[|names| - 1]);
      var before := DoneAfter(env, done, init);
      assert names == init + [last];
      if y in init || (y in before && y !in done) {
        DoneIsClosed(env, done, init, y, z);
      } else if z !in before {
        LeadsToMissing(env, before, y, z);
        if y != last { LeadsTwice(env, before, last, y, z); }
      }
    }
  }

  lemma {:induction false} ChainGetsDone(env: Env, done: set<string>, names: seq<string>, chain: seq<string>, k: nat)
    requires Chain(env, done, chain) && chain[0] in names && chain[|chain| - 1] in env.tools && 0 < k < |chain|
    ensures chain[k] in DoneAfter(env, done, names)
    decreases k
  {
    hide DoneAfter;
    assert Missing(env, done, chain[k - 1], chain[k]);
    if k > 1 {
      ChainGetsDone(env, done, names, chain, k - 1);
      assert Missing(env, done, chain[k - 2], chain[k - 1]);
    }
    if k + 1 < |chain| { assert Missing(env, done, chain[k], chain[k + 1]); }
    DoneIsClosed(env, done, names, chain[k - 1], chain[k]);
  }

  /** What is done in the end: what was, what ran, and every registered tool that some of it leads to. */
  lemma {:induction false} DoneAfterExactly(env: Env, done: set<string>, names: seq<string>, x: string)
    requires x in env.tools && x !in done && x !in names
    ensures x in DoneAfter(env, done, names) <==> exists i :: 0 <= i < |names| && LeadsTo(env, done, names[i], x)
  {
    hide LeadsTo, DoneAfter, Chain;
    if x in DoneAfter(env, done, names) { DoneIsLedTo(env, done, names, x); }
    if i :| 0 <= i < |names| && LeadsTo(env, done, names[i], x) {
      LedToGetsDone(env, done, names, i, x);
    }
  }

  lemma LedToGetsDone(env: Env, done: set<string>, names: seq<string>, i: nat, x: string)
    requires x in env.tools && i < |names| && LeadsTo(env, done, names[i], x)
    ensures x in DoneAfter(env, done, names)
  {
    hide DoneAfter;
    var chain :| Chain(env, done, chain) && chain[0] == names[i] && chain[|chain| - 1] == x;
    ChainGetsDone(env, done, names, chain, |chain| - 1);
  }

  lemma {:induction false} DoneIsLedTo(env: Env, done: set<string>, names: seq<string>, x: string)
    requires x in DoneAfter(env, done, names) && x !in done && x !in names
    ensures exists i :: 0 <= i < |names| && LeadsTo(env, done, names[i], x)
    decreases |names|
  {
    hide LeadsTo;
    var (init, last) := (names[..|names| - 1], names[|names| - 1]);
    if x in DoneAfter(env, done, init) {
      DoneIsLedTo(env, done, init, x);
      var i :| 0 <= i < |init| && LeadsTo(env, done, init[i], x);
      assert names[i] == init[i];
    } else {
      DoneGrows(env, done, init);
      LeadsWithLess(env, done, DoneAfter(env, done, init), last, x);
    }
  }

  /** A tool is inserted before its own turn exactly if an earlier one leads to it. */
  lemma RepeatsExactly(env: Env, done: set<string>, names: seq<string>, j: nat)
    requires Distinct(names) && j < |names| && names[j] in env.tools && names[j] !in done
    ensures names[j] in DoneAfter(env, done, names[..j]) <==> exists i :: 0 <= i < j && LeadsTo(env, done, names[i], names[j])
  {
    hide LeadsTo, DoneAfter;
    DoneAfterExactly(env, done, names[..j], names[j]);
    assert forall i :: 0 <= i < j ==> names[..j][i] == names[i];
  }

  /** A tool that runs on its own is inserted as well exactly if an earlier one leads to it. */
  lemma RunsTwiceExactly(env: Env, done: set<string>, names: seq<string>, j: nat)
    requires Distinct(names) && j < |names| && names[j] in env.tools && names[j] !in done && CanRun(env, done, names)
    ensures names[j] in InsertedBy(env, done, names) <==> exists i :: 0 <= i < j && LeadsTo(env, done, names[i], names[j])
  {
    hide LeadsTo, DoneAfter, InsertedBy, CanRun, Insertable;
    var x := names[j];
    RepeatsExactly(env, done, names, j);
    InsertedByExactly(env, done, names, x);
    if x in InsertedBy(env, done, names) {
      var k :| 0 <= k < |names| && InsertedFor(env, done, names, k, x);
      InsertedBefore(env, done, names, k, x);
      InsertedInTurn(env, done, names, k, j);
    } else if x in DoneAfter(env, done, names[..j]) {
      DoneIsInserted(env, done, names, j, x);
    }
  }

  lemma InsertedBefore(env: Env, done: set<string>, names: seq<string>, k: nat, x: string)
    requires k < |names| && InsertedFor(env, done, names, k, x)
    ensures x !in DoneAfter(env, done, names[..k])
    ensures LeadsTo(env, done, names[k], x)
  {
    hide DoneAfter, LeadsTo;
    LedToIsMissing(env, DoneAfter(env, done, names[..k]), names[k], x);
    DoneGrows(env, done, names[..k]);
    LeadsWithLess(env, done, DoneAfter(env, done, names[..k]), names[k], x);
  }

  /** What is inserted in a turn has not had its own: the tool of this turn leads not to itself, those before are done. */
  lemma InsertedInTurn(env: Env, done: set<string>, names: seq<string>, k: nat, j: nat)
    requires k < |names| && j < |names| && CanRun(env, done, names) && InsertedFor(env, done, names, k, names[j])
    ensures k < j
  {
    hide DoneAfter, LeadsTo, Insertable;
    InsertedBefore(env, done, names, k, names[j]);
    if j < k {
      DoneGrows(env, done, names[..k]);
    } else if j == k {
      InsertableExactly(env, DoneAfter(env, done, names[..k]), names[k]);
    }
  }

  /** What is done before a turn was inserted, unless it was done at the start or had its own turn. */
  lemma {:induction false} DoneIsInserted(env: Env, done: set<string>, names: seq<string>, j: nat, x: string)
    requires j <= |names| && x in DoneAfter(env, done, names[..j]) && x !in done && x !in names[..j]
    ensures exists k :: 0 <= k < j && InsertedFor(env, done, names, k, x)
    decreases j
  {
    hide LeadsTo;
    assert j > 0;
    var before := DoneAfter(env, done, names[..j - 1]);
    assert names[..j][..j - 1] == names[..j - 1] && names[..j] == names[..j - 1] + [names[j - 1]];
    if x in before { DoneIsInserted(env, done, names, j - 1, x); }
    else { assert InsertedFor(env, done, names, j - 1, x); }
  }

  lemma {:induction false} RemainingIsDistinct(names: seq<string>, done: set<string>)
    requires Distinct(names)
    ensures Distinct(Remaining(names, done))
    decreases |names|
  {
    if names != [] {
      var (init, last) := (names[..|names| - 1], names[|names| - 1]);
      assert names == init + [last];
      RemainingIsDistinct(init, done);
    }
  }

  /** Different tools of the group. */
  ghost predicate SomeOf(group: map<string, Registration>, ordered: seq<string>) {
    Distinct(ordered) && forall x :: x in ordered ==> x in group
  }

  lemma {:induction false} VisitedIsDistinct(group: map<string, Registration>, name: string, ordered: seq<string>, visiting: set<string>)
    requires name in group && visiting <= group.Keys && SomeOf(group, ordered) && Visited(group, name, ordered, visiting).Ok?
    ensures var r := Visited(group, name, ordered, visiting).value;
      && SomeOf(group, r) && (forall v :: v in visiting && v in r ==> v in ordered)
      && name in r && forall x :: x in ordered ==> x in r
    decreases |group| - |visiting|, 0
  {
    hide SomeOf;
    if name !in ordered && name !in visiting {
      SubsetCount(visiting + {name}, group.Keys);
      VisitedAllAreDistinct(group, group[name].prerequisites, ordered, visiting + {name});
      OneMoreOf(group, VisitedAll(group, group[name].prerequisites, ordered, visiting + {name}).value, name);
    }
  }

  lemma OneMoreOf(group: map<string, Registration>, ordered: seq<string>, name: string)
    requires SomeOf(group, ordered) && name in group && name !in ordered
    ensures SomeOf(group, ordered + [name])
  {
  }

  lemma {:induction false} VisitedAllAreDistinct(
      group: map<string, Registration>, names: seq<string>, ordered: seq<string>, visiting: set<string>)
    requires visiting <= group.Keys && SomeOf(group, ordered) && VisitedAll(group, names, ordered, visiting).Ok?
    ensures var r := VisitedAll(group, names, ordered, visiting).value;
      && SomeOf(group, r) && (forall v :: v in visiting && v in r ==> v in ordered)
      && (forall x :: x in ordered ==> x in r) && forall x :: x in names && x in group ==> x in r
    decreases |group| - |visiting|, 1 + |names|
  {
    hide SomeOf;
    if names != [] {
      var (init, last) := (names[..|names| - 1], names[|names| - 1]);
      assert names == init + [last];
      VisitedAllAreDistinct(group, init, ordered, visiting);
      if last in group { VisitedIsDistinct(group, last, VisitedAll(group, init, ordered, visiting).value, visiting); }
    }
  }

  /** The tools that a capability runs are different members, and none is done. */
  lemma CapabilityToolsAreDistinct(members: seq<Registration>, done: set<string>)
    requires CapabilityTools(members, done).Ok?
    ensures var names := CapabilityTools(members, done).value;
      Distinct(names) && forall name :: name in names <==> name in ByName(members) && name !in done
  {
    hide ByName, Visited, VisitedAll, Remaining;
    VisitedAllAreDistinct(ByName(members), MemberNames(members), [], {});
    RemainingIsDistinct(ToolOrder(members).value, done);
    forall name | name in ByName(members) ensures name in MemberNames(members) {
      var k :| 0 <= k < |members| && members[k] == ByName(members)[name];
      assert MemberNames(members)[k] == name;
    }
  }

  /** The enabled tools registered under a capability. */
  ghost predicate IsOf(env: Env, regs: seq<Registration>, capability: string, tool: string) {
    exists m :: m in regs && m.name == tool && tool in env.enabled && m.capability.Some? && m.capability.value.name == capability
  }

  /** What a planner's step stands for: a model step for no tool; a tool step for the one public, enabled tool it names, or for
      every enabled tool of the capability it names that is not done, each once; or why it stands for nothing. */
  lemma StepStandsFor(env: Env, regs: seq<Registration>, done: set<string>, step: WorkStep)
    requires env.tools == ByName(regs)
    ensures var names := StepTools(env, regs, done, step);
      if step.executor.Model? then names == Ok([])
      else if |step.capabilities| != 1 then names == Fail(NotOneTool)
      else
        var selected := step.capabilities[0];
        if selected in env.tools then
          names == if selected !in env.enabled then Fail(DisabledTool)
                   else if env.tools[selected].capability.Some? then Fail(PrivateTool)
                   else Ok([selected])
        else
          && (names == Fail(UnavailableCapability) <==> !exists tool :: IsOf(env, regs, selected, tool))
          && (names.Ok? ==>
                && names.value != [] && Distinct(names.value)
                && forall tool :: tool in names.value <==> IsOf(env, regs, selected, tool) && tool !in done)
          && (names == Fail(RedundantCapability) ==> forall tool :: IsOf(env, regs, selected, tool) ==> tool in done)
          && (names.Fail? ==> names.fault.UnavailableCapability? || names.fault.RedundantCapability? || names.fault.CapabilityCycle?)
  {
    if step.executor.Tool? && |step.capabilities| == 1 && step.capabilities[0] !in env.tools {
      var (selected, members) := (step.capabilities[0], Members(regs, env.enabled, step.capabilities[0]));
      MembersAre(env, regs, selected);
      hide Members, IsOf, ByName, CapabilityTools;
      if members != [] {
        CapabilityStandsFor(members, done);
        assert members[0] in members;
      }
    }
  }

  lemma MembersAre(env: Env, regs: seq<Registration>, capability: string)
    ensures var members := Members(regs, env.enabled, capability);
      && (forall tool :: tool in ByName(members) <==> IsOf(env, regs, capability, tool))
      && (members == [] <==> !exists tool :: IsOf(env, regs, capability, tool))
  {
    var members := Members(regs, env.enabled, capability);
    forall tool | IsOf(env, regs, capability, tool) ensures tool in ByName(members) {
      var m :| m in regs && m.name == tool && tool in env.enabled && m.capability.Some? && m.capability.value.name == capability;
      assert m in members;
    }
    forall tool | tool in ByName(members) ensures IsOf(env, regs, capability, tool) { assert ByName(members)[tool] in members; }
    if members != [] { assert members[0] in members && IsOf(env, regs, capability, members[0].name); }
  }

  lemma CapabilityStandsFor(members: seq<Registration>, done: set<string>)
    ensures var names := CapabilityTools(members, done);
      && (names.Ok? ==>
            && names.value != [] && Distinct(names.value)
            && forall tool :: tool in names.value <==> tool in ByName(members) && tool !in done)
      && (names == Fail(RedundantCapability) ==> forall tool :: tool in ByName(members) ==> tool in done)
      && (names.Fail? ==> names.fault.RedundantCapability? || names.fault.CapabilityCycle?)
  {
    hide ByName, Visited, VisitedAll, Remaining;
    if CapabilityTools(members, done).Ok? { CapabilityToolsAreDistinct(members, done); }
    CapabilityToolsAre(members, done);
    if ToolOrder(members).Ok? {
      VisitedAllAreDistinct(ByName(members), MemberNames(members), [], {});
      forall name | name in ByName(members) ensures name in ToolOrder(members).value {
        var k :| 0 <= k < |members| && members[k] == ByName(members)[name];
        assert MemberNames(members)[k] == name;
      }
      if Remaining(ToolOrder(members).value, done) == [] {
        forall tool | tool in ByName(members) ensures tool in done {
          assert tool in Remaining(ToolOrder(members).value, done) <==> tool in ToolOrder(members).value && tool !in done;
        }
      }
    }
  }

  /** Lowering a capability schedules a tool twice, inserted and then on its own, exactly if an earlier of its tools leads
      to it. */
  lemma LoweringRepeatsExactly(env: Env, members: seq<Registration>, done: set<string>, j: nat)
    requires CapabilityTools(members, done).Ok? && forall m :: m in members ==> m.name in env.tools
    requires var names := CapabilityTools(members, done).value; j < |names| && CanRun(env, done, names)
    ensures var names := CapabilityTools(members, done).value;
      names[j] in InsertedBy(env, done, names) <==> exists i :: 0 <= i < j && LeadsTo(env, done, names[i], names[j])
  {
    hide CapabilityTools, LeadsTo, CanRun, InsertedBy, ByName;
    CapabilityToolsAreDistinct(members, done);
    var names := CapabilityTools(members, done).value;
    assert names[j] in names;
    RunsTwiceExactly(env, done, names, j);
  }

  const PAIR := Capability("pair", "")
  const FIRST := Registration("a", ["x"], Some(PAIR), "", ReadMode, ReadRisk)
  const SECOND := Registration("b", [], Some(PAIR), "", ReadMode, ReadRisk)
  const BETWEEN := Registration("x", ["b"], None, "", ReadMode, ReadRisk)
  const TOOLS := map["a" := FIRST, "b" := SECOND, "x" := BETWEEN]

  const GROUP := map["a" := FIRST, "b" := SECOND]

  lemma PairNames()
    ensures ByName([FIRST, SECOND]) == GROUP && MemberNames([FIRST, SECOND]) == ["a", "b"]
  {
    assert [FIRST, SECOND][..1] == [FIRST] && [FIRST][..0] == [];
    assert ByName([FIRST]) == map["a" := FIRST];
  }

  lemma FirstVisit()
    ensures Visited(GROUP, "a", [], {}) == Ok(["a"])
  {
    var none: set<string>, a: set<string> := {}, {"a"};
    assert none + a == a && ["x"][..0] == [] && "x"[0] != "a"[0] && "x"[0] != "b"[0];
    assert VisitedAll(GROUP, ["x"], [], a) == Ok([]);
    assert Visited(GROUP, "a", [], none) == Ok([] + ["a"]) && [] + ["a"] == ["a"];
  }

  lemma SecondVisit()
    ensures Visited(GROUP, "b", ["a"], {}) == Ok(["a", "b"])
  {
    var none: set<string>, b: set<string> := {}, {"b"};
    assert none + b == b && "b"[0] != "a"[0];
    assert VisitedAll(GROUP, [], ["a"], b) == Ok(["a"]);
    assert Visited(GROUP, "b", ["a"], none) == Ok(["a"] + ["b"]) && ["a"] + ["b"] == ["a", "b"];
  }

  lemma PairOrder()
    ensures CapabilityTools([FIRST, SECOND], {}) == Ok(["a", "b"])
  {
    hide Visited, ByName, MemberNames;
    PairNames();
    FirstVisit();
    SecondVisit();
    assert ["a", "b"][..1] == ["a"] && ["a"][..0] == [];
    assert VisitedAll(GROUP, ["a"], [], {}) == Ok(["a"]);
    assert VisitedAll(GROUP, ["a", "b"], [], {}) == Ok(["a", "b"]);
    assert Remaining(["a"], {}) == ["a"];
    assert Remaining(["a", "b"], {}) == ["a"] + ["b"] && ["a"] + ["b"] == ["a", "b"];
  }

  ghost predicate PairEnv(env: Env) { env.tools == TOOLS && env.constraints == Constraints({}, {}, {}, {}) }

  lemma PairIsInsertable(env: Env)
    requires PairEnv(env)
    ensures Insertable(env, {}, "a") && Insertable(env, {}, "b")
  {
    var rank: map<string, nat> := map["a" := 2, "x" := 1, "b" := 0];
    forall t | t in rank ensures RankedTool(env, {}, rank, t) { }
    assert Ranking(env, {}, rank);
    assert {"a"} <= rank.Keys && {"b"} <= rank.Keys;
  }

  lemma PairLeads(env: Env)
    requires PairEnv(env)
    ensures LeadsTo(env, {}, "a", "b")
  {
    hide LeadsTo;
    assert Missing(env, {}, "a", "x") && Missing(env, {}, "x", "b");
    LeadsToMissing(env, {}, "a", "x");
    LeadsToMissing(env, {}, "x", "b");
    LeadsTwice(env, {}, "a", "x", "b");
  }

  /** Of two tools of a capability the first needs one outside it, which needs the second: that one is scheduled twice. */
  lemma LoweringCanRepeat(env: Env)
    requires PairEnv(env)
    ensures CapabilityTools([FIRST, SECOND], {}) == Ok(["a", "b"])
    ensures CanRun(env, {}, ["a", "b"]) && "b" in InsertedBy(env, {}, ["a", "b"])
  {
    hide LeadsTo, Insertable, InsertedBy, Supplied, CapabilityTools;
    PairOrder();
    PairIsInsertable(env);
    PairLeads(env);
    var names := ["a", "b"];
    assert names[..0] == [] && DoneAfter(env, {}, []) == {};
    InsertableSurvives(env, {}, DoneAfter(env, {}, names[..1]), "b");
    assert CanRun(env, {}, names);
    assert names[0] == "a" && names[1] == "b" && "a"[0] != "b"[0];
    RunsTwiceExactly(env, {}, names, 1);
  }

  /** A step of the plan stands for a tool for which `x` is inserted when its turn comes. */
  ghost predicate InsertedAt(env: Env, regs: seq<Registration>, done: set<string>, steps: seq<WorkStep>, i: nat, x: string)
    requires i < |steps|
  {
    var before := DoneAfterSteps(env, regs, done, steps[..i]);
    var names := StepTools(env, regs, before, steps[i]);
    names.Ok? && exists j :: 0 <= j < |names.value| && InsertedFor(env, before, names.value, j, x)
  }

  lemma {:induction false} InsertedByStepsExactly(
      env: Env, regs: seq<Registration>, done: set<string>, steps: seq<WorkStep>, n: nat, x: string)
    requires n <= |steps|
    ensures x in InsertedBySteps(env, regs, done, steps[..n]) <==> exists i :: 0 <= i < n && InsertedAt(env, regs, done, steps, i, x)
    decreases n
  {
    hide InsertedFor, DoneAfterSteps, StepTools, InsertedBy;
    if n > 0 {
      StepsNext(env, regs, done, steps, n - 1);
      InsertedByStepsExactly(env, regs, done, steps, n - 1, x);
      var before := DoneAfterSteps(env, regs, done, steps[..n - 1]);
      var names := StepTools(env, regs, before, steps[n - 1]);
      if names.Ok? { InsertedByExactly(env, before, names.value, x); }
      assert InsertedAt(env, regs, done, steps, n - 1, x) <==> names.Ok? && x in InsertedBy(env, before, names.value);
    }
  }

  // ----- lowering -----------------------------------------------------------

  function ToExecution(step: WorkStep): TaskStep {
    TaskStep(step.id, step.title, step.kind, step.executor, Pending, step.risk, step.capabilities, step.dependsOn,
             step.description, None, None, false, None)
  }

  function LoweredStep(step: WorkStep, reg: Registration, id: string, dependsOn: seq<string>, terminal: bool, selected: string)
    : TaskStep
  {
    TaskStep(id, if terminal then step.title else reg.title, step.kind, step.executor, Pending, Some(reg.risk),
             [reg.name], dependsOn,
             if terminal then step.description else Some("Host-private execution protocol for " + selected),
             None, None, !terminal, Some(selected))
  }

  /** Step `k` depends on the step with id `d`, directly or through earlier steps. */
  ghost predicate Reaches(steps: seq<TaskStep>, k: nat, d: string)
    requires k < |steps|
    decreases k
  {
    d in steps[k].dependsOn ||
    exists j :: 0 <= j < k && steps[j].id in steps[k].dependsOn && Reaches(steps, j, d)
  }

  lemma {:induction false} ReachesInLonger(steps: seq<TaskStep>, longer: seq<TaskStep>, k: nat, d: string)
    requires steps <= longer && k < |steps| && Reaches(steps, k, d)
    ensures Reaches(longer, k, d)
    decreases k
  {
    if d !in steps[k].dependsOn {
      var j :| 0 <= j < k && steps[j].id in steps[k].dependsOn && Reaches(steps, j, d);
      ReachesInLonger(steps, longer, j, d);
      assert longer[j].id in longer[k].dependsOn;
    }
  }

  /** Step `k` still waits for everything the planner's step waits for. */
  ghost predicate ReachesAll(steps: seq<TaskStep>, k: nat, dependsOn: seq<string>)
    requires k < |steps|
  {
    forall d :: d in dependsOn ==> Reaches(steps, k, d)
  }

  lemma ReachesAllInLonger(steps: seq<TaskStep>, longer: seq<TaskStep>, k: nat, dependsOn: seq<string>)
    requires steps <= longer && k < |steps| && ReachesAll(steps, k, dependsOn)
    ensures ReachesAll(longer, k, dependsOn)
  {
    forall d | d in dependsOn ensures Reaches(longer, k, d) { ReachesInLonger(steps, longer, k, d); }
  }

  /** The visible form of a planner's step: same identity and text, its own tool or its capability's last. */
  ghost predicate Shows(step: WorkStep, shown: TaskStep) {
    && shown.id == step.id && shown.title == step.title && shown.kind == step.kind && shown.executor == step.executor
    && shown.description == step.description && shown.status.Pending? && !shown.hidden
    && (if shown.capability.None? then shown == ToExecution(step)
        else step.executor.Tool? && step.capabilities == [shown.capability.value] && |shown.tools| == 1)
  }

  /** The visible steps among `steps`, in order, are the planner's steps `planned`. */
  ghost predicate ShowsPlan(planned: seq<WorkStep>, steps: seq<TaskStep>, places: seq<nat>) {
    && |places| == |planned|
    && (forall i :: 0 <= i < |places| ==> places[i] < |steps| && Shows(planned[i], steps[places[i]]))
    && (forall i, j :: 0 <= i < j < |places| ==> places[i] < places[j])
    && (forall k :: 0 <= k < |steps| && k !in places ==> steps[k].hidden && steps[k].executor.Tool?)
  }

  /** A hidden tool step in front of a planner's step: a prerequisite, or a tool of the capability that the step names. */
  ghost predicate Helps(step: WorkStep, hidden: TaskStep) {
    && hidden.hidden && hidden.executor.Tool?
    && (hidden.capability.Some? ==> step.capabilities == [hidden.capability.value] && hidden.kind == step.kind)
  }

  /** Step `k` helps the planner's step number `i`, which is shown next and waits for it if it is of its capability. */
  ghost predicate HelpsAt(planned: seq<WorkStep>, steps: seq<TaskStep>, places: seq<nat>, k: nat, i: nat)
    requires |places| == |planned| && i < |planned| && k < |steps|
  {
    && k < places[i] < |steps| && (i > 0 ==> places[i - 1] < k) && Helps(planned[i], steps[k])
    && (steps[k].capability.Some? ==> Reaches(steps, places[i], steps[k].id))
  }

  ghost predicate HelpersBelong(planned: seq<WorkStep>, steps: seq<TaskStep>, places: seq<nat>)
    requires |places| == |planned|
  {
    forall k :: 0 <= k < |steps| && k !in places ==> exists i :: 0 <= i < |planned| && HelpsAt(planned, steps, places, k, i)
  }

  /** `b` extends `a` by hidden tool steps and then the visible step `step`, which waits for those of its capability. */
  ghost predicate Lowers(a: Build, b: Build, step: WorkStep) {
    && Grows(a, b, {step.id}) && |a.expanded| < |b.expanded|
    && Shows(step, b.expanded[|b.expanded| - 1])
    && ReachesAll(b.expanded, |b.expanded| - 1, step.dependsOn)
    && (forall k :: |a.expanded| <= k < |b.expanded| - 1 ==>
          && Helps(step, b.expanded[k])
          && (b.expanded[k].capability.Some? ==> Reaches(b.expanded, |b.expanded| - 1, b.expanded[k].id)))
  }

  /** The last protocol step since `a` is number `p`, and it waits for all earlier ones. */
  ghost predicate WaitsForAll(a: Build, b: Build, previous: Option<string>, p: nat) {
    forall k :: |a.expanded| <= k < |b.expanded| && b.expanded[k].capability.Some? ==>
      previous.Some? && k <= p < |b.expanded| && (k == p || Reaches(b.expanded, p, b.expanded[k].id))
  }

  lemma WaitsWithPrerequisites(env: Env, a: Build, b: Build, c: Build, previous: Option<string>, p: nat)
    requires WaitsForAll(a, b, previous, p) && Inserts(env, b, c) && a.expanded <= b.expanded
    ensures WaitsForAll(a, c, previous, p)
  {
    InsertsGrows(env, b, c, {});
    forall k | |a.expanded| <= k < |c.expanded| && c.expanded[k].capability.Some?
      ensures previous.Some? && k <= p < |c.expanded| && (k == p || Reaches(c.expanded, p, c.expanded[k].id))
    {
      assert k < |b.expanded|;
      assert c.expanded[k] == b.expanded[k];
      if k != p { ReachesInLonger(b.expanded, c.expanded, p, b.expanded[k].id); }
    }
  }

  lemma WaitsWithProtocol(a: Build, b: Build, c: Build, previous: Option<string>, p: nat, step: TaskStep)
    requires WaitsForAll(a, b, previous, p) && c.expanded == b.expanded + [step]
    requires previous.Some? ==> p < |b.expanded| && b.expanded[p].id in step.dependsOn
    ensures WaitsForAll(a, c, Some(step.id), |b.expanded|)
  {
    var n := |b.expanded|;
    forall k | |a.expanded| <= k < n && c.expanded[k].capability.Some? ensures Reaches(c.expanded, n, c.expanded[k].id) {
      assert c.expanded[k] == b.expanded[k];
      assert c.expanded[p] == b.expanded[p];
      if k != p { ReachesInLonger(b.expanded, c.expanded, p, b.expanded[k].id); }
    }
  }

  lemma GrowsTwice(a: Build, b: Build, c: Build, own: set<string>)
    requires Grows(a, b, own) && Grows(b, c, own)
    ensures Grows(a, c, own)
  {
    forall k | |a.expanded| <= k < |c.expanded| ensures c.expanded[k].id !in a.ids || c.expanded[k].id in own {
      if k < |b.expanded| { assert c.expanded[k] == b.expanded[k]; }
    }
  }

  lemma InsertsGrows(env: Env, a: Build, b: Build, own: set<string>)
    requires Inserts(env, a, b)
    ensures Grows(a, b, own)
    ensures forall k :: |a.expanded| <= k < |b.expanded| ==>
      b.expanded[k].hidden && b.expanded[k].executor.Tool? && b.expanded[k].capability.None?
  {
    forall k | |a.expanded| <= k < |b.expanded|
      ensures b.expanded[k].hidden && b.expanded[k].executor.Tool? && b.expanded[k].capability.None?
    {
      assert IsHostStep(env, b.expanded[k]);
    }
  }

  lemma DirectStepIsOk(env: Env, base: set<string>, b: Build, step: WorkStep, c: Build)
    requires BuildOk(env, base, b) && step.id in b.ids && step.id !in Ids(b.expanded)
    requires forall d :: d in step.dependsOn ==> d in Ids(b.expanded)
    requires step.executor.Tool? ==>
      && |step.capabilities| == 1 && step.capabilities[0] in env.tools && step.capabilities[0] in env.enabled
      && forall dep :: Needs(env, step.capabilities[0], dep) ==> dep in b.completed
    requires c == b.(expanded := b.expanded + [ToExecution(step)],
                     completed := b.completed + (if step.executor.Tool? then {step.capabilities[0]} else {}))
    ensures BuildOk(env, base, c)
  {
    hide BuildOk;
    assert b.ids + {step.id} == b.ids;
    if step.executor.Tool? { assert Elements(step.capabilities) == {step.capabilities[0]}; }
    AppendingIsOk(env, base, b, ToExecution(step), c);
  }

  /** After its prerequisites, a direct step goes in as it is. */
  lemma DirectStepLowers(env: Env, base: set<string>, a: Build, b: Build, step: WorkStep, c: Build)
    requires BuildOk(env, base, b) && Inserts(env, a, b) && step.id in a.ids && step.id !in Ids(b.expanded)
    requires forall d :: d in step.dependsOn ==> d in Ids(b.expanded)
    requires step.executor.Tool? ==>
      && |step.capabilities| == 1 && step.capabilities[0] in env.tools && step.capabilities[0] in env.enabled
      && forall dep :: Needs(env, step.capabilities[0], dep) ==> dep in b.completed
    requires c == b.(expanded := b.expanded + [ToExecution(step)],
                     completed := b.completed + (if step.executor.Tool? then {step.capabilities[0]} else {}))
    ensures BuildOk(env, base, c) && Lowers(a, c, step)
  {
    hide BuildOk, Inserts, Needs;
    InsertsGrows(env, a, b, {step.id});
    DirectStepIsOk(env, base, b, step, c);
    forall d | d in step.dependsOn ensures Reaches(c.expanded, |b.expanded|, d) { }
    assert Grows(b, c, {step.id});
    GrowsTwice(a, b, c, {step.id});
  }

  /** A protocol step waits for the previous one, which waits for all the planner's step waits for. */
  ghost predicate Chained(b: Build, step: WorkStep, previous: Option<string>, p: nat) {
    match previous
    case None => forall d :: d in step.dependsOn ==> d in Ids(b.expanded)
    case Some(id) => p < |b.expanded| && b.expanded[p].id == id && ReachesAll(b.expanded, p, step.dependsOn)
  }

  function DependsOn(step: WorkStep, previous: Option<string>): seq<string> {
    match previous case None => step.dependsOn case Some(id) => [id]
  }

  lemma ChainedInLonger(b: Build, c: Build, step: WorkStep, previous: Option<string>, p: nat)
    requires b.expanded <= c.expanded && Chained(b, step, previous, p)
    ensures Chained(c, step, previous, p)
  {
    if previous.Some? { ReachesAllInLonger(b.expanded, c.expanded, p, step.dependsOn); }
    else {
      forall d | d in step.dependsOn ensures d in Ids(c.expanded) {
        var k :| 0 <= k < |b.expanded| && Ids(b.expanded)[k] == d;
        assert Ids(c.expanded)[k] == d;
      }
    }
  }

  lemma ProtocolStepAppends(env: Env, base: set<string>, b: Build, step: WorkStep, reg: Registration, id: string,
                            previous: Option<string>, p: nat, terminal: bool, selected: string, c: Build)
    requires BuildOk(env, base, b) && step.executor.Tool? && reg.name in env.tools && env.tools[reg.name] == reg && reg.name in env.enabled
    requires id !in Ids(b.expanded)
    requires Chained(b, step, previous, p)
    requires forall dep :: Needs(env, reg.name, dep) ==> dep in b.completed
    requires c == b.(expanded := b.expanded + [LoweredStep(step, reg, id, DependsOn(step, previous), terminal, selected)],
                     completed := b.completed + {reg.name}, ids := b.ids + {id}, lowered := b.lowered + [reg.name])
    ensures BuildOk(env, base, c) && Chained(c, step, Some(id), |b.expanded|)
  {
    var next := LoweredStep(step, reg, id, DependsOn(step, previous), terminal, selected);
    if previous.Some? { assert Ids(b.expanded)[p] == previous.value; }
    AppendingIsOk(env, base, b, next, c);
    forall d | d in step.dependsOn ensures Reaches(c.expanded, |b.expanded|, d) {
      if previous.Some? {
        ReachesInLonger(b.expanded, c.expanded, p, d);
        assert c.expanded[p].id in c.expanded[|b.expanded|].dependsOn;
      }
    }
  }

  /** Everything a lowered capability added so far is a hidden tool step with a new id. */
  ghost predicate HiddenGrowth(a: Build, b: Build, step: WorkStep) {
    && Grows(a, b, {})
    && (forall k :: |a.expanded| <= k < |b.expanded| ==> Helps(step, b.expanded[k]))
  }

  lemma HiddenGrowthByPrerequisites(env: Env, a: Build, b: Build, c: Build, step: WorkStep)
    requires HiddenGrowth(a, b, step) && Inserts(env, b, c)
    ensures HiddenGrowth(a, c, step)
  {
    InsertsGrows(env, b, c, {});
    GrowsTwice(a, b, c, {});
    forall k | |a.expanded| <= k < |c.expanded| ensures Helps(step, c.expanded[k]) {
      if k < |b.expanded| { assert c.expanded[k] == b.expanded[k]; }
    }
  }

  lemma HiddenGrowthKeepsIdUnused(a: Build, b: Build, id: string)
    requires Grows(a, b, {}) && id in a.ids && id !in Ids(a.expanded)
    ensures id !in Ids(b.expanded)
  {
    forall k | 0 <= k < |b.expanded| ensures Ids(b.expanded)[k] != id {
      if k < |a.expanded| { assert Ids(a.expanded)[k] == b.expanded[k].id; }
    }
  }

  lemma HiddenGrowthByProtocol(a: Build, b: Build, c: Build, step: WorkStep, next: TaskStep)
    requires HiddenGrowth(a, b, step) && c.expanded == b.expanded + [next] && Helps(step, next)
    requires next.id !in b.ids && b.completed <= c.completed && b.ids <= c.ids
    ensures HiddenGrowth(a, c, step)
  {
    forall k | |a.expanded| <= k < |c.expanded| ensures Helps(step, c.expanded[k]) && c.expanded[k].id !in a.ids {
      if k < |b.expanded| { assert c.expanded[k] == b.expanded[k]; }
    }
  }

  lemma TerminalStepLowers(a: Build, b: Build, c: Build, step: WorkStep, shown: TaskStep)
    requires HiddenGrowth(a, b, step) && c.expanded == b.expanded + [shown] && b.completed <= c.completed && b.ids <= c.ids
    requires Shows(step, shown) && ReachesAll(c.expanded, |b.expanded|, step.dependsOn)
    requires WaitsForAll(a, c, Some(shown.id), |b.expanded|)
    ensures Lowers(a, c, step)
  {
    forall k | |a.expanded| <= k < |c.expanded| - 1 ensures Helps(step, c.expanded[k]) { assert c.expanded[k] == b.expanded[k]; }
    assert Grows(a, b, {step.id}) && Grows(b, c, {step.id});
    GrowsTwice(a, b, c, {step.id});
  }

  lemma HiddenGrowthGrows(a: Build, b: Build, step: WorkStep)
    requires HiddenGrowth(a, b, step)
    ensures Grows(a, b, {}) && a.expanded <= b.expanded
  {
  }

  /** Lowers one public capability to its runtime tools that are not completed yet. */
  method LowerCapability(env: Env, ghost base: set<string>, a: Build, step: WorkStep, members: seq<Registration>)
    returns (r: Outcome<Build, Fault>)
    requires forall name :: name in env.tools ==> env.tools[name].name == name
    requires forall m :: m in members ==> m.name in env.tools && m.name in env.enabled
    requires BuildOk(env, base, a) && step.executor.Tool? && |step.capabilities| == 1
    requires step.id in a.ids && step.id !in Ids(a.expanded)
    requires forall d :: d in step.dependsOn ==> d in Ids(a.expanded)
    ensures CompilesTo(env, a, CapabilityTools(members, a.completed), r)
    ensures r.Ok? ==> BuildOk(env, base, r.value) && Lowers(a, r.value, step)
    ensures r.Ok? ==> r.value.lowered == a.lowered + CapabilityTools(members, a.completed).value
  {
    hide *;
    CapabilityToolsAre(members, a.completed);
    var order := OrderedRuntimeNames(members);
    if order.Fail? {
      RefusesStep(env, a, order.fault);
      return Fail(order.fault);
    }
    var names := RemainingNames(order.value, a.completed);
    if names == [] {
      RefusesStep(env, a, RedundantCapability);
      return Fail(RedundantCapability);
    }
    OrderedAreRegistered(env, members, order.value);
    var selected := step.capabilities[0];
    var b := a;
    var previous: Option<string> := None;
    ghost var p: nat := 0;
    NothingHidden(a, step);
    NothingRuns(env, a.completed, names);
    RecordsNothing(env, a, names);
    var i := 0;
    while i < |names| - 1
      invariant i <= |names| - 1
      invariant BuildOk(env, base, b) && HiddenGrowth(a, b, step) && Chained(b, step, previous, p) && WaitsForAll(a, b, previous, p)
      invariant Records(env, a, names[..i], b) && b.lowered == a.lowered + names[..i] && CanRun(env, a.completed, names[..i])
    {
      RecordsDone(env, a, names[..i], b);
      RunsNext(env, a.completed, names, i);
      EmptyPath(env, b.completed, names[i]);
      var ready := AppendPrerequisites(env, base, b, names[i], []);
      if ready.Fail? {
        RefusesTools(env, a, names, ready.fault);
        return ready;
      }
      var c := ready.value;
      HiddenGrowthGrows(a, b, step);
      WaitsWithPrerequisites(env, a, b, c, previous, p);
      HiddenGrowthByPrerequisites(env, a, b, c, step);
      InsertsGrows(env, b, c, {});
      GrowsExpanded(b, c, {});
      ChainedInLonger(b, c, step, previous, p);
      var id := FindStepId(step.id + "-protocol-" + Decimal.Digits(i + 1), c.ids);
      var reg := env.tools[names[i]];
      var next := LoweredStep(step, reg, id, DependsOn(step, previous), false, selected);
      var d := c.(expanded := c.expanded + [next], completed := c.completed + {reg.name},
                  ids := c.ids + {id}, lowered := c.lowered + [reg.name]);
      UnusedIdIsFresh(env, base, c, id);
      ProtocolStepAppends(env, base, c, step, reg, id, previous, p, false, selected, d);
      LoweredStepIs(step, reg, id, DependsOn(step, previous), false);
      ChainedLast(c, step, previous, p);
      WaitsWithProtocol(a, c, d, previous, p, next);
      HiddenGrowthByProtocol(a, c, d, step, next);
      RecordsNext(env, a, names, i, b, c, d);
      assert names[..i + 1] == names[..i] + [names[i]];
      b, previous, p := d, Some(id), |c.expanded|;
      i := i + 1;
    }
    RecordsDone(env, a, names[..i], b);
    RunsNext(env, a.completed, names, i);
    assert names[..i + 1] == names && names == names[..i] + [names[i]];
    EmptyPath(env, b.completed, names[i]);
    var ready := AppendPrerequisites(env, base, b, names[i], []);
    if ready.Fail? {
      RefusesTools(env, a, names, ready.fault);
      return ready;
    }
    var c := ready.value;
    HiddenGrowthGrows(a, b, step);
    WaitsWithPrerequisites(env, a, b, c, previous, p);
    HiddenGrowthByPrerequisites(env, a, b, c, step);
    InsertsGrows(env, b, c, {});
    GrowsExpanded(b, c, {});
    ChainedInLonger(b, c, step, previous, p);
    HiddenGrowthGrows(a, c, step);
    HiddenGrowthKeepsIdUnused(a, c, step.id);
    var reg := env.tools[names[i]];
    var shown := LoweredStep(step, reg, step.id, DependsOn(step, previous), true, selected);
    var d := c.(expanded := c.expanded + [shown], completed := c.completed + {reg.name},
                ids := c.ids + {step.id}, lowered := c.lowered + [reg.name]);
    ProtocolStepAppends(env, base, c, step, reg, step.id, previous, p, true, selected, d);
    ChainedReaches(d, step, step.id, |c.expanded|);
    LoweredStepIs(step, reg, step.id, DependsOn(step, previous), true);
    TerminalIsShown(step, reg, DependsOn(step, previous));
    ChainedLast(c, step, previous, p);
    WaitsWithProtocol(a, c, d, previous, p, shown);
    TerminalStepLowers(a, c, d, step, shown);
    RecordsNext(env, a, names, i, b, c, d);
    RunsTools(env, a, names, d);
    return Ok(d);
  }

  /** `b` has completed, and lists as inserted, what running `names` from `a` completes and inserts. */
  ghost predicate Records(env: Env, a: Build, names: seq<string>, b: Build) {
    && b.completed == DoneAfter(env, a.completed, names)
    && Elements(b.inserted) == Elements(a.inserted) + InsertedBy(env, a.completed, names)
  }

  lemma RecordsDone(env: Env, a: Build, names: seq<string>, b: Build)
    requires Records(env, a, names, b)
    ensures b.completed == DoneAfter(env, a.completed, names)
  {
  }

  lemma RecordsNothing(env: Env, a: Build, names: seq<string>)
    ensures Records(env, a, names[..0], a)
  {
  }

  lemma RecordsNext(env: Env, a: Build, names: seq<string>, i: nat, b: Build, c: Build, d: Build)
    requires i < |names| && Records(env, a, names[..i], b)
    requires c.completed == Supplied(env, b.completed, names[i]) && ListsInserted(b, c)
    requires d.completed == c.completed + {names[i]} && d.inserted == c.inserted
    ensures Records(env, a, names[..i + 1], d)
  {
    hide Supplied, DoneAfter, InsertedBy;
    RunsNext(env, a.completed, names, i);
  }

  /** A step's compilation succeeds exactly if it stands for tools that can run, and records what they do. */
  ghost predicate CompilesTo(env: Env, a: Build, names: Outcome<seq<string>, Fault>, r: Outcome<Build, Fault>) {
    && (names.Fail? ==> r == Fail(names.fault))
    && (names.Ok? ==> (r.Ok? <==> CanRun(env, a.completed, names.value)))
    && (r.Ok? ==> Records(env, a, names.value, r.value))
    && (r.Fail? && r.fault.PrerequisiteCycle? ==> IsCycle(env, r.fault.trail))
  }

  lemma RefusesStep(env: Env, a: Build, fault: Fault)
    requires !fault.PrerequisiteCycle?
    ensures CompilesTo(env, a, Fail(fault), Fail(fault))
  {
  }

  lemma RefusesTools(env: Env, a: Build, names: seq<string>, fault: Fault)
    requires !CanRun(env, a.completed, names) && (fault.PrerequisiteCycle? ==> IsCycle(env, fault.trail))
    ensures CompilesTo(env, a, Ok(names), Fail(fault))
  {
  }

  lemma RunsTools(env: Env, a: Build, names: seq<string>, b: Build)
    requires CanRun(env, a.completed, names) && Records(env, a, names, b)
    ensures CompilesTo(env, a, Ok(names), Ok(b))
  {
  }

  lemma CapabilityToolsAre(members: seq<Registration>, done: set<string>)
    ensures var order := ToolOrder(members);
      && (order.Fail? ==> order.fault == CapabilityCycle)
      && CapabilityTools(members, done) ==
           if order.Fail? then order
           else if Remaining(order.value, done) == [] then Fail(RedundantCapability)
           else Ok(Remaining(order.value, done))
  {
  }

  lemma OrderedAreRegistered(env: Env, members: seq<Registration>, order: seq<string>)
    requires Elements(order) == ByName(members).Keys
    requires forall m :: m in members ==> m.name in env.tools && m.name in env.enabled
    ensures forall name :: name in order ==> name in env.tools && name in env.enabled
  {
    forall name | name in order ensures name in env.tools && name in env.enabled {
      assert name in Elements(order);
      assert name in ByName(members);
    }
  }

  lemma EmptyPath(env: Env, done: set<string>, tool: string)
    ensures NeedPath(env, []) && Follows(env, [], tool) && FreshPath(done, [], tool)
  {
  }

  lemma GrowsExpanded(a: Build, b: Build, own: set<string>)
    requires Grows(a, b, own)
    ensures a.expanded <= b.expanded
  {
  }

  lemma LoweredStepIs(step: WorkStep, reg: Registration, id: string, dependsOn: seq<string>, terminal: bool)
    requires step.executor.Tool? && |step.capabilities| == 1
    ensures var next := LoweredStep(step, reg, id, dependsOn, terminal, step.capabilities[0]);
      next.id == id && next.dependsOn == dependsOn && (!terminal ==> Helps(step, next))
  {
  }

  /** What the next protocol step will wait for. */
  lemma ChainedLast(b: Build, step: WorkStep, previous: Option<string>, p: nat)
    requires Chained(b, step, previous, p)
    ensures previous.Some? ==> p < |b.expanded| && b.expanded[p].id in DependsOn(step, previous)
  {
  }

  method RemainingNames(names: seq<string>, completed: set<string>) returns (left: seq<string>)
    ensures left == Remaining(names, completed)
  {
    left := [];
    var i := 0;
    while i < |names|
      invariant i <= |names|
      invariant left == Remaining(names[..i], completed)
    {
      assert names[..i + 1][..i] == names[..i];
      if names[i] !in completed { left := left + [names[i]]; }
      i := i + 1;
    }
    assert names[..i] == names;
  }

  lemma NothingHidden(a: Build, step: WorkStep)
    requires forall d :: d in step.dependsOn ==> d in Ids(a.expanded)
    ensures HiddenGrowth(a, a, step) && Chained(a, step, None, 0) && WaitsForAll(a, a, None, 0)
  {
  }

  lemma UnusedIdIsFresh(env: Env, base: set<string>, b: Build, id: string)
    requires BuildOk(env, base, b) && id !in b.ids
    ensures id !in Ids(b.expanded)
  {
    assert id !in Elements(Ids(b.expanded));
  }

  lemma ChainedReaches(b: Build, step: WorkStep, id: string, p: nat)
    requires Chained(b, step, Some(id), p)
    ensures p < |b.expanded| && ReachesAll(b.expanded, p, step.dependsOn)
  {
  }

  lemma TerminalIsShown(step: WorkStep, reg: Registration, dependsOn: seq<string>)
    requires step.executor.Tool? && |step.capabilities| == 1
    ensures Shows(step, LoweredStep(step, reg, step.id, dependsOn, true, step.capabilities[0]))
  {
  }

  // ----- the whole plan -----------------------------------------------------

  datatype CompiledPlan = CompiledPlan(plan: ExecutionPlan, inserted: seq<string>, lowered: seq<string>)

  /** What is satisfied before the plan starts. */
  function Satisfied(given: set<string>, constraints: Constraints): (tools: set<string>)
    ensures forall t :: t in tools <==> t in given || t in constraints.contextSatisfied || t in constraints.executionSatisfied
  {
    given + constraints.executionSatisfied + constraints.contextSatisfied
  }

  /** The planner's steps still to come have unused ids. */
  ghost predicate IdsToCome(plan: WorkPlan, b: Build, i: nat) {
    forall k :: i <= k < |plan.steps| ==> plan.steps[k].id in b.ids && plan.steps[k].id !in Ids(b.expanded)
  }

  /** The steps placed so far wait for all the planner's steps wait for. */
  ghost predicate PathsSurvive(planned: seq<WorkStep>, steps: seq<TaskStep>, places: seq<nat>)
    requires |places| == |planned|
  {
    forall i :: 0 <= i < |places| ==> places[i] < |steps| && ReachesAll(steps, places[i], planned[i].dependsOn)
  }

  lemma LoweringShowsNext(planned: seq<WorkStep>, a: Build, places: seq<nat>, step: WorkStep, b: Build)
    requires ShowsPlan(planned, a.expanded, places) && PathsSurvive(planned, a.expanded, places) && Lowers(a, b, step)
    ensures |b.expanded| > 0
    ensures ShowsPlan(planned + [step], b.expanded, places + [|b.expanded| - 1])
    ensures PathsSurvive(planned + [step], b.expanded, places + [|b.expanded| - 1])
  {
    hide Helps;
    LoweringHides(a, b, step);
    var after, n := places + [|b.expanded| - 1], |b.expanded| - 1;
    forall i | 0 <= i < |after|
      ensures after[i] < |b.expanded| && Shows((planned + [step])[i], b.expanded[after[i]])
      ensures ReachesAll(b.expanded, after[i], (planned + [step])[i].dependsOn)
    {
      if i < |places| {
        assert b.expanded[places[i]] == a.expanded[places[i]];
        ReachesAllInLonger(a.expanded, b.expanded, places[i], planned[i].dependsOn);
      }
    }
    forall k | 0 <= k < |b.expanded| && k !in after ensures b.expanded[k].hidden && b.expanded[k].executor.Tool? {
      assert after[|places|] == n;
      if k < |a.expanded| {
        assert b.expanded[k] == a.expanded[k];
        assert forall i :: 0 <= i < |places| ==> after[i] == places[i];
      }
    }
  }

  lemma LoweringHides(a: Build, b: Build, step: WorkStep)
    requires Lowers(a, b, step)
    ensures forall k :: |a.expanded| <= k < |b.expanded| - 1 ==> b.expanded[k].hidden && b.expanded[k].executor.Tool?
  {
  }

  lemma LoweringKeepsHelpers(planned: seq<WorkStep>, a: Build, places: seq<nat>, step: WorkStep, b: Build)
    requires ShowsPlan(planned, a.expanded, places) && HelpersBelong(planned, a.expanded, places) && Lowers(a, b, step)
    ensures |b.expanded| > 0 && HelpersBelong(planned + [step], b.expanded, places + [|b.expanded| - 1])
  {
    hide Helps, Shows, Reaches;
    var after, n, all := places + [|b.expanded| - 1], |b.expanded| - 1, planned + [step];
    forall k | 0 <= k < |b.expanded| && k !in after
      ensures exists i :: 0 <= i < |all| && HelpsAt(all, b.expanded, after, k, i)
    {
      assert after[|places|] == n && (forall i :: 0 <= i < |places| ==> after[i] == places[i]);
      if k < |a.expanded| {
        var i :| 0 <= i < |planned| && HelpsAt(planned, a.expanded, places, k, i);
        assert b.expanded[k] == a.expanded[k];
        if a.expanded[k].capability.Some? { ReachesInLonger(a.expanded, b.expanded, places[i], a.expanded[k].id); }
        assert HelpsAt(all, b.expanded, after, k, i);
      } else {
        assert k != n && HelpsAt(all, b.expanded, after, k, |planned|);
      }
    }
  }

  lemma PlacedIdsAreKnown(planned: seq<WorkStep>, steps: seq<TaskStep>, places: seq<nat>)
    requires ShowsPlan(planned, steps, places)
    ensures forall d :: d in WorkIds(planned) ==> d in Ids(steps)
  {
    forall d | d in WorkIds(planned) ensures d in Ids(steps) {
      var i :| 0 <= i < |planned| && WorkIds(planned)[i] == d;
      assert Ids(steps)[places[i]] == d;
    }
  }

  lemma LoweringKeepsIdsToCome(plan: WorkPlan, a: Build, b: Build, i: nat)
    requires ValidWorkPlan(plan) && i < |plan.steps| && IdsToCome(plan, a, i) && Lowers(a, b, plan.steps[i])
    ensures IdsToCome(plan, b, i + 1)
  {
    var own := plan.steps[i].id;
    forall k | i < k < |plan.steps| ensures plan.steps[k].id in b.ids && plan.steps[k].id !in Ids(b.expanded) {
      var id := plan.steps[k].id;
      assert WorkIds(plan.steps)[k] != WorkIds(plan.steps)[i];
      forall m | 0 <= m < |b.expanded| ensures Ids(b.expanded)[m] != id {
        if m < |a.expanded| { assert Ids(a.expanded)[m] == b.expanded[m].id; }
      }
    }
  }

  /** What a compiled plan promises. */
  ghost predicate Compiles(plan: WorkPlan, env: Env, base: set<string>, out: CompiledPlan, places: seq<nat>) {
    && ValidSteps(out.plan.steps) && AllReady(env, base, out.plan.steps) && AllEntitled(env, out.plan.steps, out.inserted)
    && AllLabeled(env, out.plan.steps) && Lists(out.plan.steps, out.inserted, out.lowered)
    && out.plan.title == plan.title && out.plan.goal == plan.goal && out.plan.workIds == WorkIds(plan.steps)
    && ShowsPlan(plan.steps, out.plan.steps, places) && PathsSurvive(plan.steps, out.plan.steps, places)
    && HelpersBelong(plan.steps, out.plan.steps, places)
    && Distinct(out.inserted) && (forall tool :: tool in out.inserted ==> tool !in base && ToolIn(out.plan.steps, tool))
  }

  /** A tool that is not enabled is in a compiled plan exactly if it is inserted: if some tool leads to it in its turn. */
  lemma DisabledToolsAreInserted(plan: WorkPlan, env: Env, regs: seq<Registration>, base: set<string>, out: CompiledPlan,
                                 places: seq<nat>, tool: string)
    requires Compiles(plan, env, base, out, places) && tool !in env.enabled
    requires Elements(out.inserted) == InsertedBySteps(env, regs, base, plan.steps)
    ensures ToolIn(out.plan.steps, tool) <==> tool in out.inserted
    ensures ToolIn(out.plan.steps, tool) <==>
      exists i :: 0 <= i < |plan.steps| && InsertedAt(env, regs, base, plan.steps, i, tool)
  {
    hide InsertedAt, InsertedBySteps;
    if ToolIn(out.plan.steps, tool) {
      var k :| 0 <= k < |out.plan.steps| && RunsTool(out.plan.steps[k], tool);
      assert Entitled(env, out.plan.steps, out.inserted, k);
    }
    InsertedByStepsExactly(env, regs, base, plan.steps, |plan.steps|, tool);
    assert plan.steps[..|plan.steps|] == plan.steps;
  }

  lemma LastBuildCompiles(plan: WorkPlan, env: Env, base: set<string>, b: Build, places: seq<nat>)
    requires BuildOk(env, base, b)
    requires ShowsPlan(plan.steps, b.expanded, places) && PathsSurvive(plan.steps, b.expanded, places)
    requires HelpersBelong(plan.steps, b.expanded, places)
    ensures Compiles(plan, env, base,
      CompiledPlan(ExecutionPlan(plan.title, plan.goal, b.expanded, WorkIds(plan.steps)), b.inserted, b.lowered), places)
  {
  }

  /**
   Compiles a work plan, exactly if it can be compiled.  In the result every need of a step is satisfied from the start
   or the tool of an earlier step, no prerequisite is inserted twice, ids are unique, dependencies point backwards, the
   planner's steps stay visible in order, and each still waits for what the planner said.
   */
  method CompileWorkPlan(plan: WorkPlan, regs: seq<Registration>, constraints: Constraints, given: set<string>,
                         enabledNames: Option<set<string>>)
    returns (r: Outcome<CompiledPlan, Fault>, ghost places: seq<nat>)
    requires ValidWorkPlan(plan)
    ensures r.Ok? ==> Compiles(plan, Env(ByName(regs), constraints, EnabledTools(regs, enabledNames)), Satisfied(given, constraints), r.value, places)
    ensures r.Ok? <==> CanCompile(Env(ByName(regs), constraints, EnabledTools(regs, enabledNames)), regs,
                                  Satisfied(given, constraints), plan.steps)
    ensures r.Ok? ==>
      && Elements(r.value.inserted) == InsertedBySteps(Env(ByName(regs), constraints, EnabledTools(regs, enabledNames)), regs,
                                                       Satisfied(given, constraints), plan.steps)
      && r.value.lowered == LoweredBySteps(Env(ByName(regs), constraints, EnabledTools(regs, enabledNames)), regs,
                                           Satisfied(given, constraints), plan.steps)
    ensures r.Fail? && r.fault.PrerequisiteCycle? ==> IsCycle(Env(ByName(regs), constraints, EnabledTools(regs, enabledNames)), r.fault.trail)
  {
    hide BuildOk, Lowers, Compiles, ShowsPlan, PathsSurvive, HelpersBelong, IdsToCome, CapabilitiesAgree, IsCycle, ValidWorkPlan;
    hide ByName, Members, Ids, WorkIds, StepTools, CanRun, DoneAfter, DoneAfterSteps, CanCompile, CompilesAt, CompilesTo;
    hide InsertedBySteps, LoweredBySteps, LoweredBy;
    places := [];
    var tools := ByName(regs);
    var enabled := if enabledNames.Some? then enabledNames.value else tools.Keys;
    var grouping := PlanningCapabilities(regs, enabled);
    var env := Env(tools, constraints, enabled);
    ghost var base := Satisfied(given, constraints);
    CompilesExactly(env, regs, base, plan.steps);
    if grouping.Fail? { return Fail(grouping.fault), places; }
    var capabilities := grouping.value;
    var b := Build([], Satisfied(given, constraints), [], [], set step | step in plan.steps :: step.id, 0);
    NothingBuilt(plan, env, base, b);
    var i := 0;
    assert plan.steps[..0] == [];
    while i < |plan.steps|
      invariant i <= |plan.steps| && |places| == i
      invariant BuildOk(env, base, b) && IdsToCome(plan, b, i)
      invariant ShowsPlan(plan.steps[..i], b.expanded, places) && PathsSurvive(plan.steps[..i], b.expanded, places)
      invariant HelpersBelong(plan.steps[..i], b.expanded, places)
      invariant StepsRecorded(env, regs, base, plan.steps[..i], b)
      invariant forall k :: 0 <= k < i ==> CompilesAt(env, regs, base, plan.steps, k)
    {
      var step := plan.steps[i];
      assert plan.steps[..i + 1] == plan.steps[..i] + [step];
      NextStepIsNew(plan, b, i, places);
      var next := CompileStep(env, base, b, step, capabilities, regs);
      StepDecides(env, regs, base, plan.steps, i, b, next);
      if next.Fail? { return Fail(next.fault), places; }
      LoweringShowsNext(plan.steps[..i], b, places, step, next.value);
      LoweringKeepsHelpers(plan.steps[..i], b, places, step, next.value);
      LoweringKeepsIdsToCome(plan, b, next.value, i);
      b, places := next.value, places + [|next.value.expanded| - 1];
      i := i + 1;
    }
    assert plan.steps[..i] == plan.steps;
    LastBuildCompiles(plan, env, base, b, places);
    r := Ok(CompiledPlan(ExecutionPlan(plan.title, plan.goal, b.expanded, WorkIds(plan.steps)), b.inserted, b.lowered));
  }

  function EnabledTools(regs: seq<Registration>, enabledNames: Option<set<string>>): set<string> {
    if enabledNames.Some? then enabledNames.value else ByName(regs).Keys
  }

  /** What the steps completed, inserted and lowered. */
  ghost predicate StepsRecorded(env: Env, regs: seq<Registration>, done: set<string>, steps: seq<WorkStep>, b: Build) {
    && b.completed == DoneAfterSteps(env, regs, done, steps) && b.lowered == LoweredBySteps(env, regs, done, steps)
    && Elements(b.inserted) == InsertedBySteps(env, regs, done, steps)
  }

  /** Step `i` was compiled as it should be. */
  lemma StepDecides(env: Env, regs: seq<Registration>, done: set<string>, steps: seq<WorkStep>, i: nat,
                    b: Build, next: Outcome<Build, Fault>)
    requires i < |steps| && StepsRecorded(env, regs, done, steps[..i], b)
    requires next.Ok? ==> next.value.lowered == b.lowered + LoweredBy(env, regs, b.completed, steps[i])
    requires CompilesTo(env, b, StepTools(env, regs, b.completed, steps[i]), next)
    ensures next.Ok? <==> CompilesAt(env, regs, done, steps, i)
    ensures next.Ok? ==> StepsRecorded(env, regs, done, steps[..i + 1], next.value)
    ensures next.Fail? && next.fault.PrerequisiteCycle? ==> IsCycle(env, next.fault.trail)
  {
    hide DoneAfter, DoneAfterSteps, InsertedBy, InsertedBySteps, LoweredBy, LoweredBySteps, CanRun, StepTools, IsCycle;
    StepsNext(env, regs, done, steps, i);
  }

  lemma CompilesExactly(env: Env, regs: seq<Registration>, done: set<string>, steps: seq<WorkStep>)
    ensures CanCompile(env, regs, done, steps) <==>
      CapabilitiesAgree(regs, env.enabled) && forall k :: 0 <= k < |steps| ==> CompilesAt(env, regs, done, steps, k)
    ensures forall b: Build :: b.completed == done && b.inserted == [] && b.lowered == [] ==>
      StepsRecorded(env, regs, done, steps[..0], b)
  {
    hide CapabilitiesAgree, CompilesAt;
  }

  lemma NothingBuilt(plan: WorkPlan, env: Env, base: set<string>, b: Build)
    requires b.expanded == [] && b.completed == base && b.inserted == [] && b.lowered == []
    requires b.ids == set step | step in plan.steps :: step.id
    ensures BuildOk(env, base, b) && IdsToCome(plan, b, 0)
    ensures ShowsPlan([], b.expanded, []) && PathsSurvive([], b.expanded, []) && HelpersBelong([], b.expanded, [])
  {
    forall tool ensures !ToolIn(b.expanded, tool) { }
  }

  lemma NextStepIsNew(plan: WorkPlan, b: Build, i: nat, places: seq<nat>)
    requires ValidWorkPlan(plan) && i < |plan.steps| && IdsToCome(plan, b, i)
    requires ShowsPlan(plan.steps[..i], b.expanded, places)
    ensures plan.steps[i].id in b.ids && plan.steps[i].id !in Ids(b.expanded)
    ensures forall d :: d in plan.steps[i].dependsOn ==> d in Ids(b.expanded)
  {
    PlacedIdsAreKnown(plan.steps[..i], b.expanded, places);
  }

  /** One planner step: a model step, a public runtime tool, or a capability. */
  method CompileStep(env: Env, ghost base: set<string>, b: Build, step: WorkStep,
                     capabilities: map<string, seq<Registration>>, ghost regs: seq<Registration>)
    returns (r: Outcome<Build, Fault>)
    requires env.tools == ByName(regs) && BuildOk(env, base, b)
    requires forall name :: name in capabilities <==> Members(regs, env.enabled, name) != []
    requires forall name :: name in capabilities ==> capabilities[name] == Members(regs, env.enabled, name)
    requires step.id in b.ids && step.id !in Ids(b.expanded)
    requires forall d :: d in step.dependsOn ==> d in Ids(b.expanded)
    ensures CompilesTo(env, b, StepTools(env, regs, b.completed, step), r)
    ensures r.Ok? ==> BuildOk(env, base, r.value) && Lowers(b, r.value, step)
    ensures r.Ok? ==> r.value.lowered == b.lowered + LoweredBy(env, regs, b.completed, step)
  {
    hide BuildOk, Lowers, Inserts, IsCycle, CompilesTo, Records, ListsInserted, CanRun, DoneAfter, Insertable, Supplied, Supplies, CapabilityTools;
    if !step.executor.Tool? {
      InsertsNothing(env, b);
      var c := b.(expanded := b.expanded + [ToExecution(step)]);
      assert b.completed + {} == b.completed;
      DirectStepLowers(env, base, b, b, step, c);
      NothingRuns(env, b.completed, []);
      RecordsNothing(env, b, []);
      RunsTools(env, b, [], c);
      return Ok(c);
    }
    if |step.capabilities| != 1 {
      RefusesStep(env, b, NotOneTool);
      return Fail(NotOneTool);
    }
    var selected := step.capabilities[0];
    if selected in env.tools {
      if selected !in env.enabled {
        RefusesStep(env, b, DisabledTool);
        return Fail(DisabledTool);
      }
      if env.tools[selected].capability.Some? {
        RefusesStep(env, b, PrivateTool);
        return Fail(PrivateTool);
      }
      var ready := AppendPrerequisites(env, base, b, selected, []);
      OneTool(env, b.completed, selected);
      if ready.Fail? {
        RefusesTools(env, b, [selected], ready.fault);
        return ready;
      }
      var d := ready.value;
      var c := d.(completed := d.completed + {selected}, expanded := d.expanded + [ToExecution(step)]);
      InsertedIdsAreNew(env, b, d, step.id);
      InsertsKeepsIds(env, b, d);
      DirectStepLowers(env, base, b, d, step, c);
      RecordsNothing(env, b, [selected]);
      RecordsNext(env, b, [selected], 0, b, d, c);
      assert [selected][..1] == [selected];
      RunsTools(env, b, [selected], c);
      return Ok(c);
    }
    if selected !in capabilities {
      RefusesStep(env, b, UnavailableCapability);
      return Fail(UnavailableCapability);
    }
    r := LowerCapability(env, base, b, step, capabilities[selected]);
    CompiledHasTools(env, b, CapabilityTools(capabilities[selected], b.completed), r);
  }

  lemma CompiledHasTools(env: Env, a: Build, names: Outcome<seq<string>, Fault>, r: Outcome<Build, Fault>)
    requires CompilesTo(env, a, names, r)
    ensures r.Ok? ==> names.Ok?
  {
  }

  lemma OneTool(env: Env, done: set<string>, tool: string)
    ensures CanRun(env, done, [tool]) <==> Insertable(env, done, tool)
    ensures DoneAfter(env, done, [tool]) == Supplied(env, done, tool) + {tool}
  {
    hide Insertable, Supplied;
    assert [tool][..0] == [];
    assert CanRun(env, done, [tool]) ==> Insertable(env, DoneAfter(env, done, [tool][..0]), [tool][0]);
  }

  lemma InsertedIdsAreNew(env: Env, a: Build, b: Build, id: string)
    requires Inserts(env, a, b) && id in a.ids && id !in Ids(a.expanded)
    ensures id !in Ids(b.expanded)
  {
    InsertsGrows(env, a, b, {});
    HiddenGrowthKeepsIdUnused(a, b, id);
  }

  lemma InsertsKeepsIds(env: Env, a: Build, b: Build)
    requires Inserts(env, a, b)
    ensures forall id :: id in Ids(a.expanded) ==> id in Ids(b.expanded)
  {
    forall id | id in Ids(a.expanded) ensures id in Ids(b.expanded) {
      var k :| 0 <= k < |a.expanded| && Ids(a.expanded)[k] == id;
      assert Ids(b.expanded)[k] == id;
    }
  }
}
