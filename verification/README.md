# PurrA: verified models of the runtime's stores and transformations

PurrA is an agent runtime. This project models six of its components in Dafny and proves what their code promises, on
every input, over every run and in every reachable state.

* **Agent run tree** (`AgentTree`, `AgentTreeInvariant`, `AgentTreeSteps`, `AgentTreeRuns`, `AgentTreeEffects`,
  `AgentTreeCollisions`, `AgentTreeRepository`, `DependencyGraph`). A store of agents, runs, leases and context checkpoints.
  The specification is a step function on tree values; the class `RunTreeRepository` performs each public operation on its
  own maps with the source's loops and worklists and is proved equal to that step. A run id or agent id is either chosen by
  the host or generated; a host may choose an id that looks generated, and the exact condition under which that is harmless
  is proved.
* **Long tasks** (`LongTask`, `LongTaskInvariant`, `LongTaskSteps`, `LongTaskRuns`, `LongTaskEffects`, `LongTaskStore`). A
  leased scheduler of a dependency graph with retries, splitting, deadlines and budgets. The units are a sequence in the
  order of the source's dictionary.
* **Artifacts** (`Artifacts`, `ArtifactLaws`, `ArtifactEffects`, `ArtifactStore`, `Lexical`). A versioned append log guarded
  by write claims.
* **Plans** (`Plan`, `PlanCompiler`, `RunState`, `RunStateLaws`, `RunStateEffects`, `RunStateLoops`, `PlanExecution`,
  `PlanProgress`). The lowering of a planner's steps, the reducer that runs them, and theorems about both together.
* **Canonical JSON** (`Utf8`, `JsonIdentity`, `JsonSnapshot`, `Decimal`). The identity text of a value, as the Python and
  the TypeScript runtime write it, and the bounded copy taken before.
* **Planning stream** (`PlanningText`, `PlanningLines`, `PlanningStream`, `PlanningRecords`, `PlanningNumbers`) and
  **context budget** (`Apportionment`, `ContextBudget`).

Methods carry the source's name for an operation; the function of the same name in the specification module says what it
leaves and answers, error cases included, and the laws are proved about those functions. The modules named `...Effects`,
`PlanProgress` and `PlanningRecords` say of each operation when it is accepted and what it then does, in terms of the
records, units, steps and lines themselves. `Prelude` and `Decimal` hold result types, decimal numerals and the search for
an unused numbered name.

## Where the code does less than one might expect

Each of these is proved, with the exact condition under which the code does what one might expect.

* A root whose run id or agent id equals one still to be generated loses that run or agent: some later spawn writes over
  it. This happens for every such id and for no other (`AgentTreeCollisions.RootStandsExactlyWithoutCollision`); such a
  root can even become its own parent (`AgentTreeCollisions.CollidingRootBecomesItsOwnParent`).
* A revision leaves the first unfinished step running exactly when the running step, if the new plan keeps it, comes first
  of the new plan's steps that are not history (`RunStateLaws.RevisionKeepsOrderExactly`, over whole runs
  `PlanExecution.RevisedRunsStayInLineExactly`; a failing input is `RunStateLaws.RevisionPutsStepBeforeRunning`).
  Otherwise the next call may start a step that never granted the called tool: an accepted call runs the granting step
  exactly when the running step is a tool step or the first unfinished one (`RunStateLaws.CallsStartTheGrantingStep`,
  `RunStateLaws.RevisionCanMisplaceTheStart`).
* A run with two unfinished model steps in a row never gets to the tool steps behind them unless its plan is revised; this is
  exactly when it cannot get its tool steps done (`PlanProgress.ToolsGetDoneExactly`).
* Lowering a capability schedules a tool twice, as an inserted prerequisite and on its own, exactly when an earlier tool
  of the capability leads to it (`PlanCompiler.LoweringRepeatsExactly`, at an input `PlanCompiler.LoweringCanRepeat`).
* Prerequisites are taken from all registrations: a tool that is not enabled is in a compiled plan exactly when a tool that
  runs leads to it (`PlanCompiler.DisabledToolsAreInserted`).
* Splitting the only required unit into optional children stores the units but not the record: the revision stands still,
  the totals go stale and the task completes undone. No other step does this (`LongTaskRuns.InvalidRecordExactly`,
  `LongTaskRuns.RevisionFailsExactly`, `LongTaskRuns.EqualRevisionsMeanEqualTasks`); three commands from creation lead
  there (`LongTaskRuns.LastRequiredUnitCanVanish`, `LongTaskRuns.VanishedTaskCompletes`).
* A long task with a reasoning-token limit hands out no unit unless some Run has reported usage and every report counts
  reasoning tokens; the exact condition for all limits is `LongTaskRuns.BudgetAdmitsClaimsExactly`, and before the first
  report `LongTaskRuns.FreshBudgetAdmitsClaimsExactly`.
* A line feed inside an unfinished progress text, inside an escape or right behind the closing quote does not end the
  line, so the record on the next line is not shown; the line feed behind a line so skipped does end it. The condition on
  the text is exact (`PlanningLines.NextRecordIsShownExactly`, `PlanningLines.CutOffRecordHidesNextRecord`).
* The incremental projection and the framing count records differently: a blank line counts for the one only. Their numbers
  agree exactly when no line before was blank, for a decoder that refuses broken lines
  (`PlanningNumbers.DeltasMatchProgressExactly`, without that assumption `PlanningNumbers.NumbersAgreeExactly`).

## Model

| member | source | states |
|---|---|---|
| DependencyGraph.Validate | typescript/src/agent-tree.ts:1095-1111 | the worklist check over sibling dependencies accepts exactly the graphs that name only siblings and have no cycle |
| DependencyGraph.Visit | typescript/src/agent-tree.ts:1099-1111 | one depth-first visit either finishes a node with everything it depends on, or shows that no ranking of the graph exists |
| AgentTreeSteps.StepIsSound | typescript/src/agent-tree.ts:344-872 | every public step keeps the whole tree invariant (causes active, one active run per agent, capacities, parallelism, leases, versions, checkpoint chains), provided host ids do not collide with generated ones |
| AgentTreeSteps.TimeKeepsSound | typescript/src/agent-tree.ts:979-989 | the invariant survives the passing of time |
| AgentTreeSteps.SpawnIsSound | typescript/src/agent-tree.ts:425-528 | a spawn of a whole batch keeps the invariant, although it writes the children one by one and their dependencies refer forward |
| AgentTreeSteps.FailIsSound | typescript/src/agent-tree.ts:764-795 | failing a run together with all its causal descendants leaves no active run below a finished one |
| AgentTreeSteps.CancelIsSound | typescript/src/agent-tree.ts:797-825 | canceling a subtree leaves no active run below a finished one |
| AgentTreeSteps.CompleteIsSound | typescript/src/agent-tree.ts:710-762 | a completion keeps context versions equal to done runs and the checkpoint chain linked |
| AgentTreeSteps.ClaimIsSound | typescript/src/agent-tree.ts:622-650 | a claim or a reclaim of an expired lease keeps the bound on unexpired running leases under the root |
| AgentTreeSteps.ReleaseWaitingIsSound | typescript/src/agent-tree.ts:689-708 | leaving the waiting state keeps the bound on running leases |
| AgentTreeSteps.ContinueIsSound | typescript/src/agent-tree.ts:530-620 | bringing an agent back with a new run keeps every clause, including the number of agents under a root |
| AgentTreeSteps.BeginRootIsSound | typescript/src/agent-tree.ts:344-423 | a new root with unused host ids keeps the invariant |
| AgentTreeSteps.GrantWithinAncestor | typescript/src/agent-tree.ts:64-91 | an agent's grant is contained in the grant of every ancestor, transitively |
| AgentTreeRuns.ReachableTreesAreSound | typescript/src/agent-tree.ts:344-872 | the invariant holds in every state of every execution under a monotone clock |
| AgentTreeRuns.CausesOfActiveRunsAreActive | typescript/src/agent-tree.ts:710-825 | in every reachable tree all causal ancestors of an active run are active, so a terminal run has no active descendant |
| AgentTreeRuns.ActiveRunsHaveLiveRoots | typescript/src/agent-tree.ts:864-872 | the root run of an active run is active and its root agent is not closed |
| AgentTreeRuns.StepEvolves | typescript/src/agent-tree.ts:344-872 | no step changes a settled run, lowers a lease epoch, reopens an agent, or moves an agent's context except by ending one of its runs |
| AgentTreeRuns.ClaimIssuesToken | typescript/src/agent-tree.ts:622-650 | a claim that returns a run issues a token (owner, epoch) which is accepted at once |
| AgentTreeRuns.ListedRunsAreClaimable | typescript/src/agent-tree.ts:890-907 | a run listed as runnable is handed out by the next claim |
| AgentTreeRuns.SupersededTokenIsRejected | typescript/src/agent-tree.ts:956-985 | a token of an earlier epoch than the run's is rejected for ever, so a newer claim shuts out every older one |
| AgentTreeRuns.RejectedTokenStaysRejected | typescript/src/agent-tree.ts:956-985 | under a monotone clock a token that is once rejected is rejected for ever, whatever steps follow |
| AgentTreeRuns.ContextStandsStill | typescript/src/agent-tree.ts:733-761 | while an agent has an active run its context version does not move |
| AgentTreeRuns.CompletionNeverConflicts | typescript/src/agent-tree.ts:710-761 | a completion that uses the version read after its claim cannot fail with a context conflict, over any steps in between |
| AgentTreeRuns.ChainCounts | typescript/src/agent-tree.ts:733-761 | the checkpoint chain of an agent is as long as its version and numbered without gaps |
| AgentTreeRuns.ChainRecordsDoneRuns | typescript/src/agent-tree.ts:733-761 | an agent's context version is its number of done runs, and the chain records exactly those runs |
| AgentTreeRuns.AuthorityOnlyNarrows | typescript/src/agent-tree.ts:64-91 | in every reachable tree grants narrow, depth stays within every proper ancestor's limit, and the agents under a root stay within its limit |
| AgentTreeRuns.ParallelismIsBounded | typescript/src/agent-tree.ts:622-708 | the running runs with unexpired leases under a root never exceed the root agent's maxParallelRuns |
| AgentTreeCollisions.RootStandsExactlyWithoutCollision | typescript/src/agent-tree.ts:472-480 | a fresh root's run and agent keep their identity through every continuation if and only if neither id is among the generated ids still to come; that is also exactly when the tree stays sound |
| AgentTreeCollisions.SomeoneTakesTheNumbers | typescript/src/agent-tree.ts:472-480 | from any tree two commands hand out the m-th run id and agent id to come, to a child, whoever had them before |
| AgentTreeCollisions.CollidingRootBecomesItsOwnParent | typescript/src/agent-tree.ts:472-520 | a root that took the m-th run id to come becomes its own parent when it spawns m children |
| AgentTreeRuns.ContinuationsStaySound | typescript/src/agent-tree.ts:344-872 | whatever admissible commands follow a sound tree, it stays sound |
| AgentTreeEffects.SpawnIsAcceptedExactly | typescript/src/agent-tree.ts:425-470 | a new spawn is accepted exactly for well-formed children, from the holder of a working run, within the creator's grant, depth and capacities |
| AgentTreeEffects.SpawnBringsChildren | typescript/src/agent-tree.ts:472-527 | each child is written as its author asked: agent, grant, depth, first run, and dependencies that are the runs of the siblings named; nothing else changes |
| AgentTreeEffects.RootBegins | typescript/src/agent-tree.ts:344-423 | exactly when a root may begin, and the running root run and agent it leaves |
| AgentTreeEffects.ContinuationBrings | typescript/src/agent-tree.ts:530-620 | exactly when an agent may be brought back, and the queued run that it gets |
| AgentTreeEffects.RequestsReplay | typescript/src/agent-tree.ts:425-560 | a spawn or continuation asked again answers from its receipt and changes nothing |
| AgentTreeEffects.WithinExactly | typescript/src/agent-tree.ts:64-91 | a grant lies within another exactly if it allows no tool, model, depth or number that the other does not |
| AgentTreeEffects.ClaimGrantsExactly | typescript/src/agent-tree.ts:622-650 | a claim hands out exactly an available run whose dependencies are over, under an open root with a free slot |
| AgentTreeEffects.ClaimStarts | typescript/src/agent-tree.ts:622-650 | a claim that hands the run out starts it under the claimer's new lease; any other answer changes nothing |
| AgentTreeEffects.SuspendGivesUp | typescript/src/agent-tree.ts:652-658 | exactly when a run is suspended, and that it gives up its lease and waits |
| AgentTreeEffects.RenewalExtends | typescript/src/agent-tree.ts:660-675 | exactly when a lease is renewed, and that only its end moves |
| AgentTreeEffects.WaitingKeepsLease | typescript/src/agent-tree.ts:677-708 | exactly when a run starts to wait or runs again, its lease untouched |
| AgentTreeEffects.CompletionDoes | typescript/src/agent-tree.ts:710-762 | exactly when a completion is accepted; then the run is done and a checkpoint that comes from it heads the agent's context |
| AgentTreeEffects.FailEnds | typescript/src/agent-tree.ts:764-795 | an accepted failure fails the run with its code and cancels every active run it caused, and nothing else |
| AgentTreeEffects.CancelEnds | typescript/src/agent-tree.ts:797-825 | a cancellation of a known run cancels exactly the active runs among it and its effects, and answers which |
| AgentTreeEffects.ClosingCloses | typescript/src/agent-tree.ts:864-872 | exactly an open idle agent is closed |
| AgentTreeEffects.AcceptedExactly | typescript/src/agent-tree.ts:956-985 | who holds a lease is accepted exactly with its owner, its epoch and before its end |
| AgentTreeRepository.RunTreeRepository.BeginRoot | typescript/src/agent-tree.ts:344-423 | writes a root agent and run, replays an equal earlier command or refuses, for any host ids; equals its specification, and keeps the invariant when the host ids are free |
| AgentTreeRepository.RunTreeRepository.SpawnAgents | typescript/src/agent-tree.ts:425-528 | the batch write with its checks, receipts and replays; equals its specification |
| AgentTreeRepository.RunTreeRepository.PrepareSpawn | typescript/src/agent-tree.ts:425-453 | the checks of a spawn in the source's order: receipt, claim, shape, authority, capacity |
| AgentTreeRepository.RunTreeRepository.RefuseSpawn | typescript/src/agent-tree.ts:453-471 | the authority and capacity checks, in order |
| AgentTreeRepository.RunTreeRepository.AddChildren | typescript/src/agent-tree.ts:472-527 | the loop that writes the children builds exactly the specified tree and receipt |
| AgentTreeRepository.RunTreeRepository.ContinueAgent | typescript/src/agent-tree.ts:530-620 | a continuation with its receipt; equals its specification |
| AgentTreeRepository.RunTreeRepository.ClaimRun | typescript/src/agent-tree.ts:622-650 | claiming and reclaiming; equals its specification and keeps the invariant |
| AgentTreeRepository.RunTreeRepository.SuspendRun | typescript/src/agent-tree.ts:652-658 | suspension; equals its specification |
| AgentTreeRepository.RunTreeRepository.RenewRunLease | typescript/src/agent-tree.ts:660-675 | renewal of an unexpired lease; equals its specification |
| AgentTreeRepository.RunTreeRepository.MarkWaiting | typescript/src/agent-tree.ts:677-687 | a running run starts to wait; equals its specification |
| AgentTreeRepository.RunTreeRepository.ReleaseWaiting | typescript/src/agent-tree.ts:689-708 | a waiting run runs again if there is room; equals its specification |
| AgentTreeRepository.RunTreeRepository.CompleteRun | typescript/src/agent-tree.ts:710-762 | completion with a new checkpoint; equals its specification |
| AgentTreeRepository.RunTreeRepository.FailRun | typescript/src/agent-tree.ts:764-795 | failure with all causal descendants; equals its specification |
| AgentTreeRepository.RunTreeRepository.CancelEffects | typescript/src/agent-tree.ts:764-795 | the sweep over all runs cancels exactly the active causal descendants |
| AgentTreeRepository.RunTreeRepository.CancelSubtree | typescript/src/agent-tree.ts:797-825 | the worklist cancellation; equals its specification and reports the canceled runs |
| AgentTreeRepository.RunTreeRepository.Subtree | typescript/src/agent-tree.ts:797-812 | the worklist collects exactly the runs below the given one |
| AgentTreeRepository.RunTreeRepository.CloseAgent | typescript/src/agent-tree.ts:864-872 | an idle agent is closed; equals its specification |
| AgentTreeRepository.RunTreeRepository.FindActiveRun | typescript/src/agent-tree.ts:999-1003 | whether an agent has an active run |
| AgentTreeRepository.RunTreeRepository.IsCausalDescendant | typescript/src/agent-tree.ts:1014-1021 | the parent walk decides causal descent |
| AgentTreeRepository.RunTreeRepository.IsAncestor | typescript/src/agent-tree.ts:1005-1012 | the parent walk over agents decides ancestry |
| AgentTreeRepository.RunTreeRepository.CollectParticipants | typescript/src/agent-tree.ts:463-467 | the agents that take part in a root run |
| AgentTreeRepository.RunTreeRepository.CountRunning | typescript/src/agent-tree.ts:635-639 | how many runs run under a root with an unexpired lease |
| AgentTreeRepository.RunTreeRepository.HasUnfinishedDependency | typescript/src/agent-tree.ts:631 | whether a required dependency is not done |
| PlanCompiler.PlanningCapabilities | src/purra/plan_compiler.py:345-376 | grouping succeeds exactly when the registrations of each capability agree and no capability takes a tool's name |
| PlanCompiler.OrderedRuntimeNames | src/purra/plan_compiler.py:379-404 | succeeds exactly when the capability's tools do not need each other in a circle, and then gives all of them, each once, prerequisites first, in the order of a depth-first visit |
| PlanCompiler.InsertableExactly | src/purra/plan_compiler.py:180-203 | the prerequisites of a tool can be inserted if and only if it and everything it leads to is registered, nothing it leads to is excluded, and nothing on the way leads back to itself |
| PlanCompiler.FindStepId | src/purra/plan_compiler.py:420-430 | the loop finds the first unused truncated id and always stops |
| PlanCompiler.AppendPrerequisites | src/purra/plan_compiler.py:180-236 | the recursive insertion succeeds exactly when the prerequisites are insertable, inserts exactly what the tool leads to, each once and behind what it needs, and a cycle error carries a real cycle |
| PlanCompiler.LowerCapability | src/purra/plan_compiler.py:260-317 | lowering a capability succeeds exactly when its remaining tools, in order, can run; each step carries its own tool's risk, ids stay unique, and the planner's step waits for every private one |
| PlanCompiler.CompileStep | src/purra/plan_compiler.py:239-317 | one planner step is refused with its own fault, or succeeds exactly when its tools can run; it becomes hidden steps followed by the step itself, still waiting for what the planner said |
| PlanCompiler.StepStandsFor | src/purra/plan_compiler.py:239-275 | what a planner's step stands for: no tool, the one public enabled tool it names, or every enabled tool of its capability that is not done, each once; or why it stands for nothing |
| PlanCompiler.CompileWorkPlan | src/purra/plan_compiler.py:147-329 | the compilation succeeds exactly when registrations agree and every step stands for tools that can run when its turn comes; then every need is satisfied at the start, waived, or the tool of an earlier step, no prerequisite is inserted twice, ids are unique, dependencies point backwards, the planner's steps and dependency paths survive, every hidden or lowered step carries its tool's risk and title and stands before the step it helps, and the inserted and lowered tools are exactly those the steps lead to and stand for |
| PlanCompiler.InsertedByStepsExactly | src/purra/plan_compiler.py:180-317 | a tool is inserted if and only if, when the turn of some tool of some step comes, that tool leads to it and it is registered |
| PlanCompiler.DisabledToolsAreInserted | src/purra/plan_compiler.py:180-317 | a tool that is not enabled is in a compiled plan if and only if it is inserted, that is led to in this way |
| PlanCompiler.DoneAfterExactly | src/purra/plan_compiler.py:180-317 | a registered tool is done after others ran if and only if it was done, ran, or one of them leads to it |
| PlanCompiler.LoweringRepeatsExactly | src/purra/plan_compiler.py:268-317 | lowering a capability schedules one of its tools twice, inserted and then on its own, if and only if an earlier of its tools leads to it |
| PlanCompiler.LoweringCanRepeat | src/purra/plan_compiler.py:268-317 | a failing input: the first of two tools needs one outside the capability, which needs the second |
| RunState.FirstFault | src/purra/run_state.py:814-829 | no fault is reported exactly when every step satisfies the execution contract |
| Prelude.Dedupe | src/purra/run_state.py:300-309 | the same elements, each once, in the order of first occurrence |
| RunStateLaws.DoneStaysDone | src/purra/run_state.py:219-689 | no reducer and no revision changes or drops a done step |
| RunStateLaws.DoneForEver | src/purra/run_state.py:219-689 | a done step is in every later snapshot, unchanged, over any sequence of commands |
| RunStateLaws.RunKeepsValid | src/purra/run_state.py:65-91 | every snapshot of every run passes the snapshot constructor's checks |
| RunStateLaws.GrantsAreUnfinishedTools | src/purra/run_state.py:727-798 | current and future grants together are exactly the tools of the unfinished tool steps from the running step on, and none if the run is over or no step runs |
| RunStateLaws.CallsStartTheGrantingStep | src/purra/run_state.py:329-384 | an accepted call leaves exactly the granting step running if and only if the running step is a tool step or the first unfinished one |
| RunStateLaws.RevisionKeepsOrderExactly | src/purra/run_state.py:219-310 | an accepted revision leaves the first unfinished step running if and only if a running step that the new plan keeps comes first of its steps that are not history |
| RunStateLaws.RevisedStatuses | src/purra/run_state.py:243-291 | a kept running step silences every other start; otherwise the steps that are not history are opened anew, with at most one running |
| RunStateLaws.RevisionPutsStepBeforeRunning | src/purra/run_state.py:219-310 | a failing input: a revision places a new step before the preserved running step |
| RunStateLaws.RevisionCanMisplaceTheStart | src/purra/run_state.py:329-384 | what follows from it: the next accepted call then starts a step that never granted the called tool |
| RunStateEffects.StepKinds | src/purra/run_state.py:832-841 | every step is a tool step, a model step or a confirmation; reading is always a tool's work |
| RunStateEffects.OverIsOver | src/purra/run_state.py:312-689 | a run that is over answers every reducer with itself and refuses a revision |
| RunStateEffects.DeltaStartsModel | src/purra/run_state.py:312-327 | a model delta starts the first unfinished step exactly if nothing runs and it is a model step whose dependencies are done |
| RunStateEffects.CompletionSettles | src/purra/run_state.py:481-520 | the final response finishes every step: which are done by it, which blocked, and the run with them |
| RunStateEffects.DurableExecutionFinishes | src/purra/run_state.py:522-592 | a durable execution that covers exactly the plan's steps gets all of them done, and is refused otherwise |
| RunStateEffects.ReportsAreTaken | src/purra/run_state.py:594-636 | reports about known steps are taken up step by step, never undoing a done one; unknown steps are refused |
| RunStateEffects.FailureAndCancellation | src/purra/run_state.py:638-689 | a failure fails the running step, a cancellation blocks every unfinished one, and nothing else changes |
| RunStateEffects.InitializationBegins | src/purra/run_state.py:173-216 | a run begins with its plan's steps: done ones kept with their summaries, the first other one running, the rest pending |
| RunStateEffects.AheadAre | src/purra/run_state.py:219-310 | what a revision plans ahead: the plan's steps that are not history, or if there are none one closing model step with an unused id |
| RunStateEffects.RevisionTakesOver | src/purra/run_state.py:219-310 | a revision takes over title, goal and work of the new plan and keeps exactly what is finished in front |
| RunStateEffects.RevisionPlansAhead | src/purra/run_state.py:219-310 | behind the history stand the new plan's other steps, in order, as planned; a kept running step goes on with its summary and error |
| RunStateLoops.Complete | src/purra/run_state.py:481-520 | the loop computes the specified steps and status and leaves every step finished |
| RunStateLoops.Sync | src/purra/run_state.py:594-636 | taking up the reports one by one, in any order, gives the specified steps |
| RunStateLoops.FutureToolNames | src/purra/run_state.py:757-798 | the scans compute the future grants |
| RunStateLoops.FindStepId | src/purra/run_state.py:896-902 | the loop finds the first unused numbered id and always stops |
| PlanExecution.StartsOnPlan | src/purra/run_state.py:173-216 | a plan starts exactly when the runtime can execute every step, and then exactly the first unfinished step runs |
| PlanExecution.DeltaChangesNothing | src/purra/run_state.py:312-327 | in a run without revisions a model delta never changes anything, because the next model step already runs |
| PlanExecution.CallsStayOnPlan | src/purra/run_state.py:329-384 | a call is accepted exactly when it is granted, and then the first unfinished step is its tool step, running |
| PlanExecution.RunStaysOnPlan | src/purra/run_state.py:312-449 | over any deltas, calls and rounds exactly the first unfinished step runs, so no snapshot is refused |
| PlanProgress.CompletedRoundMovesOn | src/purra/run_state.py:386-449 | a completed round on a running tool step is accepted, finishes that step, starts the next unfinished one and changes nothing else |
| PlanProgress.OtherRounds | src/purra/run_state.py:386-434 | a progressed round changes nothing, a declined one blocks the step and starts none, other outcomes are refused |
| PlanProgress.FailedRoundStops | src/purra/run_state.py:451-480 | a failed round fails the running tool step with its reason and starts none |
| PlanProgress.CallAndFinishProgress | src/purra/run_state.py:329-449 | each accepted call followed by a completed round strictly lowers the number of unfinished steps |
| PlanProgress.ToolsGetDoneExactly | src/purra/run_state.py:329-449 | all tool steps of a run can get done if and only if no two unfinished model steps follow each other before an open tool step |
| PlanExecution.RevisionStaysOnPlanExactly | src/purra/run_state.py:219-310 | a revision of a run in line leaves a plan the runtime can execute, and the run is in line on it if and only if a kept running step comes first |
| PlanExecution.RevisedRunsStayInLineExactly | src/purra/run_state.py:219-449 | over any deltas, calls, rounds and revisions exactly the first unfinished step runs at every moment if and only if every accepted revision puts a running step that it keeps first |
| PlanExecution.CompiledRunsMeetNeeds | src/purra/plan_compiler.py:180-317 | compiling and running: a tool step runs only when everything its tool needs was satisfied at the start, is waived, or is the tool of a done step |
| PlanExecution.RevisedRunsMeetNeeds | src/purra/run_state.py:219-449 | the same over runs with such revisions, if each brings in steps that need only what was given, what is done, and each other |
| PlanExecution.CompiledRevisionsBringReady | src/purra/engine/dynamic_planning.py:282-298 | a plan compiled with the tools of the done steps as satisfied brings in such steps, unless a step that is dropped as history would have provided a tool that is neither given nor done |
| PlanExecution.CompiledRunsWithRevisionsMeetNeeds | src/purra/plan_compiler.py:147-329 | compiling, running and replanning together: needs stay met and the run stays in line |
| PlanExecution.CompiledRunsAcceptGrantedCalls | src/purra/run_state.py:329-384 | in such a run a call is accepted exactly when granted, names one registered tool, and all that tool needs is behind it |
| LongTaskSteps.StepIsFine | src/purra/adapters/durable_memory.py:744-1339 | every step keeps the task invariant and, if it changes the record or the units, strictly raises the revision unless it answers that the record is invalid; when it does is `InvalidRecordExactly` |
| LongTaskSteps.CreatedIsSound | src/purra/adapters/durable_memory.py:586-644 | a created task satisfies the invariant |
| LongTaskSteps.ExpandIsFine | src/purra/adapters/_long_task_mixins.py:337-422 | a split that rewrites downstream dependencies keeps started units ready, names unique and the graph acyclic |
| LongTaskSteps.ResumeIsFine | src/purra/adapters/durable_memory.py:840-888 | reviving failed, blocked and canceled units keeps the invariant and the cached totals |
| LongTaskSteps.ClaimIsFine | src/purra/adapters/_long_task_mixins.py:53-150 | a claim, with its expiry sweep, keeps the invariant |
| LongTaskSteps.UsageIsFine | src/purra/adapters/durable_memory.py:744-773 | recording usage keeps the aggregate equal to the sum over distinct Runs |
| LongTaskRuns.ReachableTasksAreSound | src/purra/adapters/_long_task_mixins.py:112-149 | in every reachable state claimed, running, completed and expanded units have all dependencies completed; the cached totals equal a recount if and only if some unit is still required |
| LongTaskRuns.InvalidRecordExactly | src/purra/adapters/_long_task_mixins.py:337-422 | while some unit is required, a step answers that the record is invalid if and only if it is an admitted split of the only required unit into optional children |
| LongTaskRuns.RevisionFailsExactly | src/purra/adapters/durable_memory.py:1082-1111 | such a split is exactly the step that changes the record or the units without raising the revision |
| LongTaskRuns.EqualRevisionsMeanEqualTasks | src/purra/adapters/durable_memory.py:1082-1111 | along a run of a task with a required unit, equal revisions mean the same record and the same units, and conversely, if and only if no step is such a split |
| LongTaskRuns.LastRequiredUnitCanVanish | src/purra/adapters/_long_task_mixins.py:404-422 | concrete failure, from creating, starting and claiming: splitting the one required unit into an optional child changes the units, then the record is refused and its totals go stale |
| LongTaskRuns.VanishedTaskCompletes | src/purra/adapters/durable_memory.py:922-966 | a running task without required units is completed by the next finalization, whatever its units |
| LongTaskRuns.RunEvolves | src/purra/adapters/_long_task_mixins.py:236-422 | completed and expanded units never change again and lease epochs never fall, over any steps |
| LongTaskRuns.SupersededWorkerIsRefused | src/purra/adapters/durable_memory.py:1014-1041 | a worker whose lease was superseded by a newer claim can never touch the unit again |
| LongTaskRuns.ParallelismIsBounded | src/purra/adapters/_long_task_mixins.py:112-149 | under a clock that does not go back a task never has more live leases than its parallelism |
| LongTaskRuns.ClaimedUnitIsReady | src/purra/adapters/_long_task_mixins.py:112-149 | a claim hands out a unit whose dependencies are completed, under the next epoch, and its token is accepted at once |
| LongTaskRuns.CompletionReplays | src/purra/adapters/_long_task_mixins.py:236-282 | completing a unit again with the same token and output succeeds and changes nothing |
| LongTaskRuns.ExpansionReplays | src/purra/adapters/_long_task_mixins.py:337-362 | expanding a unit again succeeds for the same token and is refused for any other |
| LongTaskRuns.UsageIsCountedOnce | src/purra/adapters/durable_memory.py:744-773 | the usage of a Run is counted once; a different report for it is refused |
| LongTaskRuns.BudgetAdmitsClaimsExactly | src/purra/adapters/durable_memory.py:1269-1301 | the budget lets a claim pass if and only if token limits have complete reports, a reasoning limit has at least one report and every report counts reasoning tokens, and the summed reports leave something of every limit |
| LongTaskRuns.FreshBudgetAdmitsClaimsExactly | src/purra/adapters/durable_memory.py:1269-1301 | before any report that means: no reasoning limit, and no other limit of zero |
| LongTaskRuns.SpentBudgetStopsClaims | src/purra/adapters/_long_task_mixins.py:53-80 | otherwise a claim hands out nothing and pauses or fails the task |
| LongTaskEffects.FinalizationOutcome | src/purra/adapters/durable_memory.py:922-966 | how a finalization ends a running task, exactly by what its units say: failed, completed, paused for want of work, or left alone |
| LongTaskEffects.FinalizationElsewhere | src/purra/adapters/durable_memory.py:922-966 | in every other state it ends the task by deadline or cancellation, or leaves it alone |
| LongTaskEffects.ClaimOutcome | src/purra/adapters/_long_task_mixins.py:53-150 | a claim fails used-up units, and gives out the first unit that can be given exactly if fewer are worked on than may be |
| LongTaskEffects.ClaimElsewhere | src/purra/adapters/_long_task_mixins.py:53-80 | past the deadline, out of budget or on a task that does not run a claim gives nothing out |
| LongTaskEffects.StartStarts | src/purra/adapters/durable_memory.py:775-796 | exactly when a task starts, and what it is ended by instead |
| LongTaskEffects.PauseStops | src/purra/adapters/durable_memory.py:812-838 | exactly when a task pauses; whoever works on a unit gives it back with the attempt |
| LongTaskEffects.ResumeRevives | src/purra/adapters/durable_memory.py:840-888 | a paused or failed task is resumed exactly if attempts go to those units that stopped |
| LongTaskEffects.CancelStops | src/purra/adapters/durable_memory.py:890-898 | a cancellation cancels every unit that was not settled |
| LongTaskEffects.RequestIsRemembered | src/purra/adapters/durable_memory.py:900-920 | the first request of a cancellation is remembered with its time |
| LongTaskEffects.RecoveryStops | src/purra/adapters/durable_memory.py:968-996 | after a restart a running task that nobody works on is paused, or canceled if that was requested |
| LongTaskEffects.ExpiryEnds | src/purra/adapters/durable_memory.py:798-810 | a passed deadline fails the task and every unit that was not settled |
| LongTaskEffects.BudgetStopsExactly | src/purra/adapters/durable_memory.py:1269-1301 | which limit stops a task: unknown usage first, then the limits in their order, with or without room left at the limit |
| LongTaskEffects.UsageCounts | src/purra/adapters/durable_memory.py:744-773 | a first report is added to the totals; only totals beyond a limit stop the task |
| LongTaskEffects.BindingBinds | src/purra/adapters/_long_task_mixins.py:152-185 | binding a Run starts the unit, unless Run or unit are bound otherwise |
| LongTaskEffects.RenewalAndReport | src/purra/adapters/_long_task_mixins.py:187-234 | renewing moves the end of the lease, a report adds metadata, and nothing else changes |
| LongTaskEffects.CompletionCompletes | src/purra/adapters/_long_task_mixins.py:236-282 | the holder completes the unit with its output, and the totals count it |
| LongTaskEffects.CompletedUnitStands | src/purra/adapters/_long_task_mixins.py:236-262 | a completed unit accepts only its own completion again |
| LongTaskEffects.SettlementSettles | src/purra/adapters/_long_task_mixins.py:284-335 | what each decision makes of the failed unit, and when it reaches the whole task |
| LongTaskEffects.InterruptionPauses | src/purra/adapters/_long_task_mixins.py:424-446 | an interrupted unit waits again with its attempt given back, and the task is paused |
| LongTaskEffects.SplitSplits | src/purra/adapters/_long_task_mixins.py:337-422 | a split is carried out exactly unless it clashes or would make units wait in a circle: children wait for what the parent waited for, the others for the replacements |
| LongTaskEffects.CreationCreates | src/purra/adapters/durable_memory.py:586-644 | a created task is pending, with each unit as its author described it |
| LongTaskStore.StoredLongTask.constructor | src/purra/adapters/durable_memory.py:586-644 | builds the specified task from a valid command |
| LongTaskStore.StoredLongTask.ClaimUnit | src/purra/adapters/_long_task_mixins.py:53-150 | the claim with its sweep and scans; equals its specification |
| LongTaskStore.StoredLongTask.ChooseUnit | src/purra/adapters/_long_task_mixins.py:112-138 | finds the eligible unit with the least position, the earliest of several, or shows there is none |
| LongTaskStore.StoredLongTask.BindUnitRun | src/purra/adapters/_long_task_mixins.py:152-185 | binding a Run; equals its specification |
| LongTaskStore.StoredLongTask.RenewUnitLease | src/purra/adapters/_long_task_mixins.py:187-209 | renewal; equals its specification |
| LongTaskStore.StoredLongTask.UpdateUnitProgress | src/purra/adapters/_long_task_mixins.py:215-234 | progress metadata; equals its specification |
| LongTaskStore.StoredLongTask.CompleteUnit | src/purra/adapters/_long_task_mixins.py:236-282 | completion; equals its specification |
| LongTaskStore.StoredLongTask.SettleUnitFailure | src/purra/adapters/_long_task_mixins.py:284-335 | failure settlement for every disposition; equals its specification |
| LongTaskStore.StoredLongTask.ExpandUnit | src/purra/adapters/_long_task_mixins.py:337-422 | splitting, with all its refusals in order; equals its specification |
| LongTaskStore.StoredLongTask.InterruptUnit | src/purra/adapters/_long_task_mixins.py:424-446 | interruption; equals its specification |
| LongTaskStore.StoredLongTask.CheckAcyclic | src/purra/adapters/durable_memory.py:1243-1249 | accepts exactly the acyclic unit graphs |
| LongTaskStore.StoredLongTask.RecordUsage | src/purra/adapters/durable_memory.py:744-773 | usage accounting; equals its specification |
| LongTaskStore.StoredLongTask.Start | src/purra/adapters/durable_memory.py:775-796 | start; equals its specification |
| LongTaskStore.StoredLongTask.Expire | src/purra/adapters/durable_memory.py:798-810 | deadline expiry; equals its specification |
| LongTaskStore.StoredLongTask.Pause | src/purra/adapters/durable_memory.py:812-838 | pause; equals its specification |
| LongTaskStore.StoredLongTask.Resume | src/purra/adapters/durable_memory.py:840-888 | resume; equals its specification |
| LongTaskStore.StoredLongTask.Cancel | src/purra/adapters/durable_memory.py:890-898 | cancel; equals its specification |
| LongTaskStore.StoredLongTask.RequestCancel | src/purra/adapters/durable_memory.py:900-920 | a cancellation request; equals its specification |
| LongTaskStore.StoredLongTask.FinalizeIfComplete | src/purra/adapters/durable_memory.py:922-966 | finalization with all its branches; equals its specification |
| LongTaskStore.StoredLongTask.RecoverAfterRestart | src/purra/adapters/durable_memory.py:968-996 | restart recovery of one task; equals its specification |
| LongTaskStore.StoredLongTask.RefreshTotals | src/purra/adapters/durable_memory.py:1099-1111 | the recount, and the record that is refused when no unit is required |
| LongTaskStore.StoredLongTask.RunnableWork | src/purra/adapters/durable_memory.py:1156-1180 | whether something is being worked on or can be claimed |
| LongTaskStore.StoredLongTask.RequireClaim | src/purra/adapters/durable_memory.py:1014-1041 | the lease check, which ends the task instead when the deadline has passed |
| ArtifactLaws.StepIsSound | src/purra/adapters/durable_memory.py:92-393 | every operation keeps records, batches, receipts and claims consistent |
| ArtifactLaws.ReachableStoresAgree | src/purra/adapters/durable_memory.py:164-220 | in every reachable store next_sequence and committed_item_count are what the batches say and the sequences are contiguous |
| ArtifactLaws.ReceiptsMatchBatches | src/purra/adapters/durable_memory.py:164-220 | receipts and batches correspond one to one |
| ArtifactLaws.MaintenanceFindsNoMisplacedClaim | src/purra/adapters/durable_memory.py:349-372 | the invalid-target branch of maintenance is unreachable |
| ArtifactLaws.RejectedClaimStaysRejected | src/purra/adapters/durable_memory.py:511-526 | under a clock that does not go back a claim token once rejected is rejected for ever |
| ArtifactLaws.StepIsVersioned | src/purra/adapters/durable_memory.py:164-270 | content only grows, an equal revision means equal content, and a closed artifact does not change |
| ArtifactLaws.OpenArtifactsSurvive | src/purra/adapters/durable_memory.py:373-387 | maintenance never purges an open artifact |
| ArtifactLaws.AppendReplays | src/purra/adapters/durable_memory.py:542-555 | an append sent again returns its receipt and changes nothing; other content under its key is refused |
| ArtifactLaws.OneAppendPerRevision | src/purra/adapters/durable_memory.py:498-503 | of two appends that expect the same revision at most one lands |
| ArtifactLaws.PurgeListIsUnique | src/purra/adapters/durable_memory.py:373-387 | which artifacts a sweep purges, and in which order, is determined by the store |
| ArtifactEffects.CreationCreates | src/purra/adapters/durable_memory.py:92-132 | exactly when an artifact is created, answered again or refused, and the empty open one created |
| ArtifactEffects.AppendAppends | src/purra/adapters/durable_memory.py:164-220 | an append with a new key lands exactly from the holder at the current revision, next in sequence; batch, counters, receipt and claim follow |
| ArtifactEffects.ClosingCloses | src/purra/adapters/durable_memory.py:227-270 | a finalization leaves the artifact finalized with its resource and coverage, an abort aborted, both exactly from the holder of the claim |
| ArtifactEffects.AcquisitionGives | src/purra/adapters/durable_memory.py:272-299 | the claim goes exactly to who asks at the current revision while nobody else holds it |
| ArtifactEffects.RenewalAndRelease | src/purra/adapters/durable_memory.py:308-335 | only the holder moves the end of its claim or gives it up |
| ArtifactEffects.RunReleases | src/purra/adapters/durable_memory.py:337-347 | all claims of a Run are given up, and no others |
| ArtifactEffects.MaintenanceSweeps | src/purra/adapters/durable_memory.py:349-393 | a sweep drops and counts exactly the expired and the orphaned claims, and purges exactly what was kept for the purged artifacts |
| ArtifactStore.InMemoryArtifactStore.Create | src/purra/adapters/durable_memory.py:92-132 | creation and its replays; equals its specification |
| ArtifactStore.InMemoryArtifactStore.Append | src/purra/adapters/durable_memory.py:164-220 | the guarded append; equals its specification |
| ArtifactStore.InMemoryArtifactStore.Finalize | src/purra/adapters/durable_memory.py:227-248 | finalization; equals its specification |
| ArtifactStore.InMemoryArtifactStore.Abort | src/purra/adapters/durable_memory.py:250-270 | abort; equals its specification |
| ArtifactStore.InMemoryArtifactStore.Acquire | src/purra/adapters/durable_memory.py:272-299 | claiming the pen; equals its specification |
| ArtifactStore.InMemoryArtifactStore.Renew | src/purra/adapters/durable_memory.py:308-322 | renewal; equals its specification |
| ArtifactStore.InMemoryArtifactStore.Release | src/purra/adapters/durable_memory.py:324-335 | release; equals its specification |
| ArtifactStore.InMemoryArtifactStore.ReleaseForRun | src/purra/adapters/durable_memory.py:337-347 | release of all claims of a Run; equals its specification |
| ArtifactStore.InMemoryArtifactStore.SweepClaims | src/purra/adapters/durable_memory.py:349-372 | the sweep drops and counts exactly the expired, orphaned and misplaced claims |
| ArtifactStore.InMemoryArtifactStore.FirstToPurge | src/purra/adapters/durable_memory.py:373-384 | the oldest closed artifacts, ties in dictionary order, up to the limit |
| ArtifactStore.InMemoryArtifactStore.PurgeArtifact | src/purra/adapters/durable_memory.py:557-572 | removes an artifact with everything kept for it; equals its specification |
| ArtifactStore.InMemoryArtifactStore.Maintain | src/purra/adapters/durable_memory.py:349-393 | the whole sweep; equals its specification and never reports an invalid target |
| Lexical.Total | src/purra/adapters/durable_memory.py:376-384 | the dictionary order used for ties is total |
| Utf8.EncodingKeepsOrder | typescript/src/structured.ts:117-120 | a code whose words split in order keeps the dictionary order and is injective |
| Utf8.OctetsSplit | typescript/src/structured.ts:112-120 | the UTF-8 octets of a smaller character are smaller at their first difference (section 3 of RFC 3629) |
| Utf8.OctetsDenote | typescript/src/structured.ts:112-120 | the octets of a character read back as that character (section 3 of RFC 3629) |
| Utf8.OrdersCoincide | src/purra/structured.py:117 | code-point order, UTF-8 octet order and lowercase-hex order of keys are one order |
| JsonIdentity.RuntimesAgree | typescript/src/structured.ts:98-121 | both runtimes write the same identity for every value |
| JsonIdentity.IdentitiesArePrefixFree | src/purra/structured.py:106-118 | no identity is the start of another: equal texts determine the value and what follows it, for arbitrary nesting |
| JsonIdentity.IdentityIsInjective | src/purra/structured.py:106-118 | two identities, written by either runtime, are equal if and only if the values are the same JSON up to the sign of zero |
| JsonIdentity.NormalFormHasSameIdentity | src/purra/structured.py:106-118 | normalizing zeros does not change the identity |
| JsonSnapshot.Visit | src/purra/structured.py:60-101 | the bounded copy succeeds exactly when nodes, depth, bytes and numbers fit, and then it is the normal form of the value |
| JsonSnapshot.SnapshotsKeepIdentity | src/purra/structured.py:270-275 | two raw values have the same identity, in either runtime, exactly when they mean the same JSON, whatever the order of their entries |
| PlanningText.ChunksDoNotMatter | src/purra/planning_stream.py:89-201 | the characters emitted do not depend on how the input is cut |
| PlanningText.RecordComesOut | src/purra/planning_stream.py:89-201 | every legal spelling of a text (section 7 of RFC 8259) in a compact progress record yields exactly that text, and the next record begins |
| PlanningText.RecordComesOutInChunks | src/purra/planning_stream.py:89-201 | the same for a record that arrives in any chunks |
| PlanningText.EveryTextComesOut | src/purra/planning_stream.py:89-201 | every text of Unicode scalar values has such a spelling |
| PlanningText.PairComesOut | src/purra/planning_stream.py:131-175 | a surrogate pair escape yields the one character it stands for |
| PlanningText.EscapesMean | src/purra/planning_stream.py:120-175 | four digits escape the character whose number they are, two surrogates one beyond the first plane, by position of the digits |
| PlanningText.ShortEscapesAre | src/purra/planning_stream.py:79-82 | the short escapes are those of section 7 of RFC 8259 |
| PlanningText.HexDigitsAre | src/purra/planning_stream.py:129-147 | a hexadecimal digit in either case |
| PlanningText.EmissionNeedsPrefix | src/purra/planning_stream.py:102-115 | for any input a character is emitted only from a line that begins with the exact progress prefix |
| PlanningLines.NextRecordIsShownExactly | src/purra/planning_stream.py:89-201 | after any text and a line feed a correct record on its own line is shown if and only if that line feed is not swallowed: the last line does not begin as a record and break off before its end, or follows a line feed that was itself swallowed |
| PlanningLines.SkipsExactlyWhenSwallowed | src/purra/planning_stream.py:102-199 | the parser skips the line behind a text exactly when its line feed is swallowed, and otherwise starts a new record |
| PlanningLines.OpenExactlyAtBrokenLine | src/purra/planning_stream.py:102-199 | within a line, the text is open or its closing quote was the last character if and only if the line is the prefix, legal spellings and an unfinished rest |
| PlanningLines.CutOffRecordHidesNextRecord | src/purra/planning_stream.py:188-199 | the failing inputs: a record cut off at any point of its text hides the correct record on the next line |
| PlanningNumbers.NumbersAgreeExactly | src/purra/planning_stream.py:203-208 | after the same complete lines the projection and the framing number the next record alike if and only if as many line feeds were swallowed as lines were blank |
| PlanningNumbers.DeltasMatchProgressExactly | src/purra/planning_stream.py:279-327 | with a decoder that refuses lines that break off, the deltas of an accepted progress record carry that record's number if and only if no line before it was blank |
| PlanningText.PlanningTextDeltaParser.Feed | src/purra/planning_stream.py:89-201 | the deltas of a chunk hold exactly the specified characters with their record numbers, and none is empty |
| PlanningText.PlanningTextDeltaParser.Accept | src/purra/planning_stream.py:102-199 | one character moves the parser as specified |
| PlanningStream.FeedSplits | src/purra/planning_stream.py:227-250 | feeding a text in two parts succeeds exactly when feeding it whole does, with the same state and records |
| PlanningStream.ChunksDoNotMatter | src/purra/planning_stream.py:227-277 | the same for every cut, so plan, ranges and the outcome of finish are the same |
| PlanningStream.FeedAccounts | src/purra/planning_stream.py:227-250 | consumed and buffered bytes together are always the bytes fed, within the limits |
| PlanningStream.DrainOrders | src/purra/planning_stream.py:279-327 | progress records cover disjoint rising byte ranges and are numbered in order |
| PlanningStream.StreamIsOrdered | src/purra/planning_stream.py:227-327 | the same over a whole stream, which has at most sixteen progress records |
| PlanningRecords.StreamTellsExactly | src/purra/planning_stream.py:227-327 | a stream is accepted exactly if it is Unicode within the limits and its lines are good and nothing but blank lines follows a plan; its progress, numbers, ranges and counters are what the lines say |
| PlanningRecords.StreamPlansExactly | src/purra/planning_stream.py:259-277 | an accepted stream finishes with a plan exactly if one non-blank line says that plan and only blank lines stand behind it |
| PlanningRecords.NothingFollowsThePlan | src/purra/planning_stream.py:285-286 | a record behind the plan makes the stream fail |
| PlanningRecords.RefusedLine | src/purra/planning_stream.py:279-327 | why a line is refused, in the source's order |
| PlanningRecords.RefusedFinish | src/purra/planning_stream.py:259-277 | why an open stream cannot finish |
| PlanningStream.PlanningStreamParser.Feed | src/purra/planning_stream.py:227-250 | feeding; equals its specification, on failure too |
| PlanningStream.PlanningStreamParser.Finish | src/purra/planning_stream.py:259-277 | finishing; equals its specification |
| PlanningStream.PlanningStreamParser.AcceptRecord | src/purra/planning_stream.py:279-327 | one record; equals its specification, with the counters it leaves on failure |
| PlanningStream.PlanningStreamParser.AcceptLines | src/purra/planning_stream.py:234-241 | the loop over complete lines |
| Apportionment.ProportionalShares | src/purra/context_budget.py:421-438 | shares of the pool: whole parts, then one token each to the largest remainders, earlier places first |
| Apportionment.ApportionmentIsUnique | src/purra/context_budget.py:421-438 | that description determines the shares |
| Apportionment.SharesFitWeights | src/purra/context_budget.py:421-438 | no share exceeds its weight while the pool does not exceed the weights |
| Apportionment.EnoughRemainders | src/purra/context_budget.py:430-437 | fewer tokens are left over than there are positive remainders |
| Apportionment.Rank | src/purra/context_budget.py:433-436 | the places sorted by remainder, largest first, earlier places first |
| ContextBudget.AllocateClaims | src/purra/context_budget.py:374-418 | fails exactly when the minimums do not fit; otherwise allocations sum to the smaller of pool and demand, lie between minimum and demand, respect priorities, and are apportioned by need within a priority |
| ContextBudget.AllocateContextBudget | src/purra/context_budget.py:187-253 | a budget is made exactly when it is affordable, with each reserve as set, and its own checks always pass; each refusal has its own fault |
| ContextBudget.DefaultReserves | src/purra/context_budget.py:355-368 | what a host does not reserve itself is a share of the window, rounded down and kept within bounds |
| ContextBudget.MaxGenerationTokens | src/purra/context_budget.py:256-289 | without claims the output reserves a budget can be made with are exactly the positive ones up to the ceiling, and there is no ceiling exactly when there is no such reserve |

## Left out

- Texts and arguments arrive normalized: trimming, emptiness and type checks of single fields are not modelled, nor are the wordings of errors.
- Metadata, profiles, instructions and checkpoint contents are opaque values; fingerprints, digests and receipts' digests are structural equality.
- Clocks are parameters read once per step (a renewal takes two readings); the order of readings inside one step is not modelled.
- The two-part string keys of the run tree's receipts, joined by a separator, are pairs.
- JavaScript map order is an explicit list of run ids, Python dictionaries are sequences where their order matters and maps where it does not.
- `exportState`, `importState`, aggregation of runs, the order of `listRunnable`, and lookups that only read one entry.
- Waiting, heartbeats, supervisors, abort signals and locks: the steps they call are modelled, in any interleaving.
- Long-task creation by a repository that already holds a matching or an active task, Run bindings, listings and searches; the run history and the failure payload kept in a unit's metadata.
- AgentTreeRepository.RunTreeRepository.BeginRoot: after a root whose ids collide with ids to come the invariant is gone, and the other methods of the class promise nothing.
- LongTaskStore.StoredLongTask.ChooseUnit: scans for the least position instead of sorting the candidates first; the unit chosen is the same.
- Claim tokens of artifacts are numbered in the order of issue instead of random; artifact items and coverage keys are opaque texts; `inspect` and the lookups are left out.
- ArtifactStore.InMemoryArtifactStore.SweepClaims: works on a copy of the claims that the sweep then stores.
- RunState: the list of step updates beside a new snapshot, timestamps and execution checkpoints.
- PlanCompiler.AppendPrerequisites: which of its three faults a failing insertion reports is pinned down for the cycle error only.
- PlanCompiler: projections of tool names and schemas for the planner.
- The JSON decoder behind a planning record is a parameter, as is the test for a blank text.
- JsonSnapshot.Visit: which binary64 numbers are interoperable is a parameter, and cyclic values do not exist in the model.
- The JSON scanner of `parse` and `parseDocument`, schema validation and the SHA-256 digest.
- The default safety reserve of the context budget (five per cent of the window, rounded up in floating point) is a parameter, and so is the estimate of tool schemas.
- Trimming of messages by turn.
