# Verified models of corpos: coding chain, agent loop, file tools, tree budgets

This project models the stateful core of corpos in Dafny and proves what its design
relies on. To check it, use `dafny verify dfyconfig.toml`.

**The coding chain** (`internal/coding`). An orchestrator drives a list of atomic tasks
(ATs). Each runs in a worktree forked from an integration branch, through a worker loop, a
gate, an independent verifier and an output contract. An operator can retry, skip, abort,
edit, force-advance, or insert a fix branch. Everything is emitted as delta events.
`Orchestration.Orchestrator` has the source's fields and updates them in place. Each
operation is proved equal to a step (or a run of steps) of the state machine
`ChainMachine`, on the run state, the event log, the commit graph and the counters
together. Its ghost `chain` and `trace` say which run it is the outcome of, so each theorem
about `Chain.After(steps)` holds of every object that can exist. Worker attempts, gate exit
codes, verifier reports, commits and refs are arbitrary inputs.

- `CodingTypes`, `EventLog` (the log, `Fold`, `Compact`), `LogCompaction` (exactly when
  compaction keeps the projection), `WorkerGate` (gate, worker loop, verifier, one AT run),
  `RunOutcome` (how an AT run ends, what it leaves and what it tells, from its inputs),
  `StepEffects` (what each intervention changes, field by field), `CleanRun` (the AT runs
  that succeed).
- `ChainMachine` (the machine), `ChainShape` (the shape of the AT list), `ChainStanding` (what
  every run keeps), `ChainProofs` (the log in step with the state), `ChainTheorems`,
  `CrashResume`, `ChainEffort` and `EffortMet` (the effort bounds, and the runs that meet
  them), `ChainNames` (exactly when slugs and log can be trusted),
  `ChainForce`, `Lineage` and `HeadLine` (the integration branch), `StaleFork` and
  `ChainWitnesses` (reachable failures).

**The agent loop** (`internal/agent`). `Transcript` defines the provider's pairing rule,
`Reminders`, `Eviction` and `Compactor` are the four rewrites of the transcript, `Retention`
says what they never lose (system head, goal, and the prompt until a compaction folds it),
and `AgentLoop.Loop` is the round loop, with its counters, breakers, fault recovery, gate and
closers. Model answers, faults, tool results, gate results, guards, and what the router
grants are arbitrary inputs (`AgentTypes.Round`, one per round). A ghost `trace` records
model calls with the transcript sent and what it was to keep, tool calls, gate evaluations
and audits.

**The file tools** (`internal/fsorgan`). `LineEdit` is the white-space-tolerant edit,
`NumberedRead` the numbered listing and the stripper, `TextEdit` the ladder of exact and
fallback edits, `ReadRegistry` the read-before-write registry with every other process free
to change files in between, at any modification time, `ReadSight` what a whole read tells
and what the registry lets through.

**Tree budgets** (`internal/cost`, `internal/router`). `TreeBudget` has the three counters
and all interleavings of loops that check first and pay later. `StrongTurns` has the router
that picks the rung of a turn (bounce off a spent top, availability fallback in both
directions, escalation, stickiness) and all interleavings of a tree of routers over one
strong-turn budget, with rungs coming and going at will.

## Where the code falls short of its comments

The general claim is false in these places. The model keeps the code's behaviour and states
the exact condition.

- `Fold(Compact(log)) == Fold(log)` (internal/coding/events.go:108) holds exactly on the
  logs whose inserted records were last recorded at the index they were inserted at
  (`CompactionExact`). Inserting strictly rightward is enough (`RightwardCompaction`). On
  every two-task chain, branching the second task and then the first breaks it
  (`LeftwardBreaksCompaction`).
- The log folds to the live state in every run exactly when no task is named like a branch of
  another (`EventSourcingExactly`), and the same condition decides whether slugs stay
  distinct (`SlugsDistinctExactly`). `Chain.Validate` does not check it. Shape, progress, the
  effort bounds, certification and lineage hold without it.
- `Abort` is not terminal: a resumed run goes on as if it had not been aborted
  (`AbortThenResume`).
- An accepted `force_advance` reopens a resolved AT exactly when the AT behind the current one
  is resolved (`ForceReopensExactly`). At a branch, that AT is always the target the branch
  was to replace (`ForceReopensTarget`), and on every chain a run reopens it (`ForceReopens`).
- A credited commit can leave the integration branch. A run keeps all of them on it exactly
  when each landing, force and rewind moves the ref to a commit that reaches what stays
  credited (`HeadLine.RunExactly`); whether an AT can be run without that risk is known
  beforehand (`PerformSafely`). On every two-task chain with gates, a run in which a stale
  fork point is used ends in success without a credited fix (`CreditLeavesBranch`). `Disciplined`
  is a set of checks before each step that is enough (`IntegrationLineage`).
- The read registry can permit a blind overwrite, exactly when an outside change bears a time
  that is not after the agent's mark (`MissedExactly`), and there are such runs
  (`ChangeMissed`). A whole read marks a file as read in full even when it cut a line: it
  tells the lines of the file exactly when none is longer than the cap (`ReadTellsExactly`),
  and a tail never shown may be overwritten (`TailUnseen`).
- `StrongTurnBudget` holds k loops to its cap plus k - 1 strong turns, in all interleavings,
  exactly when no ladder can start cold: the top available, and no rung from the floor up to
  it, or from the one below a floor that is the top (`StrongTurnsExactly`). Then cap + k - 1
  is reached (`StrongTurnBoundMet`). With a cold start a single loop serves any number of
  strong turns, past the tree's cap and its own bound (`ColdUnbounded`); no worker passes its
  own bound, unless it is told to stick, exactly when no ladder with a bound can start cold
  (`OwnBoundExactly`).
- The goal anchor is carried across every compaction, as internal/agent/loop.go:133 says, in
  every run (`AgentLoop.Loop.Run`). The prompt of a later run of the session is not: it is in
  every transcript sent exactly until a compaction folds its turn-group, and one in its own
  run can, since what the loop tells the model in between counts as a turn-group too
  (`PromptFolded`; `GroupKept` says which groups stay).
- The cost meter can be passed by nearly k of the dearest calls (`MeterOvershootMet`).

## Model

| member | source | states |
|---|---|---|
| EventLog.FoldOne | internal/coding/events.go:73-104 | one event replayed: start, status by slug (unknown slugs ignored), insert with clamped position and renumbering, chain status |
| EventLog.Fold | internal/coding/events.go:73-104 | the loop computes the projection every theorem about logs is stated for |
| EventLog.CompactOne | internal/coding/events.go:112-160 | one event worked into slots: last record per slug in first-seen place, inserts staying inserts |
| EventLog.Compact | internal/coding/events.go:112-160 | the loop returns start, slots and last chain status, the log the compaction theorems speak of |
| LogCompaction.CompactionExact | internal/coding/events.go:106-160 | for every well-formed log: compaction preserves the whole projection if and only if each inserted slug's last recorded position lands where it was inserted |
| LogCompaction.RightwardCompaction | internal/coding/events.go:106-160 | inserts that land strictly right of all earlier inserted records are enough |
| LogCompaction.CompactShrinks | internal/coding/events.go:106-160 | compaction never lengthens a log |
| ChainNames.EventSourcingExactly | internal/coding/events.go:73-104 | the emitted log folds to the live state in every run, whatever the outcomes, if and only if no task is named like a branch of another |
| ChainTheorems.EventSourcing | internal/coding/events.go:73-104 | without such names, in every modelled field and after any sequence of operations |
| ChainNames.ClashLoses | internal/coding/intervene.go:213-228 | from any state with two records of one slug, the run whose log does not fold to the live state |
| ChainTheorems.RunCompaction | internal/coding/events.go:106-160 | every log a run emits is well formed, and its compaction is faithful exactly under the condition above |
| ChainTheorems.Structure | internal/coding/intervene.go:180-211 | in every reachable state of every validated chain the list is the tasks in order, each directly behind its branches fix1..fixk; no key repeats; positions are indices; all before the current position is resolved; success means all resolved |
| CrashResume.ResumeFromLog | internal/coding/orchestrator.go:255-292 | stopping the process between two steps of the run loop or inside an AT run, whatever repository is left behind: the log folds to the live records at a position that lags only over resolved ATs, and a resume from log and repository reaches the same in-flight AT, having run nothing |
| CrashResume.CutOffRun | internal/coding/orchestrator.go:374-383 | so with the repository of an AT run cut off between moving the ref and emitting: its commits stay in the graph and the same AT is run again |
| CrashResume.LooksReach | internal/coding/orchestrator.go:257-275 | the run loop skips to the first open AT and marks it running, or ends in success when none is open |
| ChainTheorems.NoUncertifiedSuccess | internal/coding/orchestrator.go:334-385 | in every run of every validated chain a successful AT was force-advanced with a commit and a justification, or its last attempt is certified |
| ChainTheorems.DriveIsRun | internal/coding/orchestrator.go:255-279 | the whole run loop is a run of observable steps, so invariants of steps hold inside it |
| WorkerGate.RunGate | internal/coding/gate.go:124-136 | fail-fast: commands run up to the first non-zero exit |
| WorkerGate.GatePassesExactly | internal/coding/gate.go:124-136 | a gate passes if and only if it is not empty and every command exits 0 |
| WorkerGate.RunWorkerLoop | internal/coding/orchestrator.go:414-548 | the attempt loop ends with the status, iteration, flags and diagnostic of the first attempt that does not ask for another, on the tier last named, or exhausted when all of the budget do |
| WorkerGate.CreditPassed | internal/coding/orchestrator.go:491-538 | behind a green gate the attempt ends tautological, test-only, tampering or credited, by the first audit that objects, and with its diagnostic and flags |
| WorkerGate.JudgeExactly | internal/coding/orchestrator.go:440-548 | an attempt asks for another if and only if no command failed, no protected path was edited, and the gate is unscopable or not green; and is credited if and only if it is clean |
| WorkerGate.JudgeEnds | internal/coding/orchestrator.go:440-548 | every other attempt ends the loop with the status its inputs say: command error, protected edit, then the audits |
| WorkerGate.JudgeTells | internal/coding/orchestrator.go:440-548 | and the feedback, diagnostic and flags it leaves are those of the stage that decided |
| WorkerGate.WorkerLoopEnds | internal/coding/orchestrator.go:414-548 | from any iteration: the loop ends on the first attempt that does not ask for another, or exhausted exactly when all in the budget ask |
| WorkerGate.VerifyExactly | internal/coding/verifier.go:100-126 | the verify phase passes if and only if there is no verifier, or it reports a pass with evidence and the spot check of the first non-empty gate command, if there is one, exits 0; it is a verifier error exactly when the verifier faults, and a rejection otherwise |
| WorkerGate.RunVerifyPhase | internal/coding/verifier.go:100-145 | the phase step by step gives that status, searching the gate for a non-empty command |
| WorkerGate.WorkerCreditExactly | internal/coding/orchestrator.go:414-548 | the loop credits the worker if and only if a clean attempt comes within the budget, before any attempt that ends it |
| WorkerGate.WorkerCredit | internal/coding/orchestrator.go:414-548 | a credited loop ended on that clean attempt, and no loop spends more than its budget |
| WorkerGate.ExecuteSound | internal/coding/orchestrator.go:289-385 | one AT run ends in success only with a certified last attempt, keeps the record's identity, and counts at most one worker-loop entry |
| WorkerGate.ExecuteExactly | internal/coding/orchestrator.go:289-385 | it succeeds if and only if inputs, worktree, seed, worker and respawn cap allow it, a clean attempt is credited, and verify phase, contract and commit pass |
| RunOutcome.ExecuteEndsExactly | internal/coding/orchestrator.go:289-385 | one AT run ends with a given worker status if and only if the inputs up to that stage were met and that stage gives it, for all statuses |
| RunOutcome.ExecuteEffects | internal/coding/orchestrator.go:303-385 | a failed run leaves HEAD and commit and adds at most the oracle commit; a successful one holds its outputs and a commit on the fork point or oracle, which HEAD becomes when it is forwarded; the fork point is captured once |
| RunOutcome.ExecuteReports | internal/coding/orchestrator.go:289-385 | the record tells the failed stage's diagnostic, and the loop's iterations, tier, flags and last real diagnostic |
| ChainEffort.EffortBound | internal/coding/orchestrator.go:426-440 | for every validated chain: with respawn cap c, b branches per target and n tasks, all resumes and interventions together enter the worker loop at most n(1+b)c times, and attempts are bounded by that times the iteration ceiling |
| EffortMet.EffortBoundMet | internal/coding/orchestrator.go:426-440 | and for every validated chain, cap and b some run makes all those entries, and with equal iteration ceilings all those attempts |
| ChainNames.SlugsDistinctExactly | internal/coding/intervene.go:157-160 | all runs keep slugs distinct if and only if no task is named like a branch of another |
| ChainNames.CollisionReached | internal/coding/intervene.go:157-160 | for each colliding name, the run that puts two records with one slug in the list |
| ChainShape.BranchSlugInjective | internal/coding/intervene.go:157 | a branch slug determines its target and its index |
| HeadLine.RunExactly | internal/coding/repo_git.go:85-136 | in all states of a run every credited commit is an ancestor of the integration HEAD or that HEAD, if and only if each step meets its guard in the state it finds |
| HeadLine.StepExactly | internal/coding/intervene.go:166-178 | a state on the branch stays on it if and only if a landing, force or rewind moves the ref to a commit that reaches all that stays credited; other steps always do |
| HeadLine.PerformExactly | internal/coding/orchestrator.go:303-379 | an AT run keeps it exactly when its inputs do not make it succeed, or its commit is forwarded and was made on a start that reaches the others, or it credits HEAD |
| HeadLine.PerformSafely | internal/coding/orchestrator.go:303-379 | in the state before an AT run: every outcome whose commit is forwarded keeps it, if and only if the AT cannot succeed (no gate, or no respawn left) or its fork point reaches the other credited commits and HEAD the commit it holds |
| StaleFork.CreditLeavesBranch | internal/coding/intervene.go:161-178 | on every two-task chain with gates a run that ends in success while a credited fix is not on the integration branch |
| Lineage.IntegrationLineage | internal/coding/repo_git.go:85-136 | no force_advance, interventions only on an open current AT, prior targets that still hold their commit, nothing branched to their right and a moving ref are enough |
| ChainWitnesses.LeftwardBreaksCompaction | internal/coding/intervene.go:180-211 | on every two-task chain a reachable log that compaction does not preserve |
| ChainWitnesses.AbortThenResume | internal/coding/staging.go:53-57 | resuming after an abort gives the state of resuming without one, the log apart |
| ChainForce.ForceReopensTarget | internal/coding/intervene.go:75-83 | in every reachable state at a branch that record is the target of the branch, so a skipped target is open again |
| ChainWitnesses.ForceReopens | internal/coding/intervene.go:75-83 | on every chain: branching the first task at once and forcing the branch is accepted and leaves the run at that task, open again |
| ChainForce.OlderAfter | internal/coding/intervene.go:180-211 | in every reachable state all branches but the newest of a target lie behind the current position |
| Orchestration.Orchestrator.constructor | internal/coding/orchestrator.go:213-250 | every task gets a pending record at its index, with its whole spec and the seeded tier; the start event carries those; the run state is that of a fresh chain |
| Orchestration.Orchestrator.RunToCompletion | internal/coding/orchestrator.go:255-279 | run state, log, commit graph and counters end as the machine's run loop, and stay a reachable state |
| Orchestration.Orchestrator.DriveOne | internal/coding/orchestrator.go:257-275 | one round: pause, pass over a resolved AT, or run it: then only its record changes, to what its inputs say, and the chain goes on behind it or stops at it as failed |
| Orchestration.Orchestrator.RunOne | internal/coding/orchestrator.go:289-385 | marks the AT running, emits, and performs it |
| Orchestration.Orchestrator.ExecuteAT | internal/coding/orchestrator.go:294-385 | the run of one AT in place: status, effects on record and commit graph, and diagnostics are those the inputs say |
| Orchestration.Orchestrator.Resume | internal/coding/orchestrator.go:282-284 | the same loop again |
| Orchestration.Orchestrator.Retry | internal/coding/staging.go:18-32 | when stageable only the current record changes: pending, without what its last run left, with tier, respawn count, last real diagnostic and fork point; else nothing changes |
| Orchestration.Orchestrator.Skip | internal/coding/staging.go:35-50 | when stageable the current record is skipped, no other changes, and the run is pending behind it |
| Orchestration.Orchestrator.Abort | internal/coding/staging.go:53-57 | in any state only the chain's status changes, to aborted |
| Orchestration.Orchestrator.InterveneEdit | internal/coding/intervene.go:26-47 | the current spec has the new goal, and the new workspace if one is given, and otherwise stays; the record is reset, no other changes; refused on a blank goal |
| Orchestration.Orchestrator.InterveneForceAdvance | internal/coding/intervene.go:53-85 | the current record is a success with the given commit and justification, HEAD is that commit, the next record is reset, no other changes; refused without commit or justification |
| Orchestration.Orchestrator.InterveneBranchFix | internal/coding/intervene.go:93-230 | allowed exactly for the current AT, the one before or the current branch's parent while branches are left; then the branch stands in the target's place with the given goal, else the target's task and fork point, pending and untouched; target and its branches are superseded, HEAD goes to the fork point when the target held a commit, and every other record only moves up |
| Orchestration.Orchestrator.SupersedeTarget | internal/coding/intervene.go:166-196 | the target and its branches lose their commits, the failed record is reset when the branch rewinds |
| Orchestration.Orchestrator.RewindFor | internal/coding/intervene.go:166-178 | the integration ref goes to the target's fork point only for a committed other AT |
| StepEffects.BranchDoes | internal/coding/intervene.go:130-230 | the machine's branch step changes the run state and HEAD in just that way, record by record |
| StepEffects.EditDoes | internal/coding/intervene.go:26-47 | and its edit step only the goal, the workspace and what a reset clears |
| StepEffects.ForceDoes | internal/coding/intervene.go:53-85 | and its force step only the credited record, the one behind it and HEAD |
| StepEffects.RoundDoes | internal/coding/orchestrator.go:257-275 | and the steps of one round of the run loop what that round's inputs say |
| Transcript.PairedResults | internal/agent/compaction.go:125-140 | in a well-paired transcript the results of an assistant's calls come right behind it, each in its call's place |
| Transcript.ResultHasCall | internal/agent/compaction.go:125-140 | and every result answers the call in its place |
| Transcript.EstimateCovers | internal/agent/compaction.go:243-272 | the token estimate is the characters over four, and at most four tokens a message and eight a call more, and never less |
| Reminders.RefreshGoalReminder | internal/agent/compaction.go:31-46 | stale reminders go, one fresh one is last; nothing changes without a goal |
| Reminders.RefreshSpawnForce | internal/agent/compaction.go:62-71 | the same for the spawn reminder |
| Reminders.ClearSpawnForce | internal/agent/compaction.go:76-85 | all spawn reminders go, nothing else |
| Reminders.RefreshedOnce | internal/agent/compaction.go:31-85 | after a refresh exactly the last message is a reminder of its kind |
| Reminders.GoalReminderSays | internal/agent/compaction.go:31-46 | the goal reminder starts with its marker and ends with the whole goal |
| Reminders.SpawnReminderSays | internal/agent/compaction.go:62-75 | the spawn reminder starts with its marker and holds the number of rounds |
| Reminders.WithoutFormed | internal/agent/compaction.go:76-85 | dropping reminders keeps pairing and summary place, also between a call and its result |
| Eviction.EvictToolResults | internal/agent/compaction.go:125-172 | in place: elides the fewest oldest results that bring the size within budget, or all above the hard floor; every shorter eviction was over budget |
| Eviction.NewestKept | internal/agent/compaction.go:100-116 | the newest results up to the hard floor keep their bodies |
| Eviction.SoftKept | internal/agent/compaction.go:151-170 | while eliding all but the newest `keep` results is enough, those keep their bodies |
| Eviction.ElidedForgets | internal/agent/compaction.go:155-171 | an elided result keeps role, call and name, says no more of the body than its length, and is shorter than any body longer than its note |
| Eviction.ElideFormed | internal/agent/compaction.go:118-130 | eviction never breaks the pairing, the summary or the markers |
| Compactor.SplitForCompaction | internal/agent/compaction.go:411-422 | head is the longest leading run of unmarked system messages, a summary behind it is dropped |
| Compactor.UserMessageIndices | internal/agent/compaction.go:426-434 | the turn-group boundaries |
| Compactor.RecencyStart | internal/agent/compaction.go:386-404 | a run of latest groups is keepable if and only if it is no longer than the kept one, which is never empty |
| Compactor.CompactToBudget | internal/agent/compaction.go:299-367 | fires exactly when over budget, something can be folded and the summarizer answers; then head, one summary and the longest keepable tail remain |
| Compactor.CompactedToMeans | internal/agent/compaction.go:299-367 | whenever it fires, the limits say one number of evicted groups, and the result is head, summary and the groups behind those |
| Compactor.GroupsComplete | internal/agent/compaction.go:426-434 | every user message starts a turn-group |
| Compactor.SummarySays | internal/agent/compaction.go:438-452 | the summary message carries its marker, the goal word for word, and the summary at its end |
| Compactor.CompactionMeetsBudget | internal/agent/compaction.go:325-367 | if the tail budget is not floored, the latest group fits it and the summary fits its reserve, the compacted size is within budget |
| Compactor.CompactedFormed | internal/agent/compaction.go:299-367 | compaction keeps the pairing and the markers and leaves one summary |
| Compactor.SummaryRolls | internal/agent/compaction.go:405-422 | a compaction leaves one summary right behind the unchanged head, so the next one drops just that and takes in the whole body |
| Retention.KeptCompacted | internal/agent/compaction.go:299-367 | a compaction keeps the system head and the goal, and the prompt unless it folds it away |
| Retention.GroupKept | internal/agent/compaction.go:336-355 | the user message of every turn-group that is not evicted is still there |
| Retention.PromptFolded | internal/agent/compaction.go:336-355 | with one group to keep, a compaction folds away the prompt of the run that is under way, once the loop has told the model something else |
| AgentLoop.Loop.Run | internal/agent/loop.go:1060-1467 | every transcript sent is well paired with at most one summary, starts with the system head the run found, carries the goal, and holds the prompt unless a compaction folded it; calls are at most maxRounds x (1 + unspent revises and re-prompts + edges granted); exit 0 under a gate needs a last green gate, no tool call after it, and the fake-green audit unless a fault closer ended the run |
| AgentLoop.Loop.OpenTurn | internal/agent/loop.go:1060-1117 | a run opens with a compaction if due, the additions, then the prompt as last message; what it is to keep is the head found, the anchored goal and the prompt |
| AgentLoop.Loop.AnchorGoal | internal/agent/loop.go:1046-1048 | the goal is the first user message, set once |
| AgentLoop.Loop.Compact | internal/agent/loop.go:1049-1054 | fires exactly when over budget, foldable and answered; then the transcript is head, summary with the goal, and the longest keepable tail, and the reply is the summary body; else nothing changes |
| AgentLoop.Loop.MaybeCompact | internal/agent/loop.go:1042-1056 | the same against the budget, with the goal anchored first |
| AgentLoop.Loop.ForceCompact | internal/agent/recovery.go:159-185 | the same against three quarters of the budget for each attempt, no less than the overhead and 256, with a turn-group less for each attempt but the first |
| AgentLoop.Loop.Tighten | internal/agent/recovery.go:159-172 | that target |
| AgentLoop.Loop.BoundWithinTurn | internal/agent/loop.go:1005-1030 | with a compactor and a budget the fewest oldest results are elided that are enough, else nothing |
| AgentLoop.Loop.RemindGoal | internal/agent/loop.go:1271-1277 | one fresh goal reminder is last exactly on every n-th round with a goal |
| AgentLoop.Loop.RemindSpawn | internal/agent/loop.go:1278-1296 | one fresh spawn reminder is last exactly from the n-th round on, before the first spawn |
| AgentLoop.Loop.KeepOffFloor | internal/agent/loop.go:1305-1317 | a prompt too long for the floor is compacted if it can be, and an edge asked for exactly when it is still too long |
| AgentLoop.Loop.Serve | internal/agent/loop.go:1214-1457 | within a cycle at most one call is made, with the transcript bounded and the reminders due on it, unless that is too long for the floor |
| AgentLoop.Loop.OneRound | internal/agent/loop.go:1173-1457 | a model call happens only inside the cycle's rounds, and each fresh cycle is paid for by a revise, a re-prompt or an edge |
| AgentLoop.Loop.AtCap | internal/agent/loop.go:1181-1197 | a capped cycle ends in a green capture, an escalation or the honest verdict, exactly when each applies |
| AgentLoop.Loop.StopBefore | internal/agent/loop.go:1214-1263 | strong bound, ceilings and stall stop before the call, exactly when one holds, never as a silent done under a gate |
| AgentTypes.SignatureTells | internal/agent/loop.go:976-996 | two rounds of calls have one signature if and only if they are the same calls in the same order, ids apart, for surfaces without a dot, actions without a brace and encoded objects as parameters |
| AgentLoop.Loop.OnDeclaredDone | internal/agent/loop.go:1637-1746 | a claim continues exactly while the violated audit or gate has budget, and exits with 0 exactly when the audits and the gate pass |
| AgentLoop.Loop.OpportunisticGreen | internal/agent/loop.go:1783-1802 | done exactly on a green gate that the fake-green audit does not refuse |
| AgentLoop.Loop.OpportunisticReconcile | internal/agent/loop.go:1844-1874 | green ends the run as above; red output is appended exactly when it is new, else the transcript stays |
| AgentLoop.Loop.CloseOnFault | internal/agent/loop.go:1883-1939 | with a gate, a fault ends with 0 exactly on a green gate |
| AgentLoop.Loop.DispatchRound | internal/agent/loop.go:1524-1594 | the last messages are the tools' own contents, each for its call and in order; progress and spawn baselines move exactly on a landed write and a spawn |
| AgentLoop.Loop.DispatchOne | internal/agent/loop.go:1524-1594 | the tool's own content is appended as the answer to its call; a spawn first drops the spawn reminders |
| AgentLoop.Loop.AccountForCall | internal/agent/loop.go:1475-1514 | the first measured call sets the overhead to what the estimate does not explain; each later one raises the ratio to measured over sent, capped, and never lowers it |
| AgentLoop.Loop.RecoverOverflow | internal/agent/recovery.go:81-98 | up to four times it retries exactly when the tightened compaction fires, and then on its result, or an edge is granted; and then aborts |
| AgentLoop.Loop.RecoverMalformed | internal/agent/recovery.go:103-120 | up to three times it re-prompts and retries; then it retries exactly when an edge is granted, and aborts otherwise |
| AgentLoop.Loop.RecoverTimeout | internal/agent/recovery.go:128-150 | never aborts; with the deadline unspent it retries up to twice, then exactly when an edge is granted |
| AgentLoop.Loop.RecoverRateLimit | internal/agent/recovery.go:226-238 | never aborts; past four it retries exactly on a drop to the floor |
| AgentLoop.Loop.RecoverFromFault | internal/agent/recovery.go:62-79 | each classified fault gets its own recovery and counter, an unclassified one aborts; without a retry the transcript stays |
| LineEdit.LineTrimmedReplace | internal/fsorgan/edit.go:211-294 | succeeds if and only if exactly one window of lines matches after trimming, and then the byte-offset result is the lines before, the rebased lines and the lines after |
| LineEdit.FindWindow | internal/fsorgan/edit.go:232-253 | finds the one and only match, and nothing when there are none or several |
| LineEdit.SpliceIsLines | internal/fsorgan/edit.go:223-259 | cutting the text between two line offsets is replacing whole lines |
| LineEdit.RebasedLine | internal/fsorgan/edit.go:261-292 | blank lines stay, text stays, and lines that carry the block's basis keep their indentation relative to it |
| LineEdit.RebaseMoves | internal/fsorgan/edit.go:261-292 | a whole block is moved: every line keeps its text, and only its indentation changes, relative to the block's basis |
| NumberedRead.SelectLines | internal/fsorgan/read.go:179-205 | the streamed selection is that of the split text, and the total counts the final fragment |
| NumberedRead.SelectedRun | internal/fsorgan/read.go:179-205 | the selection is one contiguous capped run of lines, cut off at the end of the file |
| NumberedRead.StripLineNumbers | internal/fsorgan/edit.go:440-466 | each line loses one number prefix; fails when none had one or nothing remains |
| NumberedRead.NumberedRoundTrip | internal/fsorgan/edit.go:440-466 | stripping a numbered rendering gives back the lines if and only if one is not empty |
| NumberedRead.ReadRoundTrip | internal/fsorgan/read.go:156-205 | the same for every file and every range that selects something |
| ReadSight.ListingShows | internal/fsorgan/read.go:85-205 | a read from an offset shows as many lines as there are, at most the limit; line k bears the number offset + k and what the cap leaves of that line of the file; a warning exactly when nothing shows |
| ReadRegistry.Provider.HandleRead | internal/fsorgan/read.go:85-170 | fails exactly on a missing or too large whole file; answers the selected lines numbered, how many there are and how many the file has; marks the registry |
| ReadRegistry.Provider.MarkRead | internal/fsorgan/readstate.go:42-56 | a ranged read leaves a current whole-file mark alone |
| ReadRegistry.Provider.HandleWrite | internal/fsorgan/write.go:67-115 | creates, or overwrites on purpose exactly while the history permits it; what it overwrites has the lines a whole read showed, or is what the agent wrote, unless an outside change was missed |
| ReadRegistry.Provider.HandleEdit | internal/fsorgan/edit.go:60-196 | the same for edits, with exactly when each refusal is given; what it stores is the content, line ends made plain, with the text replaced as above, or the new text in a new or blank file |
| ReadRegistry.Provider.EditExisting | internal/fsorgan/edit.go:100-196 | for a file there is: refused exactly when not blank under an empty old text, without a match, or ambiguous |
| ReadRegistry.UnixLinesReplace | internal/fsorgan/edit.go:108 | the line ends made plain are every CR LF replaced by LF |
| TextEdit.EditText | internal/fsorgan/edit.go:123-192 | exact text first, then tolerant, then both without line numbers; one occurrence or all on request |
| TextEdit.SingleEdit | internal/fsorgan/edit.go:123-192 | without replace-all a successful edit cuts one stretch out: the first occurrence of the text asked for, with or without its line numbers, replaced by the new text; or, when it stands nowhere, lines that are its lines up to white space, replaced by the new lines with only their indentation moved |
| TextEdit.AllEdit | internal/fsorgan/edit.go:186-192 | with replace-all a successful edit replaces every occurrence of the text, with or without its line numbers: the pieces between stay in order, hold no other occurrence, and are one more than the replacements counted |
| TextEdit.PlainEditExactly | internal/fsorgan/edit.go:123-192 | an edit without line numbers succeeds if and only if the text stands there once, or often with replace-all, or stands nowhere and one window of lines matches; and is ambiguous if and only if it stands more than once without replace-all |
| TextEdit.NumberedEditExactly | internal/fsorgan/edit.go:123-192 | one with line numbers succeeds if and only if that holds of the text, or the text stands nowhere and it holds of the text without them |
| TextEdit.CountZero | internal/fsorgan/edit.go:123 | the count is zero if and only if the text stands nowhere |
| ReadRegistry.ReadKeepsRights | internal/fsorgan/readstate.go:30-56 | after any run one more read revokes no right to write: a whole read grants its own file's, a ranged one changes none |
| ReadRegistry.NoBlindOverwrite | internal/fsorgan/readstate.go:62-79 | after any interleaving of reads, writes, edits and outside changes at any times: the check passes if and only if the history permits it, and then the content has the lines a whole read last showed, or is what the agent last wrote, unless an outside change was missed |
| ReadRegistry.MissedExactly | internal/fsorgan/readstate.go:75-77 | the registry permits overwriting unseen content if and only if the last outside change bears a time not after the mark |
| ReadRegistry.LaterNeverMissed | internal/fsorgan/readstate.go:75-77 | which cannot happen while outside changes bear later times |
| ReadSight.ChangeMissed | internal/fsorgan/readstate.go:75-77 | and happens in every run that reads a file whole and has it changed by others at a time not after the mark |
| ReadSight.ReadTellsExactly | internal/fsorgan/read.go:207-215 | the listing of a whole read determines the lines of the file, up to byte-order mark and final carriage returns, if and only if none is longer than the cap |
| ReadSight.ShownWhole | internal/fsorgan/read.go:207-215 | the lines shown are the lines of the file if and only if each is within the cap or reads as if it had been cut |
| ReadSight.TailUnseen | internal/fsorgan/read.go:143-144 | two different files of a size that may be read whole and with one listing: after the read the history is the same, nothing was missed, and either may be overwritten |
| TreeBudget.Meter.Add | internal/cost/cost.go:291-296 | the shared total grows by the call's cost |
| TreeBudget.Meter.Exceeded | internal/cost/cost.go:310-315 | true exactly when a positive ceiling is reached |
| TreeBudget.MeterOvershoot | internal/cost/cost.go:277-315 | however k loops interleave, all but the last at most k calls are under the ceiling |
| TreeBudget.MeterOvershootAmount | internal/cost/cost.go:277-315 | the ceiling is passed by less than k of the most expensive calls |
| TreeBudget.MeterOvershootMet | internal/cost/cost.go:277-315 | and some interleaving passes it by all but an arbitrarily small part of that |
| TreeBudget.NoCeiling | internal/cost/cost.go:310-313 | without a ceiling some interleaving passes any amount |
| TreeBudget.SpawnBudget.Reserve | internal/cost/cost.go:340-348 | granted exactly below the cap, and only then counted |
| TreeBudget.SpawnsExactly | internal/cost/cost.go:340-348 | after n attempts the count is n up to the cap and the cap beyond it |
| StrongTurns.Router.NextAdapter | internal/router/router.go:425-452 | serves the rung aimed at or its neighbour, and counts it on the worker's and the shared budget exactly when it is the top |
| StrongTurns.Router.AvailableNeighbour | internal/router/router.go:503-520 | above the floor the next available rung down, else the next one up, else none |
| StrongTurns.ChosenExactly | internal/router/router.go:425-520 | the rung served is the one aimed at if available, else the nearest available one in the direction asked for, else the one aimed at |
| StrongTurns.Router.Escalate | internal/router/router.go:586-718 | climbs one rung below the top, and sticks when a last resort reaches it |
| StrongTurns.Router.EscalateForOverflow | internal/router/router.go:733-768 | climbs and sticks, or sticks to a top whose own bound is spent |
| StrongTurns.Router.DeEscalate | internal/router/router.go:777-792 | down one rung, or all the way to the floor, no longer sticking |
| StrongTurns.StrongTurnsExactly | internal/cost/cost.go:362-399 | for every cap and k and all ladders of the tree: all interleavings of k loops serve at most cap + k - 1 strong turns, if and only if no ladder can start cold |
| StrongTurns.StrongTurnBound | internal/router/router.go:413-452 | the turns served and those about to be pass the cap by less than k, at every moment, when none can |
| StrongTurns.ColdUnbounded | internal/router/router.go:503-520 | with a ladder that can start cold one loop alone, never sticking to the top, serves any number of strong turns |
| StrongTurns.StrongTurnBoundMet | internal/router/router.go:425-452 | and whenever some top can serve at all some interleaving serves cap + k - 1 |
| StrongTurns.OwnBoundExactly | internal/router/router.go:388-452 | in all interleavings and under any cap no worker that is never told to stick serves more strong turns than its own bound, if and only if no ladder with a bound can start cold |

## Left out

- Orchestration.Orchestrator.constructor: requires the part of `Chain.Validate` the run depends on (a task, non-blank distinct slugs); the rest of validation and the `Init` error are not modelled.
- Orchestration.Orchestrator.InterveneForceAdvance: git's refusal is a commit the graph does not hold, or an input; commits made by hand enter the graph as outside commits. `NoopRepo`, which takes any commit string, is not part of this model.
- Orchestration.Orchestrator.InterveneBranchFix: the augmented goal text is an input; prior diffs and prompt wording are not modelled.
- WorkerGate.RunWorkerLoop: narrowing the gate's `go test ./...` to the edited packages is an input (it keeps the number of commands, and the exit codes are those of the commands as run; an unscopable gate asks for another attempt); gofmt, diffs and the coverage grade are inputs too.
- AgentLoop.Loop.Run: texts that a model, a tool or a hook produces are assumed not to start with the loop's own markers, since the filters would otherwise drop or misplace them.
- AgentLoop.Loop.Run: the router is a finite number of escalate edges, granted or refused at will; for any run that ends, take the number it granted.
- AgentLoop.Loop.RecoverRateLimit: whether the drop to the floor happens is an input, as is the outcome of waiting.
- LineEdit.LineTrimmedReplace: offsets count characters; the cuts are at line ends, where bytes and characters agree.
- `move` in the file tools: a file moved in is an outside change at its own time, which `ReadRegistry` covers; the source and target pair is not modelled.
- CrashResume.ResumeFromLog: a cut between the several events of one intervention is not covered; inside the run loop every step emits at most one event.
- StrongTurns.StrongTurnBound: the loop's halt of a worker that sticks to a spent top (`StrongBoundExhausted`) is left out, which only adds interleavings; the runs that meet or break the bound have no worker stick.
- StrongTurns.Router.NextAdapter: adapters are rung numbers, and whether each is available is an input; the counters for reports are not kept. Which signals escalate is an outcome.
- `PromoteDiagnostic`, promotion, diffs and package listings of the repository.
- The operator seat and its model decisions: any sequence of interventions is covered.
- Session persistence, telemetry, hooks, ledgers and per-model pricing.
- The guards, the profile and the failure classifier: each is an outcome.
- The truncated-view guard and tool vetoes: a refused call is a tool outcome like any other, and is recorded like a dispatched one.
- The wording of prompts, reminders, feedback and verdicts.
- Cost and token ceilings inside the loop are one input; the shared meter is `TreeBudget`.
- Floating-point rounding: ratios and costs are exact rationals.
- Contexts, deadlines and locks: each locked method is one atomic step.
