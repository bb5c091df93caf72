/** The coding chain as a state machine over its smallest observable steps: the run
    state, the event log it emits, the integration branch, and what the run has spent
    (internal/coding/orchestrator.go, staging.go, intervene.go). */
module ChainMachine {
  import opened Text
  import opened CodingTypes
  import opened EventLog
  import opened WorkerGate

  /** Where `RunToCompletion` stands: not running, at its loop head, inside `runOne`
      with the AT marked running, or just after `runOne` recorded its verdict. */
  datatype Phase = Idle | Driving | Executing | Settled

  /** `entries` and `attempts` count worker-loop entries and worker attempts;
      `evidence` keeps, per record, the outcomes met by its latest run. */
  datatype Machine = Machine(
    run: RunState, log: seq<Event>, repo: Repo, phase: Phase,
    entries: nat, attempts: nat, evidence: map<Key, RunInput>)

  datatype Step =
    | Resume
    | Look(pause: bool)
    | Perform(input: RunInput)
    | Settle
    | Retry
    | Skip
    | Abort
    | Edit(goal: string, workspace: Option<seq<string>>)
    | ForceAdvance(sha: Sha, justification: string, refused: bool)
    | BranchFix(target: string, goal: string, maxBranches: int, rewound: bool)
    | OutsideCommit(parent: Sha)

  // ------------------------------------------------------------------- start

  /** The part of `Chain.Validate` the run depends on. */
  predicate ValidTasks(tasks: seq<AtomicTask>) {
    && tasks != []
    && (forall i :: 0 <= i < |tasks| ==> !Blank(tasks[i].slug))
    && (forall i, j :: 0 <= i < j < |tasks| ==> tasks[i].slug != tasks[j].slug)
  }

  function SeedRecordOf(task: AtomicTask, i: nat, tier: string): ATRecord {
    ATRecord(task.slug, task, i, ATPending, 0, map[], 0, WorkerNone, "", "", [],
             tier, 0, "", "", 0, 0)
  }

  function SeedRecords(tasks: seq<AtomicTask>, tier: string): (ats: seq<ATRecord>)
    ensures |ats| == |tasks|
    ensures forall i :: 0 <= i < |tasks| ==> ats[i] == SeedRecordOf(tasks[i], i, tier)
  {
    seq(|tasks|, i requires 0 <= i < |tasks| => SeedRecordOf(tasks[i], i, tier))
  }

  function Start(meta: RunMeta, tasks: seq<AtomicTask>, tier: string, repo: Repo): Machine {
    var seeds := SeedRecords(tasks, tier);
    Machine(RunState(meta, ChainPending, 0, seeds, ""), [ChainStarted(meta, seeds)],
            repo, Idle, 0, 0, map[])
  }

  // ---------------------------------------------------------------- emitting

  /** Store a record and emit its status delta (`emitAT`). */
  function PutAT(m: Machine, i: nat, r: ATRecord): Machine
    requires i < |m.run.ats|
  {
    m.(run := m.run.(ats := m.run.ats[i := r]), log := m.log + [ATStatusChanged(r)])
  }

  /** Set the chain-level fields and emit them (`emitChain`). */
  function PutChain(m: Machine, status: ChainStatus, failed: string, position: int): Machine {
    m.(run := m.run.(status := status, failedSlug := failed, position := position),
       log := m.log + [ChainStatusChanged(status, failed, position)],
       phase := Idle)
  }

  predicate HasCurrent(s: RunState) { 0 <= s.position < |s.ats| }

  function Current(s: RunState): ATRecord
    requires HasCurrent(s)
  {
    s.ats[s.position]
  }

  /** An intervention may act: the run loop is not active and the chain is stageable. */
  predicate Staging(m: Machine) { m.phase.Idle? && m.run.Stageable() }

  // ---------------------------------------------------- RunToCompletion's steps

  function LookStep(m: Machine, pause: bool): Machine {
    var s := m.run;
    if s.position >= |s.ats| then PutChain(m, ChainSuccess, s.failedSlug, s.position)
    else if pause then PutChain(m, ChainPaused, s.failedSlug, s.position)
    else if s.position < 0 then m
    else if Current(s).Resolved() then m.(run := s.(position := s.position + 1))
    else PutAT(m, s.position, Current(s).(status := ATRunning)).(phase := Executing)
  }

  function PerformStep(m: Machine, cap: nat, input: RunInput): Machine
    requires HasCurrent(m.run)
  {
    var e := Execute(Current(m.run), m.repo, cap, input);
    PutAT(m, m.run.position, e.record).(
      repo := e.repo, phase := Settled,
      entries := m.entries + (if e.entered then 1 else 0),
      attempts := m.attempts + e.attempts,
      evidence := m.evidence[KeyOf(Current(m.run)) := input])
  }

  function SettleStep(m: Machine): Machine
    requires HasCurrent(m.run)
  {
    if Current(m.run).status == ATSuccess
    then m.(run := m.run.(position := m.run.position + 1), phase := Driving)
    else PutChain(m, ChainFailed, Current(m.run).slug, m.run.position)
  }

  // ------------------------------------------------------------ interventions

  function Edited(r: ATRecord, goal: string, workspace: Option<seq<string>>): ATRecord {
    r.(spec := r.spec.(goal := goal,
                       workspace := if workspace.Some? then workspace.value else r.spec.workspace)).Reset()
  }

  function EditStep(m: Machine, goal: string, workspace: Option<seq<string>>): Machine
    requires HasCurrent(m.run)
  {
    PutChain(PutAT(m, m.run.position, Edited(Current(m.run), goal, workspace)), ChainPending, "", m.run.position)
  }

  function Forced(r: ATRecord, sha: Sha, justification: string): ATRecord {
    r.(commit := sha, status := ATSuccess, worker := WorkerForceAdvance,
       diagnostic := "force_advance: " + justification, worktree := "")
  }

  /** The checks of force_advance; git points no ref at a commit it does not hold. */
  predicate ForceAllowed(m: Machine, sha: Sha, justification: string, refused: bool) {
    && Staging(m) && HasCurrent(m.run)
    && sha != 0 && !Blank(justification) && m.repo.Holds(sha) && !refused
  }

  function ResetNext(m: Machine, i: nat): Machine {
    if i < |m.run.ats| then PutAT(m, i, m.run.ats[i].Reset()) else m
  }

  function ForceAdvanceStep(m: Machine, sha: Sha, justification: string): Machine
    requires HasCurrent(m.run)
  {
    var p := m.run.position;
    var m1 := PutAT(m, p, Forced(Current(m.run), sha, justification));
    PutChain(ResetNext(m1, p + 1), ChainPending, "", p + 1).(repo := m.repo.(head := sha))
  }

  // --------------------------------------------------------------- branch_fix

  const DEFAULT_MAX_BRANCHES := 3

  function BranchLimit(maxBranches: int): nat {
    if maxBranches <= 0 then DEFAULT_MAX_BRANCHES else maxBranches
  }

  function BranchSlug(target: string, n: nat): string { target + "-fix" + Decimal(n) }

  /** The original record with this slug: its index, or the length. */
  function TargetIndex(ats: seq<ATRecord>, slug: string): (i: nat)
    ensures i <= |ats|
    ensures i < |ats| ==> ats[i].slug == slug && ats[i].branchIndex == 0
    ensures forall j :: 0 <= j < i ==> !(ats[j].slug == slug && ats[j].branchIndex == 0)
  {
    if ats == [] then 0
    else if ats[0].slug == slug && ats[0].branchIndex == 0 then 0
    else 1 + TargetIndex(ats[1..], slug)
  }

  /** The slugs of the branches of a target, in list order. */
  function BranchSlugs(ats: seq<ATRecord>, target: string): seq<string> {
    if ats == [] then []
    else (if ats[0].parentSlug == target then [ats[0].slug] else []) + BranchSlugs(ats[1..], target)
  }

  /** The target must be the current AT, the one before it, or the parent of the
      current branch; and a branch must be left to spend. */
  predicate BranchAllowed(s: RunState, target: string, maxBranches: int) {
    var t := TargetIndex(s.ats, target);
    && t < |s.ats|
    && (t == s.position || t == s.position - 1 || (HasCurrent(s) && Current(s).parentSlug == target))
    && |BranchSlugs(s.ats, target)| + 1 <= BranchLimit(maxBranches)
  }

  /** The integration branch is rewound when the target is not the current AT and
      holds a commit; the current AT is then reset and forks afresh. */
  predicate Rewinds(s: RunState, t: nat)
    requires t < |s.ats|
  {
    t != s.position && s.ats[t].commit != 0
  }

  /** The repository after the rewind, if the branch ref could be reset. */
  function RewoundRepo(repo: Repo, s: RunState, t: nat, rewound: bool): Repo
    requires t < |s.ats|
  {
    if Rewinds(s, t) && rewound then repo.(head := Tip(repo, s.ats[t].parentSha)) else repo
  }

  function SupersedeOne(r: ATRecord, isTarget: bool, target: string, reset: bool): ATRecord {
    var r' := if reset then r.Reset().(parentSha := 0) else r;
    if isTarget || r.parentSlug == target then r'.(commit := 0, status := ATSkipped) else r'
  }

  function Supersede(s: RunState, target: string, t: nat): (ats: seq<ATRecord>)
    requires t < |s.ats|
    ensures |ats| == |s.ats|
    ensures forall i :: 0 <= i < |ats| ==>
      ats[i] == SupersedeOne(s.ats[i], i == t, target, Rewinds(s, t) && i == s.position)
  {
    seq(|s.ats|, i requires 0 <= i < |s.ats| =>
      SupersedeOne(s.ats[i], i == t, target, Rewinds(s, t) && i == s.position))
  }

  function BranchRecord(r: ATRecord, t: nat, n: nat, goal: string): ATRecord {
    var slug := BranchSlug(r.slug, n);
    ATRecord(slug, r.spec.(slug := slug, goal := goal), t, ATPending, 0, map[], 0, WorkerNone,
             "", "", [], "", 0, "", r.slug, n, r.parentSha)
  }

  /** The branch as inserted: the next one of the target at index `t`. */
  function NewBranch(s: RunState, target: string, t: nat, goal: string): ATRecord
    requires t < |s.ats|
  {
    BranchRecord(s.ats[t], t, |BranchSlugs(s.ats, target)| + 1, goal)
  }

  function BranchedATs(s: RunState, target: string, t: nat, goal: string): seq<ATRecord>
    requires t < |s.ats|
  {
    Renumber(InsertAt(Supersede(s, target, t), t, NewBranch(s, target, t, goal)))
  }

  function StatusEvent(ats: seq<ATRecord>, slug: string): seq<Event> {
    var i := FindAT(ats, slug);
    if i < |ats| then [ATStatusChanged(ats[i])] else []
  }

  /** The status deltas for the given slugs, skipping unknown ones. */
  function StatusEvents(ats: seq<ATRecord>, slugs: seq<string>): seq<Event> {
    if slugs == [] then [] else StatusEvent(ats, slugs[0]) + StatusEvents(ats, slugs[1..])
  }

  /** The slugs whose records branch_fix changes: the target, its branches, and the
      current AT when it is another one. */
  function ChangedSlugs(s: RunState, target: string, t: nat): seq<string> {
    [target] + BranchSlugs(s.ats, target) +
    if t != s.position && HasCurrent(s) then [Current(s).slug] else []
  }

  function InsertEvents(ats: seq<ATRecord>, slug: string): seq<Event> {
    var i := FindAT(ats, slug);
    if i < |ats| then [ATInserted(ats[i])] else []
  }

  function BranchEvents(s: RunState, target: string, t: nat, goal: string): seq<Event>
    requires t < |s.ats|
  {
    var ats := BranchedATs(s, target, t, goal);
    InsertEvents(ats, NewBranch(s, target, t, goal).slug)
      + StatusEvents(ats, ChangedSlugs(s, target, t))
  }

  function BranchFixStep(m: Machine, target: string, goal: string, rewound: bool): Machine
    requires TargetIndex(m.run.ats, target) < |m.run.ats|
  {
    var s, t := m.run, TargetIndex(m.run.ats, target);
    PutChain(m.(run := s.(ats := BranchedATs(s, target, t, goal)),
                log := m.log + BranchEvents(s, target, t, goal),
                repo := RewoundRepo(m.repo, s, t, rewound)),
             ChainPending, "", t)
  }

  // ------------------------------------------------------------------- a step

  /** A step that is not enabled, or that the code answers with an error, changes
      nothing. Anybody may commit beside the run. `cap` is the per-duty respawn cap, 0 for none. */
  function Apply(m: Machine, cap: nat, step: Step): Machine {
    match step
    case Resume =>
      if m.phase.Idle? then m.(run := m.run.(status := ChainRunning), phase := Driving) else m
    case Look(pause) => if m.phase.Driving? then LookStep(m, pause) else m
    case Perform(input) =>
      if m.phase.Executing? && HasCurrent(m.run) then PerformStep(m, cap, input) else m
    case Settle => if m.phase.Settled? && HasCurrent(m.run) then SettleStep(m) else m
    case Retry =>
      if Staging(m) && HasCurrent(m.run)
      then PutChain(PutAT(m, m.run.position, Current(m.run).Reset()), ChainPending, "", m.run.position)
      else m
    case Skip =>
      if Staging(m) && HasCurrent(m.run)
      then PutChain(PutAT(m, m.run.position, Current(m.run).(status := ATSkipped)),
                    ChainPending, "", m.run.position + 1)
      else m
    case Abort =>
      if m.phase.Idle? then PutChain(m, ChainAborted, m.run.failedSlug, m.run.position) else m
    case Edit(goal, workspace) =>
      if Staging(m) && HasCurrent(m.run) && !Blank(goal)
      then EditStep(m, goal, workspace) else m
    case ForceAdvance(sha, justification, refused) =>
      if ForceAllowed(m, sha, justification, refused)
      then ForceAdvanceStep(m, sha, justification) else m
    case BranchFix(target, goal, maxBranches, rewound) =>
      if Staging(m) && BranchAllowed(m.run, target, maxBranches)
      then BranchFixStep(m, target, goal, rewound) else m
    case OutsideCommit(parent) =>
      if parent == 0 || m.repo.Holds(parent) then m.(repo := CommitOn(m.repo, parent)) else m
  }

  /** Any sequence of steps. */
  function Run(m: Machine, cap: nat, steps: seq<Step>): Machine {
    if steps == [] then m
    else Apply(Run(m, cap, steps[..|steps| - 1]), cap, steps[|steps| - 1])
  }

  // --------------------------------------------------- RunToCompletion as a whole

  datatype RoundInput = RoundInput(pause: bool, run: RunInput)

  /** One round of the run loop: a look, and the AT it may have to run. */
  function DriveRound(m: Machine, cap: nat, r: RoundInput): Machine {
    var m1 := Apply(m, cap, Look(r.pause));
    if m1.phase.Executing? then Apply(Apply(m1, cap, Perform(r.run)), cap, Settle) else m1
  }

  /** The run loop from its head; round `k` of the loop meets `env(k)`. */
  function Drive(m: Machine, cap: nat, env: nat -> RoundInput, k: nat): Machine
    requires m.phase.Driving? && m.run.position >= 0
    decreases |m.run.ats| - m.run.position
  {
    var m' := DriveRound(m, cap, env(k));
    if m'.phase.Driving? then Drive(m', cap, env, k + 1) else m'
  }

  function RunToCompletion(m: Machine, cap: nat, env: nat -> RoundInput): Machine
    requires m.phase.Idle? && m.run.position >= 0
  {
    Drive(Apply(m, cap, Resume), cap, env, 0)
  }
}
