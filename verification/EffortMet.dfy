/** A run that spends all the effort the bounds allow (internal/coding/orchestrator.go,
    staging.go, intervene.go). */
module EffortMet {
  import opened CodingTypes
  import opened WorkerGate
  import opened ChainMachine
  import opened ChainShape
  import opened ChainStanding
  import opened ChainTheorems
  import opened ChainEffort
  import opened ChainNames
  import opened ChainWitnesses
  import opened CleanRun

  // -------------------------------------------------- one entry, all attempts

  /** Every attempt ends at a red gate. */
  const RED := CLEAN.(exits := (k: nat) => 1)
  const FAILS := WORKS.(attempt := (k: nat) => RED)

  lemma {:induction false} RedRevises(spec: AtomicTask)
    ensures Judge(spec, RED).Revise?
  {
    GatePassesExactly(spec.gate, RED.exits, RED.gateDiagnostic);
  }

  lemma {:induction false} RedExhausts(spec: AtomicTask, iter: nat, feedback: string, tier: string, last: string)
    requires 1 <= iter <= AttemptBudget(spec) + 1
    ensures var end := WorkerFrom(spec, FAILS.attempt, iter, feedback, tier, last);
      end.iterations == AttemptBudget(spec) && end.status != WorkerSuccess
    decreases AttemptBudget(spec) + 1 - iter
  {
    if iter <= AttemptBudget(spec) {
      RedRevises(spec);
      var a := FAILS.attempt(iter);
      RedExhausts(spec, iter + 1, Judge(spec, a).feedback, if a.tier != "" then a.tier else tier, last);
    }
  }

  lemma {:induction false} FailsSpends(r: ATRecord, repo: Repo, cap: nat)
    requires !CapReached(r, cap)
    ensures var e := Execute(r, repo, cap, FAILS);
      && e.entered && e.attempts == AttemptBudget(r.spec) && e.record.status == ATFailed
      && SameIdentity(e.record, r) && e.record.respawns == r.respawns + 1
  {
    ExecuteSound(r, repo, cap, FAILS);
    RedExhausts(r.spec, 1, "", r.highestTier, r.lastDiagnostic);
  }

  // --------------------------------------------------------------- one duty

  /** Reset the current AT, run it in vain, and stop at the failure. */
  const TRY: seq<Step> := [Retry, Resume, Look(false), Perform(FAILS), Settle]

  /** Only the current record changed, and not what it is about; `n` entries were spent on it. */
  ghost predicate Spent(m: Machine, m': Machine, n: nat) {
    var p := m.run.position;
    && Staging(m') && m'.run.position == p && 0 <= p < |m.run.ats| == |m'.run.ats|
    && (forall i :: 0 <= i < |m.run.ats| && i != p ==> m'.run.ats[i] == m.run.ats[i])
    && SameIdentity(m'.run.ats[p], m.run.ats[p]) && m'.run.ats[p].respawns == m.run.ats[p].respawns + n
    && m'.entries == m.entries + n && m'.attempts == m.attempts + Times(n, AttemptBudget(m.run.ats[p].spec))
  }

  function Times(n: nat, x: nat): nat { if n == 0 then 0 else Times(n - 1, x) + x }

  lemma {:induction false} TimesIs(n: nat, x: nat)
    ensures Times(n, x) == n * x
  {
    if n > 0 {
      TimesIs(n - 1, x);
      OneMore(n - 1, x);
    }
  }

  lemma {:induction false} Marks(m: Machine, m1: Machine, m2: Machine, m3: Machine, cap: nat,
                                 retry: Step, resume: Step, look: Step)
    requires Staging(m) && HasCurrent(m.run)
    requires retry == Retry && resume == Resume && look == Look(false)
    requires m1 == Apply(m, cap, retry) && m2 == Apply(m1, cap, resume) && m3 == Apply(m2, cap, look)
    ensures var p, r := m.run.position, Current(m.run).Reset().(status := ATRunning);
      && m3.phase.Executing? && m3.run.position == p && m3.run.ats == m.run.ats[p := r] && m3.repo == m.repo
      && m3.entries == m.entries && m3.attempts == m.attempts
  {
    var p, r := m.run.position, Current(m.run).Reset();
    assert m1.run.ats == m.run.ats[p := r] && m1.phase.Idle?;
    assert m3.run.ats == m1.run.ats[p := r.(status := ATRunning)];
  }

  lemma {:induction false} Fails(m: Machine, m1: Machine, m2: Machine, cap: nat, perform: Step, settle: Step)
    requires m.phase.Executing? && HasCurrent(m.run) && !CapReached(Current(m.run), cap)
    requires perform == Perform(FAILS) && settle == Settle
    requires m1 == Apply(m, cap, perform) && m2 == Apply(m1, cap, settle)
    ensures Spent(m, m2, 1)
  {
    TimesIs(1, AttemptBudget(Current(m.run).spec));
    var e := Execute(Current(m.run), m.repo, cap, FAILS);
    FailsSpends(Current(m.run), m.repo, cap);
    assert m1.run.ats == m.run.ats[m.run.position := e.record] && m1.phase.Settled?;
    assert m2.run.ats == m1.run.ats && m2.run.status == ChainFailed;
  }

  lemma {:induction false} TriesOnce(m: Machine, cap: nat) returns (steps: seq<Step>)
    requires Staging(m) && HasCurrent(m.run) && !CapReached(Current(m.run), cap)
    ensures NoBranchFix(steps) && Spent(m, Run(m, cap, steps), 1)
  {
    steps := TRY;
    var ms := RunStates(m, cap, TRY);
    Marks(ms[0], ms[1], ms[2], ms[3], cap, TRY[0], TRY[1], TRY[2]);
    Fails(ms[3], ms[4], ms[5], cap, TRY[3], TRY[4]);
  }

  lemma {:induction false} SpentNone(m: Machine)
    requires Staging(m) && HasCurrent(m.run)
    ensures Spent(m, m, 0)
  {}

  lemma {:induction false} SpentMore(m: Machine, m1: Machine, m2: Machine, n: nat)
    requires Spent(m, m1, 1) && Spent(m1, m2, n)
    ensures Spent(m, m2, n + 1)
  {
    assert Times(1, AttemptBudget(Current(m.run).spec)) == AttemptBudget(Current(m.run).spec);
  }

  lemma {:induction false} CanTry(m: Machine, m1: Machine, cap: nat, n: nat)
    requires Spent(m, m1, 1) && HasCurrent(m.run) && Current(m.run).respawns + n + 1 <= cap
    ensures Staging(m1) && HasCurrent(m1.run) && Current(m1.run).respawns + n <= cap
  {}

  lemma {:induction false} SpentConcat(m: Machine, cap: nat, once: seq<Step>, rest: seq<Step>, m1: Machine, m2: Machine,
                                       n: nat)
    requires m1 == Run(m, cap, once) && m2 == Run(m1, cap, rest) && Spent(m, m1, 1) && Spent(m1, m2, n)
    ensures Spent(m, Run(m, cap, once + rest), n + 1)
  {
    RunConcat(m, cap, once, rest);
    SpentMore(m, m1, m2, n);
  }

  /** All entries one duty has. */
  lemma {:induction false} TriesAll(m: Machine, cap: nat, n: nat) returns (steps: seq<Step>)
    requires Staging(m) && HasCurrent(m.run) && Current(m.run).respawns + n <= cap
    ensures NoBranchFix(steps) && Spent(m, Run(m, cap, steps), n)
    decreases n, 1
  {
    if n == 0 {
      steps := [];
      SpentNone(m);
    } else {
      steps := TriesMore(m, cap, n - 1);
    }
  }

  lemma {:induction false} TriesMore(m: Machine, cap: nat, n: nat) returns (steps: seq<Step>)
    requires Staging(m) && HasCurrent(m.run) && Current(m.run).respawns + n + 1 <= cap
    ensures NoBranchFix(steps) && Spent(m, Run(m, cap, steps), n + 1)
    decreases n + 1, 0
  {
    var once := TriesOnce(m, cap);
    var m1 := Run(m, cap, once);
    CanTry(m, m1, cap, n);
    var rest := TriesAll(m1, cap, n);
    SpentConcat(m, cap, once, rest, m1, Run(m1, cap, rest), n);
    steps := once + rest;
  }

  predicate NoBranchFix(steps: seq<Step>) { forall i :: 0 <= i < |steps| ==> !steps[i].BranchFix? }

  // ---------------------------------------------------- from duty to duty

  predicate Untried(r: ATRecord, task: AtomicTask) {
    KeyOf(r) == Key(task.slug, "", 0) && r.respawns == 0 && AttemptBudget(r.spec) == AttemptBudget(task)
  }

  /** Neither a task from `j` on nor a branch of a task behind `j`. */
  predicate Behind(r: ATRecord, tasks: seq<AtomicTask>, j: nat) {
    && (forall k :: j <= k < |tasks| ==> !(r.slug == tasks[k].slug && r.branchIndex == 0))
    && (forall k :: j < k < |tasks| ==> r.parentSlug != tasks[k].slug)
  }

  /** Task `j` stands at `q`, with all tasks behind it untried. */
  predicate Ahead(ats: seq<ATRecord>, tasks: seq<AtomicTask>, j: nat, q: nat) {
    && j < |tasks| && q < |ats| && |ats| - q == |tasks| - j
    && KeyOf(ats[q]) == Key(tasks[j].slug, "", 0) && AttemptBudget(ats[q].spec) == AttemptBudget(tasks[j])
    && (forall i :: q < i < |ats| ==> Untried(ats[i], tasks[i - q + j]))
    && (forall i :: 0 <= i < q ==> Behind(ats[i], tasks, j))
  }

  /** The run stands at task `j` or the last of its `k` branches. */
  ghost predicate AtDuty(m: Machine, tasks: seq<AtomicTask>, j: nat, k: nat, q: nat) {
    && Staging(m) && HasCurrent(m.run) && Ahead(m.run.ats, tasks, j, q)
    && |BranchSlugs(m.run.ats, tasks[j].slug)| == k
    && m.run.position == (if k == 0 then q else q - 1)
    && AttemptBudget(Current(m.run).spec) == AttemptBudget(tasks[j])
    && (k > 0 ==> Current(m.run).parentSlug == tasks[j].slug)
  }

  lemma {:induction false} TargetAt(ats: seq<ATRecord>, slug: string, q: nat)
    requires q < |ats| && ats[q].slug == slug && ats[q].branchIndex == 0
    requires forall i :: 0 <= i < q ==> !(ats[i].slug == slug && ats[i].branchIndex == 0)
    ensures TargetIndex(ats, slug) == q
  {}

  lemma {:induction false} SpentKeeps(m: Machine, m': Machine, n: nat, tasks: seq<AtomicTask>, j: nat, k: nat, q: nat)
    requires AtDuty(m, tasks, j, k, q) && Spent(m, m', n)
    ensures AtDuty(m', tasks, j, k, q)
  {
    AheadPut(m.run.ats, m'.run.ats, tasks, j, q, m.run.position);
  }

  /** One record up to that task replaced by one about the same. */
  lemma {:induction false} AheadPut(ats: seq<ATRecord>, ats': seq<ATRecord>, tasks: seq<AtomicTask>, j: nat, q: nat,
                                    p: nat)
    requires Ahead(ats, tasks, j, q) && p <= q && |ats'| == |ats| && SameIdentity(ats'[p], ats[p])
    requires forall i :: 0 <= i < |ats| && i != p ==> ats'[i] == ats[i]
    ensures Ahead(ats', tasks, j, q)
    ensures |BranchSlugs(ats', tasks[j].slug)| == |BranchSlugs(ats, tasks[j].slug)|
  {
    forall i | 0 <= i < |ats| ensures KeyOf(ats'[i]) == KeyOf(ats[i]) && ats'[i].spec == ats[i].spec {}
    assert Keys(ats') == Keys(ats);
    BranchCount(ats, tasks[j].slug);
    BranchCount(ats', tasks[j].slug);
    forall i | 0 <= i < q ensures Behind(ats'[i], tasks, j) { assert Behind(ats[i], tasks, j); }
    forall i | q < i < |ats'| ensures Untried(ats'[i], tasks[i - q + j]) { assert Untried(ats[i], tasks[i - q + j]); }
  }

  /** One more branch, in front of its target: the tasks behind it move. */
  lemma {:induction false} AheadInserted(ats: seq<ATRecord>, sup: seq<ATRecord>, tasks: seq<AtomicTask>, j: nat, q: nat,
                                         br: ATRecord)
    requires Ahead(ats, tasks, j, q) && SameDuties(ats, sup) && Behind(br, tasks, j)
    ensures Ahead(Renumber(InsertAt(sup, q, br)), tasks, j, q + 1)
  {
    var live := Renumber(InsertAt(sup, q, br));
    InsertedAt(sup, q, br, q + 1);
    forall i | 0 <= i < q + 1 ensures Behind(live[i], tasks, j) {
      InsertedAt(sup, q, br, i);
      if i < q { assert Behind(ats[i], tasks, j); }
    }
    forall i | q + 1 < i < |live| ensures Untried(live[i], tasks[i - (q + 1) + j]) {
      InsertedAt(sup, q, br, i);
      assert Untried(ats[i - 1], tasks[i - 1 - q + j]);
    }
  }

  lemma {:induction false} BranchBehind(tasks: seq<AtomicTask>, j: nat, br: ATRecord)
    requires ValidTasks(tasks) && j < |tasks| && br.branchIndex > 0 && br.parentSlug == tasks[j].slug
    ensures Behind(br, tasks, j)
  {}

  predicate SameDuties(ats: seq<ATRecord>, sup: seq<ATRecord>) {
    && |sup| == |ats|
    && forall i :: 0 <= i < |ats| ==>
      KeyOf(sup[i]) == KeyOf(ats[i]) && sup[i].spec == ats[i].spec && sup[i].respawns == ats[i].respawns
  }

  lemma {:induction false} SupersededDuties(s: RunState, target: string, t: nat)
    requires t < |s.ats|
    ensures SameDuties(s.ats, Supersede(s, target, t))
  {}

  lemma {:induction false} AheadBranch(s: RunState, tasks: seq<AtomicTask>, j: nat, q: nat, live: seq<ATRecord>)
    requires Ahead(s.ats, tasks, j, q) && ValidTasks(tasks)
    requires live == BranchedATs(s, tasks[j].slug, q, "")
    ensures Ahead(live, tasks, j, q + 1)
    ensures live[q].parentSlug == tasks[j].slug && live[q].respawns == 0
    ensures AttemptBudget(live[q].spec) == AttemptBudget(tasks[j])
    ensures |BranchSlugs(live, tasks[j].slug)| == |BranchSlugs(s.ats, tasks[j].slug)| + 1
  {
    var sup, br := Supersede(s, tasks[j].slug, q), NewBranch(s, tasks[j].slug, q, "");
    SupersededKeys(s, tasks[j].slug, q);
    SupersededDuties(s, tasks[j].slug, q);
    DutyInserted(s.ats, sup, tasks, j, q, br, live);
  }

  lemma {:induction false} DutyInserted(ats: seq<ATRecord>, sup: seq<ATRecord>, tasks: seq<AtomicTask>, j: nat, q: nat,
                                        br: ATRecord, live: seq<ATRecord>)
    requires Ahead(ats, tasks, j, q) && ValidTasks(tasks) && SameDuties(ats, sup) && Keys(sup) == Keys(ats)
    requires br.parentSlug == tasks[j].slug && br.branchIndex > 0 && br.respawns == 0
    requires AttemptBudget(br.spec) == AttemptBudget(tasks[j]) && live == Renumber(InsertAt(sup, q, br))
    ensures Ahead(live, tasks, j, q + 1)
    ensures live[q].parentSlug == tasks[j].slug && live[q].respawns == 0
    ensures AttemptBudget(live[q].spec) == AttemptBudget(tasks[j])
    ensures |BranchSlugs(live, tasks[j].slug)| == |BranchSlugs(ats, tasks[j].slug)| + 1
  {
    CountInserted(ats, sup, q, br);
    InsertedAt(sup, q, br, q);
    BranchBehind(tasks, j, br);
    AheadInserted(ats, sup, tasks, j, q, br);
  }

  lemma {:induction false} BranchAllowedThere(m: Machine, tasks: seq<AtomicTask>, j: nat, k: nat, q: nat, b: nat)
    requires AtDuty(m, tasks, j, k, q) && k < b
    ensures TargetIndex(m.run.ats, tasks[j].slug) == q && BranchAllowed(m.run, tasks[j].slug, b)
  {
    forall i | 0 <= i < q ensures !(m.run.ats[i].slug == tasks[j].slug && m.run.ats[i].branchIndex == 0) {
      assert Behind(m.run.ats[i], tasks, j);
    }
    TargetAt(m.run.ats, tasks[j].slug, q);
  }

  /** What an allowed branch_fix does to the list, the position and the counts. */
  ghost predicate Branched(m: Machine, m': Machine, a: string, q: nat)
    requires q < |m.run.ats|
  {
    && m'.phase.Idle? && m'.run.status == ChainPending && m'.run.position == q
    && m'.run.ats == BranchedATs(m.run, a, q, "")
    && m'.entries == m.entries && m'.attempts == m.attempts
  }

  lemma {:induction false} Branches(m: Machine, m': Machine, cap: nat, step: Step, q: nat)
    requires step.BranchFix? && step.goal == "" && Staging(m) && BranchAllowed(m.run, step.target, step.maxBranches)
    requires q == TargetIndex(m.run.ats, step.target) && m' == Apply(m, cap, step)
    ensures Branched(m, m', step.target, q)
  {
    BranchApplies(m, cap, step);
    BranchStepParts(m, step.target, "", step.rewound);
  }

  lemma {:induction false} BranchNext(m: Machine, m': Machine, tasks: seq<AtomicTask>, j: nat, k: nat, q: nat)
    requires AtDuty(m, tasks, j, k, q) && ValidTasks(tasks) && Branched(m, m', tasks[j].slug, q)
    ensures AtDuty(m', tasks, j, k + 1, q + 1) && Current(m'.run).respawns == 0
  {
    var live := m'.run.ats;
    AheadBranch(m.run, tasks, j, q, live);
    assert Ahead(live, tasks, j, q + 1);
    assert |BranchSlugs(live, tasks[j].slug)| == k + 1;
    assert HasCurrent(m'.run) && Current(m'.run) == live[q];
  }

  ghost predicate Skipped(m: Machine, m': Machine) {
    && HasCurrent(m.run) && Staging(m') && m'.run.position == m.run.position + 1
    && m'.run.ats == m.run.ats[m.run.position := Current(m.run).(status := ATSkipped)]
    && m'.entries == m.entries && m'.attempts == m.attempts
  }

  lemma {:induction false} Skips(m: Machine, cap: nat, skip: Step)
    requires Staging(m) && HasCurrent(m.run) && skip == Skip
    ensures Skipped(m, Apply(m, cap, skip))
  {}

  lemma {:induction false} FromTask(m: Machine, m1: Machine, tasks: seq<AtomicTask>, j: nat, q: nat)
    requires AtDuty(m, tasks, j, 0, q) && ValidTasks(tasks) && j + 1 < |tasks| && Skipped(m, m1)
    ensures AtDuty(m1, tasks, j + 1, 0, q + 1) && Current(m1.run).respawns == 0
  {
    Passed(m.run.ats, m1.run.ats, tasks, j, q);
  }

  lemma {:induction false} FromBranch(m: Machine, m1: Machine, m2: Machine, tasks: seq<AtomicTask>, j: nat, k: nat,
                                      q: nat)
    requires AtDuty(m, tasks, j, k, q) && k > 0 && ValidTasks(tasks) && j + 1 < |tasks|
    requires Skipped(m, m1) && Skipped(m1, m2)
    ensures AtDuty(m2, tasks, j + 1, 0, q + 1) && Current(m2.run).respawns == 0
  {
    Passed(m.run.ats, m2.run.ats, tasks, j, q);
  }

  /** Past a branch and its target, or past a target, to the next task. */
  lemma {:induction false} NextTask(m: Machine, cap: nat, tasks: seq<AtomicTask>, j: nat, k: nat, q: nat)
    returns (steps: seq<Step>)
    requires AtDuty(m, tasks, j, k, q) && ValidTasks(tasks) && j + 1 < |tasks|
    ensures NoBranchFix(steps)
    ensures var m' := Run(m, cap, steps);
      && AtDuty(m', tasks, j + 1, 0, q + 1) && Current(m'.run).respawns == 0
      && m'.entries == m.entries && m'.attempts == m.attempts
  {
    var skip := Skip;
    var m1 := Apply(m, cap, skip);
    Skips(m, cap, skip);
    RunOne(m, cap, skip);
    if k == 0 {
      steps := [skip];
      FromTask(m, m1, tasks, j, q);
    } else {
      steps := [skip] + [skip];
      RunThen(m, cap, skip, [skip]);
      RunOne(m1, cap, skip);
      Skips(m1, cap, skip);
      FromBranch(m, m1, Apply(m1, cap, skip), tasks, j, k, q);
    }
  }

  lemma {:induction false} Passed(ats: seq<ATRecord>, ats': seq<ATRecord>, tasks: seq<AtomicTask>, j: nat, q: nat)
    requires Ahead(ats, tasks, j, q) && ValidTasks(tasks) && j + 1 < |tasks| && |ats'| == |ats|
    requires forall i :: 0 <= i <= q ==> ats'[i] == ats[i].(status := ats'[i].status)
    requires forall i :: q < i < |ats| ==> ats'[i] == ats[i]
    ensures Ahead(ats', tasks, j + 1, q + 1) && ats'[q + 1].respawns == 0
    ensures |BranchSlugs(ats', tasks[j + 1].slug)| == 0
  {
    var x := tasks[j + 1].slug;
    NotBlank(x);
    assert Untried(ats[q + 1], tasks[j + 1]);
    forall i | q + 1 < i < |ats'| ensures Untried(ats'[i], tasks[i - (q + 1) + (j + 1)]) {
      assert Untried(ats[i], tasks[i - q + j]);
    }
    forall i | 0 <= i < q + 1 ensures Behind(ats'[i], tasks, j + 1) {
      if i < q { assert Behind(ats[i], tasks, j); } else { PassedTarget(ats'[q], tasks, j); }
    }
    forall i | 0 <= i < |ats'| ensures ats'[i].parentSlug != x {
      if i < q { assert Behind(ats[i], tasks, j); } else if i > q { assert Untried(ats[i], tasks[i - q + j]); }
    }
    NoBranches(ats', x);
  }

  lemma {:induction false} PassedTarget(r: ATRecord, tasks: seq<AtomicTask>, j: nat)
    requires ValidTasks(tasks) && j < |tasks| && KeyOf(r) == Key(tasks[j].slug, "", 0)
    ensures Behind(r, tasks, j + 1)
  {
    forall k | j < k < |tasks| ensures r.slug != tasks[k].slug && r.parentSlug != tasks[k].slug {
      NotBlank(tasks[k].slug);
    }
  }

  // ------------------------------------------------------------- the whole run

  /** What is left to spend from branch `k` of task `j` on, at `per[j]` for each duty of task `j`. */
  function Left(per: seq<nat>, b: nat, j: nat, k: nat): nat
    requires j < |per| && k <= b
    decreases |per| - j, b - k
  {
    per[j] + if k < b then Left(per, b, j, k + 1) else if j + 1 < |per| then Left(per, b, j + 1, 0) else 0
  }

  function Duties(n: nat, b: nat, j: nat, k: nat): nat
    requires j < n && k <= b
    decreases n - j, b - k
  {
    1 + if k < b then Duties(n, b, j, k + 1) else if j + 1 < n then Duties(n, b, j + 1, 0) else 0
  }

  lemma {:induction false} DutiesCount(n: nat, b: nat, j: nat, k: nat)
    requires j < n && k <= b
    ensures Duties(n, b, j, k) == (n - j) * (1 + b) - k
    decreases n - j, b - k
  {
    if k < b {
      DutiesCount(n, b, j, k + 1);
    } else if j + 1 < n {
      DutiesCount(n, b, j + 1, 0);
      OneMore(n - (j + 1), 1 + b);
    }
  }

  lemma {:induction false} LeftEqual(per: seq<nat>, b: nat, j: nat, k: nat, x: nat)
    requires j < |per| && k <= b && forall i :: 0 <= i < |per| ==> per[i] == x
    ensures Left(per, b, j, k) == Duties(|per|, b, j, k) * x
    decreases |per| - j, b - k
  {
    var rest := Duties(|per|, b, j, k) - 1;
    OneMore(rest, x);
    if k < b {
      LeftEqual(per, b, j, k + 1, x);
    } else if j + 1 < |per| {
      LeftEqual(per, b, j + 1, 0, x);
    }
  }

  lemma {:induction false} OneMore(d: int, x: nat)
    ensures (d + 1) * x == d * x + x
  {}

  function Entries(tasks: seq<AtomicTask>, cap: nat): seq<nat> { seq(|tasks|, _ => cap) }

  function Attempts(tasks: seq<AtomicTask>, cap: nat): seq<nat> {
    seq(|tasks|, i requires 0 <= i < |tasks| => cap * AttemptBudget(tasks[i]))
  }

  ghost predicate SpentAll(m: Machine, m': Machine, cap: nat, tasks: seq<AtomicTask>, b: nat, j: nat, k: nat)
    requires j < |tasks| && k <= b
  {
    && m'.entries == m.entries + Left(Entries(tasks, cap), b, j, k)
    && m'.attempts == m.attempts + Left(Attempts(tasks, cap), b, j, k)
  }

  /** One duty, and then the rest. */
  lemma {:induction false} SpentThen(m: Machine, m1: Machine, m2: Machine, m3: Machine, cap: nat,
                                     tasks: seq<AtomicTask>, b: nat, j: nat, k: nat, q: nat)
    requires AtDuty(m, tasks, j, k, q) && Spent(m, m1, cap) && k <= b
    requires m2.entries == m1.entries && m2.attempts == m1.attempts
    requires if k < b then SpentAll(m2, m3, cap, tasks, b, j, k + 1)
             else if j + 1 < |tasks| then SpentAll(m2, m3, cap, tasks, b, j + 1, 0) else m3 == m2
    ensures SpentAll(m, m3, cap, tasks, b, j, k)
  {
    TimesIs(cap, AttemptBudget(tasks[j]));
    assert Attempts(tasks, cap)[j] == cap * AttemptBudget(tasks[j]);
  }

  /** Every duty from here on is spent. */
  lemma {:induction false} SpendsAll(m: Machine, cap: nat, tasks: seq<AtomicTask>, j: nat, k: nat, q: nat, b: nat)
    returns (steps: seq<Step>)
    requires AtDuty(m, tasks, j, k, q) && k <= b && ValidTasks(tasks) && Current(m.run).respawns == 0
    ensures BranchesWithin(steps, b) && SpentAll(m, Run(m, cap, steps), cap, tasks, b, j, k)
    decreases |tasks| - j, b - k
  {
    var tries := TriesAll(m, cap, cap);
    var m1 := Run(m, cap, tries);
    SpentKeeps(m, m1, cap, tasks, j, k, q);
    var m2, rest := m1, [];
    if k < b {
      m2, rest := BranchAndOn(m1, cap, tasks, j, k, q, b);
    } else if j + 1 < |tasks| {
      m2, rest := NextAndOn(m1, cap, tasks, j, k, q, b);
    }
    steps := tries + rest;
    RunConcat(m, cap, tries, rest);
    SpentThen(m, m1, m2, Run(m1, cap, rest), cap, tasks, b, j, k, q);
  }

  lemma {:induction false} BranchStep(m: Machine, m': Machine, cap: nat, tasks: seq<AtomicTask>, j: nat, k: nat, q: nat,
                                      b: nat, fix: Step)
    requires AtDuty(m, tasks, j, k, q) && k < b && ValidTasks(tasks)
    requires fix == BranchFix(tasks[j].slug, "", b, true) && m' == Apply(m, cap, fix)
    ensures AtDuty(m', tasks, j, k + 1, q + 1) && Current(m'.run).respawns == 0
    ensures m'.entries == m.entries && m'.attempts == m.attempts
  {
    BranchAllowedThere(m, tasks, j, k, q, b);
    Branches(m, m', cap, fix, q);
    BranchNext(m, m', tasks, j, k, q);
  }

  /** One more branch. */
  lemma {:induction false} NextBranchOf(m: Machine, cap: nat, tasks: seq<AtomicTask>, j: nat, k: nat, q: nat, b: nat)
    returns (steps: seq<Step>)
    requires AtDuty(m, tasks, j, k, q) && k < b && ValidTasks(tasks)
    ensures BranchesWithin(steps, b)
    ensures var m' := Run(m, cap, steps);
      && AtDuty(m', tasks, j, k + 1, q + 1) && Current(m'.run).respawns == 0
      && m'.entries == m.entries && m'.attempts == m.attempts
  {
    var fix := BranchFix(tasks[j].slug, "", b, true);
    steps := [fix];
    RunOne(m, cap, fix);
    BranchStep(m, Run(m, cap, steps), cap, tasks, j, k, q, b, fix);
  }

  lemma {:induction false} BranchAndOn(m: Machine, cap: nat, tasks: seq<AtomicTask>, j: nat, k: nat, q: nat, b: nat)
    returns (m': Machine, steps: seq<Step>)
    requires AtDuty(m, tasks, j, k, q) && k < b && ValidTasks(tasks)
    ensures BranchesWithin(steps, b) && m'.entries == m.entries && m'.attempts == m.attempts
    ensures SpentAll(m', Run(m, cap, steps), cap, tasks, b, j, k + 1)
    decreases |tasks| - j, b - k, 0
  {
    var next := NextBranchOf(m, cap, tasks, j, k, q, b);
    m' := Run(m, cap, next);
    var rest := SpendsAll(m', cap, tasks, j, k + 1, q + 1, b);
    RunConcat(m, cap, next, rest);
    steps := next + rest;
  }

  lemma {:induction false} NextAndOn(m: Machine, cap: nat, tasks: seq<AtomicTask>, j: nat, k: nat, q: nat, b: nat)
    returns (m': Machine, steps: seq<Step>)
    requires AtDuty(m, tasks, j, k, q) && ValidTasks(tasks) && j + 1 < |tasks|
    ensures BranchesWithin(steps, b) && m'.entries == m.entries && m'.attempts == m.attempts
    ensures SpentAll(m', Run(m, cap, steps), cap, tasks, b, j + 1, 0)
    decreases |tasks| - j, 0, 0
  {
    var next := NextTask(m, cap, tasks, j, k, q);
    m' := Run(m, cap, next);
    var rest := SpendsAll(m', cap, tasks, j + 1, 0, q + 1, b);
    RunConcat(m, cap, next, rest);
    steps := next + rest;
  }

  lemma {:induction false} StartsAtDuty(c: Chain)
    requires c.Valid()
    ensures AtDuty(c.After([]), c.tasks, 0, 0, 0) && Current(c.After([]).run).respawns == 0
    ensures c.After([]).entries == 0 && c.After([]).attempts == 0
  {
    var ats := c.After([]).run.ats;
    NotBlank(c.tasks[0].slug);
    NoBranches(ats, c.tasks[0].slug);
  }

  predicate Budgets(tasks: seq<AtomicTask>, ceiling: nat) {
    forall i :: 0 <= i < |tasks| ==> AttemptBudget(tasks[i]) == ceiling
  }

  /** On every chain some run makes all the entries the bound allows; and when all tasks
      have the same iteration ceiling it makes all the attempts too. */
  lemma {:induction false} EffortBoundMet(c: Chain, b: nat, ceiling: nat) returns (steps: seq<Step>)
    requires c.Valid() && c.cap > 0
    ensures BranchesWithin(steps, b) && c.After(steps).entries == |c.tasks| * (1 + b) * c.cap
    ensures Budgets(c.tasks, ceiling) ==> c.After(steps).attempts == |c.tasks| * (1 + b) * c.cap * ceiling
  {
    StartsAtDuty(c);
    steps := SpendsAll(c.After([]), c.cap, c.tasks, 0, 0, 0, b);
    DutiesCount(|c.tasks|, b, 0, 0);
    LeftEqual(Entries(c.tasks, c.cap), b, 0, 0, c.cap);
    if Budgets(c.tasks, ceiling) {
      LeftEqual(Attempts(c.tasks, c.cap), b, 0, 0, c.cap * ceiling);
      Associate(|c.tasks| * (1 + b), c.cap, ceiling);
    }
  }

  lemma {:induction false} Associate(a: nat, b: nat, c: nat)
    ensures a * (b * c) == a * b * c
  {}
}
