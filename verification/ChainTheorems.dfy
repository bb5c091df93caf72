/** What holds of every run of a coding chain, whatever the workers, the gates, the
    operator and the repository do. */
module ChainTheorems {
  import opened Text
  import opened CodingTypes
  import opened EventLog
  import opened LogCompaction
  import opened WorkerGate
  import opened ChainMachine
  import opened ChainShape
  import opened ChainStanding
  import opened ChainProofs

  /** A chain that was started: its tasks, and where its run has come after `steps`. */
  datatype Chain = Chain(meta: RunMeta, tasks: seq<AtomicTask>, tier: string, repo: Repo, cap: nat)
  {
    function After(steps: seq<Step>): Machine {
      Run(Start(meta, tasks, tier, repo), cap, steps)
    }

    /** Accepted by validation. */
    predicate Valid() { ValidTasks(tasks) }

    /** No task is named like a branch of another; nothing in the source checks it. */
    ghost predicate Unambiguous() { NoCollision(TaskSlugs(tasks)) }
  }

  lemma {:induction false} ValidNames(tasks: seq<AtomicTask>)
    requires ValidTasks(tasks)
    ensures Named(TaskSlugs(tasks))
  {
    forall i | 0 <= i < |tasks| ensures TaskSlugs(tasks)[i] != "" {
      if tasks[i].slug == "" { assert Blank(tasks[i].slug); }
    }
  }

  lemma {:induction false} AfterStanding(c: Chain, steps: seq<Step>)
    requires c.Valid()
    ensures Named(TaskSlugs(c.tasks)) && Standing(c.After(steps), TaskSlugs(c.tasks))
  {
    ValidNames(c.tasks);
    StandingStart(c.meta, c.tasks, c.tier, c.repo);
    StandingRun(Start(c.meta, c.tasks, c.tier, c.repo), TaskSlugs(c.tasks), c.cap, steps);
  }

  lemma {:induction false} AfterLogged(c: Chain, steps: seq<Step>)
    requires c.Valid() && c.Unambiguous()
    ensures Logged(c.After(steps))
  {
    ValidNames(c.tasks);
    StandingStart(c.meta, c.tasks, c.tier, c.repo);
    LoggedStart(c.meta, c.tasks, c.tier, c.repo);
    LoggedRun(Start(c.meta, c.tasks, c.tier, c.repo), TaskSlugs(c.tasks), c.cap, steps);
  }

  // ------------------------------------------------------- event sourcing

  /** Whenever the run loop is not active, the emitted log folds to the live state. */
  lemma {:induction false} EventSourcing(c: Chain, steps: seq<Step>)
    requires c.Valid() && c.Unambiguous()
    ensures var m := c.After(steps); m.phase.Idle? ==> FoldLog(m.log) == m.run
  {
    AfterLogged(c, steps);
  }

  /** On every log a run emits, compaction preserves the projection exactly when no
      inserted record was recorded again away from where it was inserted. */
  lemma {:induction false} RunCompaction(c: Chain, steps: seq<Step>)
    requires c.Valid() && c.Unambiguous()
    ensures var log := c.After(steps).log;
      WellFormed(log) && (FoldLog(CompactLog(log)) == FoldLog(log) <==> StableInserts(log))
  {
    AfterLogged(c, steps);
    CompactionExact(c.After(steps).log);
  }

  // -------------------------------------------------------------- structure

  /** The list is the tasks in order, each directly behind its branches in index
      order; no two records are the same branch or task; positions are indices; nothing
      before the current position is open; and a successful chain has nothing open. */
  lemma {:induction false} Structure(c: Chain, steps: seq<Step>)
    requires c.Valid()
    ensures var s := c.After(steps).run;
      && Shaped(TaskSlugs(c.tasks), s.ats) && Distinct(Keys(s.ats)) && Numbered(s.ats)
      && 0 <= s.position <= |s.ats|
      && (forall i :: 0 <= i < s.position ==> s.ats[i].Resolved())
      && (s.status == ChainSuccess ==> forall i :: 0 <= i < |s.ats| ==> s.ats[i].Resolved())
  {
    AfterStanding(c, steps);
    ShapedIdentified(TaskSlugs(c.tasks), c.After(steps).run.ats);
  }

  lemma {:induction false} SlugsDistinct(c: Chain, steps: seq<Step>)
    requires c.Valid() && c.Unambiguous()
    ensures Distinct(Slugs(c.After(steps).run.ats))
  {
    AfterStanding(c, steps);
    ShapedDistinct(TaskSlugs(c.tasks), c.After(steps).run.ats);
  }

  // ------------------------------------- RunToCompletion is a run of its steps

  lemma {:induction false} RunConcat(m: Machine, cap: nat, a: seq<Step>, b: seq<Step>)
    ensures Run(m, cap, a + b) == Run(Run(m, cap, a), cap, b)
  {
    if b == [] {
      assert a + b == a;
    } else {
      var n := |b| - 1;
      RunConcat(m, cap, a, b[..n]);
      assert (a + b)[..|a + b| - 1] == a + b[..n];
    }
  }

  lemma {:induction false} RunOne(m: Machine, cap: nat, step: Step)
    ensures Run(m, cap, [step]) == Apply(m, cap, step)
  {
    assert [step][..0] == [];
  }

  /** The states a run goes through. */
  lemma {:induction false} RunStates(m: Machine, cap: nat, steps: seq<Step>) returns (ms: seq<Machine>)
    ensures |ms| == |steps| + 1 && ms[0] == m && ms[|steps|] == Run(m, cap, steps)
    ensures forall k :: 0 <= k < |steps| ==> ms[k + 1] == Apply(ms[k], cap, steps[k])
  {
    if steps == [] {
      ms := [m];
    } else {
      var n := |steps| - 1;
      var before := RunStates(m, cap, steps[..n]);
      ms := before + [Run(m, cap, steps)];
    }
  }

  lemma {:induction false} AfterMore(c: Chain, steps: seq<Step>, step: Step)
    ensures c.After(steps + [step]) == Apply(c.After(steps), c.cap, step)
  {
    assert (steps + [step])[..|steps|] == steps;
  }

  lemma {:induction false} RunThen(m: Machine, cap: nat, step: Step, rest: seq<Step>)
    ensures Run(m, cap, [step] + rest) == Run(Apply(m, cap, step), cap, rest)
  {
    RunConcat(m, cap, [step], rest);
    RunOne(m, cap, step);
  }

  /** The whole run loop is a sequence of the steps above. */
  lemma {:induction false} DriveIsRun(m: Machine, cap: nat, env: nat -> RoundInput, k: nat) returns (steps: seq<Step>)
    requires m.phase.Driving? && m.run.position >= 0
    ensures Run(m, cap, steps) == Drive(m, cap, env, k)
    decreases |m.run.ats| - m.run.position
  {
    var look := Look(env(k).pause);
    var m1 := Apply(m, cap, look);
    if m1.phase.Driving? {
      var rest := DriveIsRun(m1, cap, env, k + 1);
      RunThen(m, cap, look, rest);
      steps := [look] + rest;
    } else if m1.phase.Executing? {
      var perform := Perform(env(k).run);
      var m2 := Apply(m1, cap, perform);
      var m3 := Apply(m2, cap, Settle);
      var rest: seq<Step> := [];
      if m3.phase.Driving? { rest := DriveIsRun(m3, cap, env, k + 1); }
      RunThen(m2, cap, Settle, rest);
      RunThen(m1, cap, perform, [Settle] + rest);
      RunThen(m, cap, look, [perform] + ([Settle] + rest));
      steps := [look] + ([perform] + ([Settle] + rest));
    } else {
      RunOne(m, cap, look);
      steps := [look];
    }
  }

  // ------------------------------------------------ no uncertified success

  /** Accepted by the operator, with a commit and a justification. */
  ghost predicate ForcedThrough(r: ATRecord) {
    && r.worker == WorkerForceAdvance && r.commit != 0
    && exists j: string :: !Blank(j) && r.diagnostic == "force_advance: " + j
  }

  /** What stands behind one record, given the evidence kept. */
  ghost predicate Backed(r: ATRecord, evidence: map<Key, RunInput>) {
    r.status == ATSuccess ==>
      || ForcedThrough(r)
      || (KeyOf(r) in evidence && Certified(r, evidence[KeyOf(r)]))
  }

  ghost predicate AllBacked(m: Machine) {
    forall i :: 0 <= i < |m.run.ats| ==> Backed(m.run.ats[i], m.evidence)
  }

  lemma {:induction false} BackedPerform(m: Machine, cap: nat, input: RunInput)
    requires AllBacked(m) && HasCurrent(m.run) && Distinct(Keys(m.run.ats))
    ensures AllBacked(PerformStep(m, cap, input))
  {
    var p, m' := m.run.position, PerformStep(m, cap, input);
    ExecuteSound(Current(m.run), m.repo, cap, input);
    forall i | 0 <= i < |m'.run.ats| ensures Backed(m'.run.ats[i], m'.evidence) {
      if i != p {
        assert m'.run.ats[i] == m.run.ats[i];
        assert Keys(m.run.ats)[i] != Keys(m.run.ats)[p];
        assert Backed(m.run.ats[i], m.evidence);
      }
    }
  }

  lemma {:induction false} BackedBranch(m: Machine, target: string, goal: string, rewound: bool)
    requires AllBacked(m) && TargetIndex(m.run.ats, target) < |m.run.ats|
    ensures AllBacked(BranchFixStep(m, target, goal, rewound))
  {
    var s, t := m.run, TargetIndex(m.run.ats, target);
    forall i | 0 <= i <= |s.ats| ensures Backed(BranchedATs(s, target, t, goal)[i], m.evidence) {
      BackedBranchAt(s, target, t, goal, i, m.evidence);
    }
  }

  lemma {:induction false} BackedBranchAt(s: RunState, target: string, t: nat, goal: string, i: nat,
                                          evidence: map<Key, RunInput>)
    requires t < |s.ats| && i <= |s.ats| && forall k :: 0 <= k < |s.ats| ==> Backed(s.ats[k], evidence)
    ensures Backed(BranchedATs(s, target, t, goal)[i], evidence)
  {
    InsertedAt(Supersede(s, target, t), t, NewBranch(s, target, t, goal), i);
    if i != t {
      var k := if i < t then i else i - 1;
      assert Backed(s.ats[k], evidence);
      BackedSuperseded(s, target, t, k, evidence);
    }
  }

  lemma {:induction false} BackedSuperseded(s: RunState, target: string, t: nat, k: nat, evidence: map<Key, RunInput>)
    requires t < |s.ats| && k < |s.ats| && Backed(s.ats[k], evidence)
    ensures forall i :: Backed(Supersede(s, target, t)[k].(position := i), evidence)
  {
    var q := Supersede(s, target, t)[k];
    if q.status == ATSuccess { assert q == s.ats[k]; }
  }

  lemma {:induction false} BackedForce(m: Machine, sha: Sha, justification: string)
    requires AllBacked(m) && HasCurrent(m.run) && sha != 0 && !Blank(justification)
    ensures AllBacked(ForceAdvanceStep(m, sha, justification))
  {
    var p, m' := m.run.position, ForceAdvanceStep(m, sha, justification);
    forall i | 0 <= i < |m'.run.ats| ensures Backed(m'.run.ats[i], m'.evidence) {
      if i == p {
        assert m'.run.ats[i] == Forced(Current(m.run), sha, justification);
      } else if i != p + 1 {
        assert m'.run.ats[i] == m.run.ats[i];
        assert Backed(m.run.ats[i], m.evidence);
      }
    }
  }

  lemma {:induction false} BackedPut(m: Machine, i: nat, r: ATRecord)
    requires AllBacked(m) && i < |m.run.ats| && r.status != ATSuccess
    ensures AllBacked(PutAT(m, i, r))
  {
    var m' := PutAT(m, i, r);
    forall j | 0 <= j < |m'.run.ats| ensures Backed(m'.run.ats[j], m'.evidence) {
      if j != i { assert Backed(m.run.ats[j], m.evidence); }
    }
  }

  lemma {:induction false} BackedRunning(m: Machine, cap: nat, step: Step)
    requires AllBacked(m) && Distinct(Keys(m.run.ats))
    requires step.Resume? || step.Look? || step.Perform? || step.Settle?
    ensures AllBacked(Apply(m, cap, step))
  {
    match step {
      case Look(pause) =>
        if m.phase.Driving? && HasCurrent(m.run) {
          BackedPut(m, m.run.position, Current(m.run).(status := ATRunning));
        }
      case Perform(input) =>
        if m.phase.Executing? && HasCurrent(m.run) { BackedPerform(m, cap, input); }
      case _ =>
    }
  }

  lemma {:induction false} BackedStaged(m: Machine, cap: nat, step: Step)
    requires AllBacked(m) && (step.Retry? || step.Skip? || step.Abort? || step.Edit? || step.OutsideCommit?)
    ensures AllBacked(Apply(m, cap, step))
  {
    if HasCurrent(m.run) {
      var p, r := m.run.position, Current(m.run);
      match step {
        case Retry => BackedPut(m, p, r.Reset());
        case Skip => BackedPut(m, p, r.(status := ATSkipped));
        case Edit(goal, workspace) => BackedPut(m, p, Edited(r, goal, workspace));
        case _ =>
      }
    }
  }

  lemma {:induction false} BackedForced(m: Machine, cap: nat, step: Step)
    requires AllBacked(m) && step.ForceAdvance?
    ensures AllBacked(Apply(m, cap, step))
  {
    if step.sha != 0 && !Blank(step.justification) && HasCurrent(m.run) {
      BackedForce(m, step.sha, step.justification);
    }
  }

  lemma {:induction false} BackedBranched(m: Machine, cap: nat, step: Step)
    requires AllBacked(m) && step.BranchFix?
    ensures AllBacked(Apply(m, cap, step))
  {
    if BranchAllowed(m.run, step.target, step.maxBranches) { BackedBranch(m, step.target, step.goal, step.rewound); }
  }

  lemma {:induction false} BackedStep(m: Machine, cap: nat, step: Step)
    requires AllBacked(m) && Distinct(Keys(m.run.ats))
    ensures AllBacked(Apply(m, cap, step))
  {
    match step {
      case ForceAdvance(_, _, _) => BackedForced(m, cap, step);
      case BranchFix(_, _, _, _) => BackedBranched(m, cap, step);
      case Retry => BackedStaged(m, cap, step);
      case Skip => BackedStaged(m, cap, step);
      case Abort => BackedStaged(m, cap, step);
      case Edit(_, _) => BackedStaged(m, cap, step);
      case OutsideCommit(_) => BackedStaged(m, cap, step);
      case _ => BackedRunning(m, cap, step);
    }
  }

  /** In every state a run can reach, a successful AT was forced through with a commit
      and a justification, or its last attempt is certified. */
  lemma {:induction false} NoUncertifiedSuccess(c: Chain, steps: seq<Step>)
    requires c.Valid()
    ensures var m := c.After(steps);
      forall i :: 0 <= i < |m.run.ats| && m.run.ats[i].status == ATSuccess ==>
        || ForcedThrough(m.run.ats[i])
        || (KeyOf(m.run.ats[i]) in m.evidence && Certified(m.run.ats[i], m.evidence[KeyOf(m.run.ats[i])]))
  {
    AllBackedAfter(c, steps);
    var m := c.After(steps);
    forall i | 0 <= i < |m.run.ats| && m.run.ats[i].status == ATSuccess
      ensures ForcedThrough(m.run.ats[i]) ||
        (KeyOf(m.run.ats[i]) in m.evidence && Certified(m.run.ats[i], m.evidence[KeyOf(m.run.ats[i])]))
    {
      assert Backed(m.run.ats[i], m.evidence);
    }
  }

  lemma {:induction false} AllBackedAfter(c: Chain, steps: seq<Step>)
    requires c.Valid()
    ensures AllBacked(c.After(steps))
  {
    if steps != [] {
      var before := steps[..|steps| - 1];
      AllBackedAfter(c, before);
      Structure(c, before);
      BackedStep(c.After(before), c.cap, steps[|steps| - 1]);
    }
  }
}
