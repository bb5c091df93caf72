/** What every run of a coding chain keeps whatever its tasks are called: the shape of
    the AT list, its numbering, and everything before the current position resolved
    (internal/coding/orchestrator.go, intervene.go, staging.go). */
module ChainStanding {
  import opened CodingTypes
  import opened WorkerGate
  import opened ChainMachine
  import opened ChainShape

  /** What validation promises of the task names: distinct and not blank. */
  predicate Named(slugs: seq<string>) {
    Distinct(slugs) && forall i :: 0 <= i < |slugs| ==> slugs[i] != ""
  }

  // ------------------------------------------------------- the list's shape

  lemma {:induction false} KeysInsert(ats: seq<ATRecord>, t: nat, r: ATRecord)
    requires t <= |ats|
    ensures Keys(Renumber(InsertAt(ats, t, r))) == InsertAt(Keys(ats), t, KeyOf(r))
  {}

  lemma {:induction false} SupersededKeys(s: RunState, target: string, t: nat)
    requires t < |s.ats|
    ensures Keys(Supersede(s, target, t)) == Keys(s.ats)
  {}

  /** One more branch of the original at `t`, inserted right there, keeps the shape. */
  lemma {:induction false} GroupGrows(slugs: seq<string>, ats: seq<ATRecord>, sup: seq<ATRecord>, t: nat, br: ATRecord)
    requires Named(slugs) && Shaped(slugs, ats) && Keys(sup) == Keys(ats)
    requires t < |ats| && ats[t].branchIndex == 0
    requires KeyOf(br) == NextBranch(ats[t].slug, |BranchSlugs(ats, ats[t].slug)|)
    ensures Shaped(slugs, Renumber(InsertAt(sup, t, br)))
  {
    var counts: seq<nat> :| |counts| == |slugs| && Keys(ats) == Layout(slugs, counts);
    assert Keys(ats)[t] == KeyOf(ats[t]);
    var i := LayoutInsert(slugs, counts, t);
    BranchCount(ats, ats[t].slug);
    LayoutCount(slugs, counts, i);
    KeysInsert(sup, t, br);
    assert Keys(Renumber(InsertAt(sup, t, br))) == Layout(slugs, counts[i := counts[i] + 1]);
  }

  /** A branch extends its target's group by the next index. */
  lemma {:induction false} BranchShape(s: RunState, slugs: seq<string>, target: string, goal: string)
    requires Named(slugs) && Shaped(slugs, s.ats)
    requires TargetIndex(s.ats, target) < |s.ats|
    ensures Shaped(slugs, BranchedATs(s, target, TargetIndex(s.ats, target), goal))
  {
    var t := TargetIndex(s.ats, target);
    SupersededKeys(s, target, t);
    GroupGrows(slugs, s.ats, Supersede(s, target, t), t, NewBranch(s, target, t, goal));
  }

  lemma {:induction false} InsertedAt(ats: seq<ATRecord>, t: nat, br: ATRecord, j: nat)
    requires t <= |ats| && j <= |ats|
    ensures Renumber(InsertAt(ats, t, br))[j] ==
      (if j < t then ats[j] else if j == t then br else ats[j - 1]).(position := j)
  {
    if j > t { assert InsertAt(ats, t, br)[j - 1 + 1] == ats[j - 1]; }
  }

  /** No two records have the same key, and tasks have no parent. */
  predicate Identified(ats: seq<ATRecord>) {
    && Distinct(Keys(ats))
    && forall k :: 0 <= k < |ats| && ats[k].branchIndex == 0 ==> ats[k].parentSlug == ""
  }

  /** The keys of a shaped list are distinct, also when slugs are not. */
  lemma {:induction false} ShapedIdentified(slugs: seq<string>, ats: seq<ATRecord>)
    requires Distinct(slugs) && Shaped(slugs, ats)
    ensures Identified(ats)
  {
    var counts: seq<nat> :| |counts| == |slugs| && Keys(ats) == Layout(slugs, counts);
    forall i, j | 0 <= i < j < |ats| ensures Keys(ats)[i] != Keys(ats)[j] {
      LayoutKeysDistinct(slugs, counts, i, j);
    }
    forall k | 0 <= k < |ats| && ats[k].branchIndex == 0 ensures ats[k].parentSlug == "" {
      LayoutProper(slugs, counts, k);
      assert Keys(ats)[k] == KeyOf(ats[k]);
    }
  }

  // ---------------------------------------------------------------- progress

  /** Everything before the current position is resolved, and the phase is what the
      current record says. */
  ghost predicate Progress(m: Machine) {
    var s := m.run;
    && 0 <= s.position <= |s.ats|
    && (forall i :: 0 <= i < s.position ==> s.ats[i].Resolved())
    && (s.status == ChainSuccess ==> s.position == |s.ats|)
    && (!m.phase.Idle? ==> s.status == ChainRunning)
    && (m.phase.Executing? ==> HasCurrent(s) && Current(s).status == ATRunning)
    && (m.phase.Settled? ==>
          HasCurrent(s) && (Current(s).status == ATSuccess || Current(s).status == ATFailed))
  }

  /** Everything left of an allowed branch is resolved: what lies between the current
      AT and its parent is superseded. */
  lemma {:induction false} BranchPrefix(s: RunState, slugs: seq<string>, target: string, maxBranches: int,
                                        goal: string, i: nat)
    requires Named(slugs) && Shaped(slugs, s.ats) && BranchAllowed(s, target, maxBranches)
    requires 0 <= s.position && forall j :: 0 <= j < s.position && j < |s.ats| ==> s.ats[j].Resolved()
    requires i < TargetIndex(s.ats, target)
    ensures BranchedATs(s, target, TargetIndex(s.ats, target), goal)[i].Resolved()
  {
    var t := TargetIndex(s.ats, target);
    assert BranchedATs(s, target, t, goal)[i] == Supersede(s, target, t)[i].(position := i);
    if i >= s.position {
      var counts: seq<nat> :| |counts| == |slugs| && Keys(s.ats) == Layout(slugs, counts);
      var j := LayoutInsert(slugs, counts, t);
      assert Keys(s.ats)[t] == KeyOf(s.ats[t]) && Keys(s.ats)[s.position] == KeyOf(Current(s));
      BranchesContiguous(slugs, counts, t, s.position, i);
      assert Keys(s.ats)[i] == KeyOf(s.ats[i]);
    }
  }

  /** Between a branch and its target there are only branches of that target. */
  lemma {:induction false} BranchesContiguous(slugs: seq<string>, counts: seq<nat>, t: nat, p: nat, i: nat)
    requires |slugs| == |counts| && Distinct(slugs) && (forall k :: 0 <= k < |slugs| ==> slugs[k] != "")
    requires p <= i < t < |Layout(slugs, counts)|
    requires Layout(slugs, counts)[t].index == 0
    requires Layout(slugs, counts)[p].parent == Layout(slugs, counts)[t].slug
    ensures Layout(slugs, counts)[i].parent == Layout(slugs, counts)[t].slug
  {
    var l, g, rest := Layout(slugs, counts), Group(slugs[0], counts[0]), Layout(slugs[1..], counts[1..]);
    if p >= |g| {
      assert l[p] == rest[p - |g|] && l[i] == rest[i - |g|] && l[t] == rest[t - |g|];
      BranchesContiguous(slugs[1..], counts[1..], t - |g|, p - |g|, i - |g|);
    } else {
      assert l[p] == g[p];
      LayoutProper(slugs, counts, p);
      LayoutProper(slugs, counts, t);
      assert l[t].slug == slugs[0];
      if t >= |g| {
        assert l[t] == rest[t - |g|];
        LayoutProper(slugs[1..], counts[1..], t - |g|);
        assert false;
      }
      assert l[i] == g[i] && t == |g| - 1;
    }
  }

  ghost predicate Standing(m: Machine, slugs: seq<string>) {
    Shaped(slugs, m.run.ats) && Numbered(m.run.ats) && Progress(m)
  }

  // -------------------------------------------------------------- every step

  /** Steps other than an accepted branch_fix leave keys and positions alone. */
  lemma {:induction false} KeysStep(m: Machine, cap: nat, step: Step)
    requires !step.BranchFix?
    ensures Keys(Apply(m, cap, step).run.ats) == Keys(m.run.ats)
  {
    if step.Perform? && HasCurrent(m.run) {
      ExecuteSound(Current(m.run), m.repo, cap, step.input);
    }
  }

  lemma {:induction false} NumberedStep(m: Machine, cap: nat, step: Step)
    requires Numbered(m.run.ats) && !step.BranchFix?
    ensures Numbered(Apply(m, cap, step).run.ats)
  {
    if step.Perform? && HasCurrent(m.run) {
      ExecuteSound(Current(m.run), m.repo, cap, step.input);
    }
  }

  lemma {:induction false} ProgressLoop(m: Machine, cap: nat, step: Step)
    requires Progress(m) && (step.Resume? || step.Look? || step.Perform? || step.Settle?)
    ensures Progress(Apply(m, cap, step))
  {
    if step.Perform? && m.phase.Executing? {
      ExecuteSound(Current(m.run), m.repo, cap, step.input);
    }
  }

  lemma {:induction false} ProgressStaged(m: Machine, cap: nat, step: Step)
    requires Progress(m)
    requires step.Retry? || step.Skip? || step.Edit? || step.Abort? || step.OutsideCommit?
    ensures Progress(Apply(m, cap, step))
  {}

  lemma {:induction false} ProgressForce(m: Machine, sha: Sha, justification: string)
    requires Progress(m) && m.phase.Idle? && HasCurrent(m.run)
    ensures Progress(ForceAdvanceStep(m, sha, justification))
  {
    var m', p := ForceAdvanceStep(m, sha, justification), m.run.position;
    forall i | 0 <= i < p + 1 ensures m'.run.ats[i].Resolved() {
      if i < p { assert m'.run.ats[i] == m.run.ats[i]; }
    }
  }

  lemma {:induction false} StandingBranch(m: Machine, slugs: seq<string>, target: string, maxBranches: int,
                                          goal: string, rewound: bool)
    requires Standing(m, slugs) && Named(slugs) && m.phase.Idle? && BranchAllowed(m.run, target, maxBranches)
    ensures Standing(BranchFixStep(m, target, goal, rewound), slugs)
  {
    var s, t := m.run, TargetIndex(m.run.ats, target);
    BranchShape(s, slugs, target, goal);
    forall i | 0 <= i < t ensures BranchedATs(s, target, t, goal)[i].Resolved() {
      BranchPrefix(s, slugs, target, maxBranches, goal, i);
    }
  }

  lemma {:induction false} ProgressStep(m: Machine, cap: nat, step: Step)
    requires Progress(m) && !step.BranchFix?
    ensures Progress(Apply(m, cap, step))
  {
    match step {
      case ForceAdvance(sha, justification, refused) =>
        if ForceAllowed(m, sha, justification, refused) { ProgressForce(m, sha, justification); }
      case Resume => ProgressLoop(m, cap, step);
      case Look(_) => ProgressLoop(m, cap, step);
      case Perform(_) => ProgressLoop(m, cap, step);
      case Settle => ProgressLoop(m, cap, step);
      case _ => ProgressStaged(m, cap, step);
    }
  }

  /** Every step, enabled or refused, keeps the standing. */
  lemma {:induction false} StandingStep(m: Machine, slugs: seq<string>, cap: nat, step: Step)
    requires Standing(m, slugs) && Named(slugs)
    ensures Standing(Apply(m, cap, step), slugs)
  {
    if step.BranchFix? {
      if Staging(m) && BranchAllowed(m.run, step.target, step.maxBranches) {
        StandingBranch(m, slugs, step.target, step.maxBranches, step.goal, step.rewound);
      }
    } else {
      KeysStep(m, cap, step);
      NumberedStep(m, cap, step);
      ProgressStep(m, cap, step);
    }
  }

  /** A fresh run stands. */
  lemma {:induction false} StandingStart(meta: RunMeta, tasks: seq<AtomicTask>, tier: string, repo: Repo)
    ensures Standing(Start(meta, tasks, tier, repo), TaskSlugs(tasks))
  {
    var slugs := TaskSlugs(tasks);
    LayoutStart(slugs);
    var counts: seq<nat> := seq(|slugs|, _ => 0);
    assert Keys(SeedRecords(tasks, tier)) == Layout(slugs, counts);
  }

  lemma {:induction false} StandingRun(m: Machine, slugs: seq<string>, cap: nat, steps: seq<Step>)
    requires Standing(m, slugs) && Named(slugs)
    ensures Standing(Run(m, cap, steps), slugs)
  {
    if steps != [] {
      var before := steps[..|steps| - 1];
      StandingRun(m, slugs, cap, before);
      StandingStep(Run(m, cap, before), slugs, cap, steps[|steps| - 1]);
    }
  }
}
