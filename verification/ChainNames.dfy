/** Slug uniqueness and event sourcing need task names that do not look like branches of
    each other, and nothing else (internal/coding/intervene.go, events.go). */
module ChainNames {
  import opened Text
  import opened CodingTypes
  import opened EventLog
  import opened ChainMachine
  import opened ChainShape
  import opened ChainStanding
  import opened ChainProofs
  import opened ChainTheorems
  import opened ChainEffort

  /** An original record with this slug is in the list. */
  predicate Holds(ats: seq<ATRecord>, slug: string) { TargetIndex(ats, slug) < |ats| }

  lemma {:induction false} HoldsAt(ats: seq<ATRecord>, slug: string, q: nat)
    requires q < |ats| && ats[q].slug == slug && ats[q].branchIndex == 0
    ensures Holds(ats, slug)
  {}

  /** `k` branches of `slug` were inserted, and the run stands at the last of them. */
  ghost predicate Stacked(m: Machine, slug: string, k: nat) {
    var s := m.run;
    && m.phase.Idle? && s.status == ChainPending
    && Holds(s.ats, slug) && |BranchSlugs(s.ats, slug)| == k
    && (k == 0 ==> s.position == TargetIndex(s.ats, slug))
    && (k > 0 ==> HasCurrent(s) && KeyOf(Current(s)) == Key(BranchSlug(slug, k), slug, k))
  }

  lemma {:induction false} HoldsInserted(ats: seq<ATRecord>, sup: seq<ATRecord>, t: nat, br: ATRecord, x: string)
    requires Keys(sup) == Keys(ats) && t <= |ats| && Holds(ats, x)
    ensures Holds(Renumber(InsertAt(sup, t, br)), x)
  {
    var q := TargetIndex(ats, x);
    KeysInsert(sup, t, br);
    HoldsMoved(ats, Renumber(InsertAt(sup, t, br)), t, KeyOf(br), x, if q < t then q else q + 1);
  }

  lemma {:induction false} HoldsMoved(ats: seq<ATRecord>, live: seq<ATRecord>, t: nat, k: Key, x: string, q: nat)
    requires t <= |ats| && Keys(live) == InsertAt(Keys(ats), t, k) && Holds(ats, x)
    requires q == if TargetIndex(ats, x) < t then TargetIndex(ats, x) else TargetIndex(ats, x) + 1
    ensures Holds(live, x)
  {
    assert Keys(live)[q] == Keys(ats)[TargetIndex(ats, x)];
    HoldsAt(live, x, q);
  }

  lemma {:induction false} CountInserted(ats: seq<ATRecord>, sup: seq<ATRecord>, t: nat, br: ATRecord)
    requires Keys(sup) == Keys(ats) && t <= |ats|
    ensures |BranchSlugs(Renumber(InsertAt(sup, t, br)), br.parentSlug)| == |BranchSlugs(ats, br.parentSlug)| + 1
    ensures KeyOf(Renumber(InsertAt(sup, t, br))[t]) == KeyOf(br)
  {
    var live, parent := Renumber(InsertAt(sup, t, br)), br.parentSlug;
    KeysInsert(sup, t, br);
    BranchCount(ats, parent);
    BranchCount(live, parent);
    ParentCountInsert(Keys(ats), t, KeyOf(br), parent);
    assert Keys(live)[t] == KeyOf(br);
  }

  lemma {:induction false} BranchedStack(s: RunState, slug: string, x: string)
    requires Holds(s.ats, slug) && Holds(s.ats, x)
    ensures var t := TargetIndex(s.ats, slug);
      var live := BranchedATs(s, slug, t, "");
      var n := |BranchSlugs(s.ats, slug)| + 1;
      && Holds(live, slug) && Holds(live, x) && |BranchSlugs(live, slug)| == n
      && KeyOf(live[t]) == Key(BranchSlug(slug, n), slug, n)
  {
    var t := TargetIndex(s.ats, slug);
    var sup, br := Supersede(s, slug, t), NewBranch(s, slug, t, "");
    SupersededKeys(s, slug, t);
    HoldsInserted(s.ats, sup, t, br, slug);
    HoldsInserted(s.ats, sup, t, br, x);
    CountInserted(s.ats, sup, t, br);
  }

  lemma {:induction false} BranchApplies(m: Machine, cap: nat, step: Step)
    requires step.BranchFix? && Staging(m) && BranchAllowed(m.run, step.target, step.maxBranches)
    ensures Apply(m, cap, step) == BranchFixStep(m, step.target, step.goal, step.rewound)
  {}

  lemma {:induction false} StackAllows(m: Machine, slug: string, k: nat, max: nat)
    requires Stacked(m, slug, k) && k + 1 <= max
    ensures Staging(m) && BranchAllowed(m.run, slug, max)
  {
    if k > 0 { assert Current(m.run).parentSlug == slug; }
  }

  lemma {:induction false} BranchStepParts(m: Machine, target: string, goal: string, rewound: bool)
    requires TargetIndex(m.run.ats, target) < |m.run.ats|
    ensures var s, t := m.run, TargetIndex(m.run.ats, target);
      var m' := BranchFixStep(m, target, goal, rewound);
      && m'.phase.Idle? && m'.run.status == ChainPending && m'.run.position == t
      && m'.run.ats == BranchedATs(s, target, t, goal)
      && m'.log == m.log + BranchEvents(s, target, t, goal) + [ChainStatusChanged(ChainPending, "", t)]
  {}

  /** One more branch on the stack. */
  lemma {:induction false} StackStep(m: Machine, m': Machine, slug: string, k: nat, x: string)
    requires Holds(m.run.ats, slug) && |BranchSlugs(m.run.ats, slug)| == k && Holds(m.run.ats, x)
    requires m'.phase.Idle? && m'.run.status == ChainPending && m'.run.position == TargetIndex(m.run.ats, slug)
    requires m'.run.ats == BranchedATs(m.run, slug, TargetIndex(m.run.ats, slug), "")
    ensures Stacked(m', slug, k + 1) && Holds(m'.run.ats, x)
  {
    BranchedStack(m.run, slug, x);
    StackedAfter(m', m.run, slug, k);
  }

  lemma {:induction false} StackedAfter(m: Machine, s: RunState, slug: string, k: nat)
    requires m.phase.Idle? && m.run.status == ChainPending && Holds(s.ats, slug)
    requires m.run.position == TargetIndex(s.ats, slug) < |m.run.ats| && Holds(m.run.ats, slug)
    requires |BranchSlugs(m.run.ats, slug)| == k + 1
    requires KeyOf(m.run.ats[m.run.position]) == Key(BranchSlug(slug, k + 1), slug, k + 1)
    ensures Stacked(m, slug, k + 1)
  {}

  lemma {:induction false} StackMany(m: Machine, cap: nat, slug: string, k: nat, max: nat, x: string)
    returns (steps: seq<Step>)
    requires Stacked(m, slug, k) && k <= max && Holds(m.run.ats, x) && slug != ""
    ensures Stacked(Run(m, cap, steps), slug, max) && Holds(Run(m, cap, steps).run.ats, x)
    decreases max - k
  {
    if k == max {
      steps := [];
    } else {
      var step := BranchFix(slug, "", max, true);
      StackAllows(m, slug, k, max);
      BranchApplies(m, cap, step);
      BranchStepParts(m, slug, "", true);
      StackStep(m, Apply(m, cap, step), slug, k, x);
      var rest := StackMany(Apply(m, cap, step), cap, slug, k + 1, max, x);
      RunThen(m, cap, step, rest);
      steps := [step] + rest;
    }
  }

  /** Skipping brings a fresh run to any of its tasks. */
  lemma {:induction false} SkipTo(c: Chain, j: nat) returns (steps: seq<Step>)
    requires ValidTasks(c.tasks) && j < |c.tasks|
    ensures var m := c.After(steps);
      && m.phase.Idle? && m.run.status == ChainPending && m.run.position == j
      && Keys(m.run.ats) == Keys(SeedRecords(c.tasks, c.tier))
  {
    if j == 0 {
      steps := [];
    } else {
      var before := SkipTo(c, j - 1);
      var m := c.After(before);
      assert |Keys(m.run.ats)| == |c.tasks|;
      steps := before + [Skip];
      assert steps[..|before|] == before;
      var m' := c.After(steps);
      assert m' == Apply(m, c.cap, Skip);
      assert Keys(m'.run.ats) == Keys(m.run.ats);
    }
  }

  lemma {:induction false} NotBlank(s: string)
    requires !Blank(s)
    ensures s != ""
  {}

  lemma {:induction false} SeedHolds(tasks: seq<AtomicTask>, tier: string, ats: seq<ATRecord>, j: nat)
    requires ValidTasks(tasks) && j < |tasks| && Keys(ats) == Keys(SeedRecords(tasks, tier))
    ensures |ats| == |tasks| && TargetIndex(ats, tasks[j].slug) == j
    ensures |BranchSlugs(ats, tasks[j].slug)| == 0
  {
    var seeds, slug := SeedRecords(tasks, tier), tasks[j].slug;
    assert |ats| == |Keys(ats)|;
    forall i | 0 <= i < |ats| ensures KeyOf(ats[i]) == Key(tasks[i].slug, "", 0) {
      assert Keys(ats)[i] == Keys(seeds)[i];
    }
    NotBlank(slug);
    NoParents(ats, slug);
    BranchCount(ats, slug);
  }

  /** A task named like a branch of another: a run that stands at a branch whose slug
      another record, the one at `q`, has too. */
  lemma {:induction false} ClashReached(c: Chain, i: nat, j: nat, n: nat) returns (steps: seq<Step>, q: nat)
    requires c.Valid() && i < |c.tasks| && j < |c.tasks| && n >= 1
    requires c.tasks[i].slug == BranchSlug(c.tasks[j].slug, n)
    ensures var m := c.After(steps);
      && Staging(m) && HasCurrent(m.run) && q < |m.run.ats| && q != m.run.position
      && m.run.ats[q].slug == Current(m.run).slug
  {
    var slug, x := c.tasks[j].slug, c.tasks[i].slug;
    var skips := SkipTo(c, j);
    var m := c.After(skips);
    SeedHolds(c.tasks, c.tier, m.run.ats, j);
    SeedHolds(c.tasks, c.tier, m.run.ats, i);
    NotBlank(slug);
    var stack := StackMany(m, c.cap, slug, 0, n, x);
    RunConcat(Start(c.meta, c.tasks, c.tier, c.repo), c.cap, skips, stack);
    steps := skips + stack;
    var s := c.After(steps).run;
    q := TargetIndex(s.ats, x);
    assert s.ats[q].branchIndex == 0 && Current(s).branchIndex == n;
  }

  lemma {:induction false} CollisionReached(c: Chain, i: nat, j: nat, n: nat) returns (steps: seq<Step>)
    requires c.Valid() && i < |c.tasks| && j < |c.tasks| && n >= 1
    requires c.tasks[i].slug == BranchSlug(c.tasks[j].slug, n)
    ensures !Distinct(Slugs(c.After(steps).run.ats))
  {
    var q;
    steps, q := ClashReached(c, i, j, n);
    var s := c.After(steps).run;
    assert Slugs(s.ats)[q] == Slugs(s.ats)[s.position];
  }

  lemma {:induction false} Ambiguity(c: Chain) returns (i: nat, j: nat, n: nat)
    requires !c.Unambiguous()
    ensures i < |c.tasks| && j < |c.tasks| && n >= 1 && c.tasks[i].slug == BranchSlug(c.tasks[j].slug, n)
  {
    var slugs := TaskSlugs(c.tasks);
    i, j, n :| 0 <= i < |slugs| && 0 <= j < |slugs| && n >= 1 && slugs[i] == BranchSlug(slugs[j], n);
  }

  /** In every run all slugs stay distinct, exactly when no task is named like a branch
      of another. */
  lemma {:induction false} SlugsDistinctExactly(c: Chain)
    requires c.Valid()
    ensures c.Unambiguous() <==> forall steps :: Distinct(Slugs(c.After(steps).run.ats))
  {
    if c.Unambiguous() {
      forall steps ensures Distinct(Slugs(c.After(steps).run.ats)) { SlugsDistinct(c, steps); }
    } else {
      var i, j, n := Ambiguity(c);
      var steps := CollisionReached(c, i, j, n);
      assert !Distinct(Slugs(c.After(steps).run.ats));
    }
  }

  // -------------------------------------------- event sourcing, exactly when

  /** A skip replaces the current record and reports it. */
  lemma {:induction false} SkipOne(m: Machine, m': Machine, cap: nat, step: Step)
    requires Staging(m) && HasCurrent(m.run) && step == Skip && m' == Apply(m, cap, step)
    ensures var p, r := m.run.position, Current(m.run).(status := ATSkipped);
      && m'.phase.Idle? && m'.run.status == ChainPending && m'.run.position == p + 1
      && m'.run.ats == m.run.ats[p := r]
      && m'.log == m.log + [ATStatusChanged(r)] + [ChainStatusChanged(ChainPending, "", p + 1)]
  {}

  lemma {:induction false} SkipsTo(m: Machine, cap: nat, p: nat) returns (steps: seq<Step>)
    requires Staging(m) && 0 <= m.run.position <= p < |m.run.ats|
    ensures var m' := Run(m, cap, steps);
      Staging(m') && m'.run.position == p && Keys(m'.run.ats) == Keys(m.run.ats)
    decreases p - m.run.position
  {
    if m.run.position == p {
      steps := [];
    } else {
      var m1 := Apply(m, cap, Skip);
      SkipOne(m, m1, cap, Skip);
      assert Keys(m1.run.ats) == Keys(m.run.ats);
      var rest := SkipsTo(m1, cap, p);
      RunThen(m, cap, Skip, rest);
      steps := [Skip] + rest;
    }
  }

  /** Skipping the later of two records with one slug: its report lands on the first. */
  lemma {:induction false} ClashBreaks(m: Machine, m': Machine, cap: nat, step: Step, a: nat)
    requires Staging(m) && a < m.run.position < |m.run.ats| && Distinct(Keys(m.run.ats))
    requires m.run.ats[a].slug == Current(m.run).slug && FoldLog(m.log) == m.run
    requires step == Skip && m' == Apply(m, cap, step)
    ensures m'.phase.Idle? && FoldLog(m'.log) != m'.run
  {
    var p, r := m.run.position, Current(m.run).(status := ATSkipped);
    SkipOne(m, m', cap, step);
    FoldEmit(m.log, ATStatusChanged(r));
    FoldEmit(m.log + [ATStatusChanged(r)], ChainStatusChanged(ChainPending, "", p + 1));
    var i := FindAT(m.run.ats, r.slug);
    assert i <= a && FoldLog(m'.log).ats == m.run.ats[i := r];
    assert Keys(m.run.ats)[i] != Keys(m.run.ats)[p];
    assert FoldLog(m'.log).ats[i] == r && m'.run.ats[i] == m.run.ats[i];
  }

  /** Then the log does not fold to the live state, here or before. */
  lemma {:induction false} ClashLoses(c: Chain, before: seq<Step>, q: nat) returns (steps: seq<Step>)
    requires c.Valid()
    requires var m := c.After(before);
      && Staging(m) && HasCurrent(m.run) && q < |m.run.ats| && q != m.run.position
      && m.run.ats[q].slug == Current(m.run).slug
    ensures var m := c.After(steps); m.phase.Idle? && FoldLog(m.log) != m.run
  {
    var m := c.After(before);
    var p := m.run.position;
    var first, later := if p < q then p else q, if p < q then q else p;
    var skips := SkipsTo(m, c.cap, later);
    RunConcat(Start(c.meta, c.tasks, c.tier, c.repo), c.cap, before, skips);
    var there := c.After(before + skips);
    if FoldLog(there.log) != there.run {
      steps := before + skips;
    } else {
      Structure(c, before + skips);
      SameSlug(m.run.ats, there.run.ats, first, later);
      steps := before + skips + [Skip];
      assert steps[..|before + skips|] == before + skips;
      ClashBreaks(there, c.After(steps), c.cap, Skip, first);
    }
  }

  lemma {:induction false} SameSlug(ats: seq<ATRecord>, ats': seq<ATRecord>, a: nat, b: nat)
    requires Keys(ats) == Keys(ats') && a < |ats| && b < |ats| && ats[a].slug == ats[b].slug
    ensures |ats'| == |ats| && ats'[a].slug == ats'[b].slug
  {
    assert |Keys(ats)| == |Keys(ats')|;
    assert Keys(ats')[a] == Keys(ats)[a] && Keys(ats')[b] == Keys(ats)[b];
  }

  /** The log folds to the live state in every run, exactly when no task is named like a
      branch of another. */
  lemma {:induction false} EventSourcingExactly(c: Chain)
    requires c.Valid()
    ensures c.Unambiguous() <==>
      forall steps :: c.After(steps).phase.Idle? ==> FoldLog(c.After(steps).log) == c.After(steps).run
  {
    if c.Unambiguous() {
      forall steps | c.After(steps).phase.Idle? ensures FoldLog(c.After(steps).log) == c.After(steps).run {
        EventSourcing(c, steps);
      }
    } else {
      var i, j, n := Ambiguity(c);
      var before, q := ClashReached(c, i, j, n);
      var steps := ClashLoses(c, before, q);
      assert c.After(steps).phase.Idle? && FoldLog(c.After(steps).log) != c.After(steps).run;
    }
  }
}
