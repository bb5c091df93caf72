/** Where the general claims about a coding chain fail: concrete reachable runs. */
module ChainWitnesses {
  import opened Text
  import opened CodingTypes
  import opened EventLog
  import opened LogCompaction
  import opened ChainMachine
  import opened ChainShape
  import opened ChainStanding
  import opened ChainTheorems
  import opened ChainNames
  import opened ChainForce

  // ------------------------------------------- compaction after a left insert

  /** Skip the first of two tasks, branch the second, then branch the first. */
  function LeftwardRun(c: Chain): seq<Step>
    requires |c.tasks| == 2
  {
    [Skip, BranchFix(c.tasks[1].slug, "", 0, true), BranchFix(c.tasks[0].slug, "", 0, true)]
  }

  lemma {:induction false} OneStatus(ats: seq<ATRecord>, i: nat)
    requires i < |ats| && Distinct(Slugs(ats))
    ensures StatusEvents(ats, [ats[i].slug]) == [ATStatusChanged(ats[i])]
  {
    FindATUnique(ats, i);
    assert [ats[i].slug][1..] == [];
    assert StatusEvents(ats, []) == [];
  }

  lemma {:induction false} TwoStatuses(ats: seq<ATRecord>, i: nat, j: nat)
    requires i < |ats| && j < |ats| && Distinct(Slugs(ats))
    ensures StatusEvents(ats, [ats[i].slug, ats[j].slug]) == [ATStatusChanged(ats[i]), ATStatusChanged(ats[j])]
  {
    FindATUnique(ats, i);
    assert [ats[i].slug, ats[j].slug][1..] == [ats[j].slug];
    OneStatus(ats, j);
  }

  lemma {:induction false} AfterSkip(c: Chain)
    requires ValidTasks(c.tasks) && |c.tasks| == 2
    ensures var m := c.After([Skip]);
      && m.phase.Idle? && m.run.status == ChainPending && m.run.position == 1 && |m.run.ats| == 2
      && Keys(m.run.ats) == [Key(c.tasks[0].slug, "", 0), Key(c.tasks[1].slug, "", 0)]
      && m.run.ats[0].commit == 0
      && m.log == [ChainStarted(c.meta, SeedRecords(c.tasks, c.tier)), ATStatusChanged(m.run.ats[0]),
                   ChainStatusChanged(ChainPending, "", 1)]
  {
    RunOne(Start(c.meta, c.tasks, c.tier, c.repo), c.cap, Skip);
  }

  lemma {:induction false} BranchKeys(s: RunState, target: string, t: nat, goal: string)
    requires t < |s.ats|
    ensures Keys(BranchedATs(s, target, t, goal)) == InsertAt(Keys(s.ats), t, KeyOf(NewBranch(s, target, t, goal)))
  {
    SupersededKeys(s, target, t);
    KeysInsert(Supersede(s, target, t), t, NewBranch(s, target, t, goal));
  }

  lemma {:induction false} BranchInserted(s: RunState, target: string, t: nat, goal: string)
    requires t < |s.ats| && Distinct(Slugs(BranchedATs(s, target, t, goal)))
    ensures var live := BranchedATs(s, target, t, goal);
      InsertEvents(live, NewBranch(s, target, t, goal).slug) == [ATInserted(live[t])]
  {
    var live := BranchedATs(s, target, t, goal);
    FindATUnique(live, t);
    assert live[t].slug == NewBranch(s, target, t, goal).slug;
  }

  /** The slugs a first branch reports. */
  function FirstReport(s: RunState, target: string, t: nat): seq<string> {
    [target] + if t != s.position && HasCurrent(s) then [Current(s).slug] else []
  }

  lemma {:induction false} FirstEvents(s: RunState, target: string, t: nat, goal: string, live: seq<ATRecord>)
    requires t < |s.ats| && BranchSlugs(s.ats, target) == []
    requires live == BranchedATs(s, target, t, goal) && Distinct(Slugs(live))
    ensures BranchEvents(s, target, t, goal) == [ATInserted(live[t])] + StatusEvents(live, FirstReport(s, target, t))
  {
    BranchInserted(s, target, t, goal);
    assert [target] + [] == [target];
  }

  lemma {:induction false} FirstKeys(s: RunState, t: nat, target: string, goal: string)
    requires t < |s.ats| && s.ats[t].slug == target && BranchSlugs(s.ats, target) == []
    ensures Keys(BranchedATs(s, target, t, goal)) == InsertAt(Keys(s.ats), t, NextBranch(target, 0))
  {
    BranchKeys(s, target, t, goal);
  }

  /** The shape of a branch step on a list where `target` has no branch. */
  lemma {:induction false} FirstBranchParts(m: Machine, m': Machine, target: string, goal: string, rewound: bool,
                                            t: nat)
    requires t == TargetIndex(m.run.ats, target) < |m.run.ats| && BranchSlugs(m.run.ats, target) == []
    requires m' == BranchFixStep(m, target, goal, rewound) && Distinct(Slugs(m'.run.ats))
    ensures m'.phase.Idle? && m'.run.status == ChainPending && m'.run.position == t
    ensures Keys(m'.run.ats) == InsertAt(Keys(m.run.ats), t, NextBranch(target, 0))
    ensures m'.log == m.log + ([ATInserted(m'.run.ats[t])] + StatusEvents(m'.run.ats, FirstReport(m.run, target, t)))
                      + [ChainStatusChanged(ChainPending, "", t)]
  {
    BranchStepParts(m, target, goal, rewound);
    FirstKeys(m.run, t, target, goal);
    FirstEvents(m.run, target, t, goal, m'.run.ats);
  }

  lemma {:induction false} FirstBranch(m: Machine, m': Machine, cap: nat, step: Step, t: nat)
    requires Staging(m) && step.BranchFix? && step.maxBranches <= 0 && t < |m.run.ats|
    requires t == m.run.position || t == m.run.position - 1
    requires TargetIndex(m.run.ats, step.target) == t && BranchSlugs(m.run.ats, step.target) == []
    requires m' == Apply(m, cap, step)
    ensures m' == BranchFixStep(m, step.target, step.goal, step.rewound)
  {
    BranchApplies(m, cap, step);
  }

  lemma {:induction false} NoBranches(ats: seq<ATRecord>, x: string)
    requires forall i :: 0 <= i < |ats| ==> ats[i].parentSlug != x
    ensures BranchSlugs(ats, x) == []
  {
    if ats != [] { NoBranches(ats[1..], x); }
  }

  /** What the log and the list look like once the second task is branched. */
  ghost predicate SecondBranched(m: Machine, a: string, b: string) {
    var s, log := m.run, m.log;
    && Staging(m) && s.position == 1 && |s.ats| == 3 && s.ats[1].position == 1
    && Keys(s.ats) == [Key(a, "", 0), Key(BranchSlug(b, 1), b, 1), Key(b, "", 0)]
    && |log| == 6 && !log[1].ATInserted? && !log[2].ATInserted? && log[3] == ATInserted(s.ats[1])
  }

  lemma {:induction false} SecondStep(m: Machine, m': Machine, cap: nat, a: string, b: string, step: Step)
    requires Staging(m) && m.run.position == 1 && a != b && b != ""
    requires Keys(m.run.ats) == [Key(a, "", 0), Key(b, "", 0)]
    requires |m.log| == 3 && !m.log[1].ATInserted? && !m.log[2].ATInserted?
    requires step == BranchFix(b, "", 0, true) && m' == Apply(m, cap, step)
    requires Distinct(Slugs(m'.run.ats)) && Numbered(m'.run.ats)
    ensures SecondBranched(m', a, b) && m'.log[0] == m.log[0]
  {
    SecondTarget(m.run.ats, a, b);
    FirstBranch(m, m', cap, step, 1);
    FirstBranchParts(m, m', b, "", true, 1);
    SecondAfter(m, m', a, b);
  }

  lemma {:induction false} SecondAfter(m: Machine, m': Machine, a: string, b: string)
    requires |m.log| == 3 && !m.log[1].ATInserted? && !m.log[2].ATInserted? && m.run.position == 1
    requires Keys(m.run.ats) == [Key(a, "", 0), Key(b, "", 0)]
    requires m'.phase.Idle? && m'.run.status == ChainPending && m'.run.position == 1
    requires Keys(m'.run.ats) == InsertAt(Keys(m.run.ats), 1, NextBranch(b, 0))
    requires Distinct(Slugs(m'.run.ats)) && Numbered(m'.run.ats)
    requires m'.log == m.log + ([ATInserted(m'.run.ats[1])] + StatusEvents(m'.run.ats, FirstReport(m.run, b, 1)))
                       + [ChainStatusChanged(ChainPending, "", 1)]
    ensures SecondBranched(m', a, b) && m'.log[0] == m.log[0]
  {
    SecondReport(m'.run.ats, Keys(m.run.ats), NextBranch(b, 0));
    assert FirstReport(m.run, b, 1) == [b] + [];
  }

  lemma {:induction false} SecondTarget(ats: seq<ATRecord>, a: string, b: string)
    requires a != b && b != "" && Keys(ats) == [Key(a, "", 0), Key(b, "", 0)]
    ensures |ats| == 2 && TargetIndex(ats, b) == 1 && BranchSlugs(ats, b) == []
  {
    assert |ats| == |Keys(ats)|;
    assert KeyOf(ats[0]) == Keys(ats)[0] && KeyOf(ats[1]) == Keys(ats)[1];
    NoBranches(ats, b);
  }

  lemma {:induction false} SecondReport(live: seq<ATRecord>, keys: seq<Key>, k: Key)
    requires |keys| == 2 && Keys(live) == InsertAt(keys, 1, k) && Distinct(Slugs(live))
    ensures |live| == 3 && StatusEvents(live, [keys[1].slug] + []) == [ATStatusChanged(live[2])]
  {
    assert Keys(live)[2] == KeyOf(live[2]);
    OneStatus(live, 2);
    assert [keys[1].slug] + [] == [live[2].slug];
  }

  /** Then the first task: the earlier branch moves, and is recorded again. */
  ghost predicate FirstBranched(log: seq<Event>, log': seq<Event>, slug: string) {
    && |log'| == |log| + 4 && log <= log'
    && log'[|log| + 2].ATStatusChanged? && log'[|log| + 2].at.slug == slug && log'[|log| + 2].at.position == 2
    && log'[|log| + 3].ChainStatusChanged?
  }

  lemma {:induction false} ThirdStep(m: Machine, m': Machine, cap: nat, a: string, b: string, step: Step)
    requires SecondBranched(m, a, b) && a != b && a != ""
    requires step == BranchFix(a, "", 0, true) && m' == Apply(m, cap, step)
    requires Distinct(Slugs(m'.run.ats)) && Numbered(m'.run.ats)
    ensures FirstBranched(m.log, m'.log, BranchSlug(b, 1))
  {
    ThirdTarget(m.run.ats, a, b);
    FirstBranch(m, m', cap, step, 0);
    FirstBranchParts(m, m', step.target, step.goal, step.rewound, 0);
    ThirdLog(m, m'.run.ats, m'.log, a, b);
  }

  lemma {:induction false} ThirdTarget(ats: seq<ATRecord>, a: string, b: string)
    requires a != b && a != ""
    requires Keys(ats) == [Key(a, "", 0), Key(BranchSlug(b, 1), b, 1), Key(b, "", 0)]
    ensures |ats| == 3 && TargetIndex(ats, a) == 0 && BranchSlugs(ats, a) == [] && ats[1].slug == BranchSlug(b, 1)
  {
    assert |ats| == |Keys(ats)|;
    assert forall i :: 0 <= i < 3 ==> KeyOf(ats[i]) == Keys(ats)[i];
    NoBranches(ats, a);
  }

  lemma {:induction false} ThirdLog(m: Machine, live: seq<ATRecord>, log': seq<Event>, a: string, b: string)
    requires SecondBranched(m, a, b) && Distinct(Slugs(live)) && Numbered(live)
    requires Keys(live) == InsertAt(Keys(m.run.ats), 0, NextBranch(a, 0))
    requires log' == m.log + ([ATInserted(live[0])] + StatusEvents(live, FirstReport(m.run, a, 0)))
                     + [ChainStatusChanged(ChainPending, "", 0)]
    ensures FirstBranched(m.log, log', BranchSlug(b, 1))
  {
    assert KeyOf(Current(m.run)) == Keys(m.run.ats)[1];
    MovedRecord(live, Keys(m.run.ats), NextBranch(a, 0));
  }

  lemma {:induction false} MovedRecord(live: seq<ATRecord>, keys: seq<Key>, k: Key)
    requires |keys| == 3 && Keys(live) == InsertAt(keys, 0, k) && Distinct(Slugs(live))
    ensures |live| == 4 && live[2].slug == keys[1].slug
    ensures StatusEvents(live, [keys[0].slug] + [keys[1].slug]) == [ATStatusChanged(live[1]), ATStatusChanged(live[2])]
  {
    assert KeyOf(live[1]) == Keys(live)[1] && KeyOf(live[2]) == Keys(live)[2];
    TwoStatuses(live, 1, 2);
    assert [keys[0].slug] + [keys[1].slug] == [live[1].slug, live[2].slug];
  }

  lemma {:induction false} LeftwardLog(c: Chain) returns (m: Machine)
    requires c.Valid() && c.Unambiguous() && |c.tasks| == 2
    ensures var a, b := c.tasks[0].slug, c.tasks[1].slug;
      && SecondBranched(m, a, b) && m.log[0] == ChainStarted(c.meta, SeedRecords(c.tasks, c.tier))
      && FirstBranched(m.log, c.After(LeftwardRun(c)).log, BranchSlug(b, 1))
  {
    var a, b, steps := c.tasks[0].slug, c.tasks[1].slug, LeftwardRun(c);
    ValidNames(c.tasks);
    assert TaskSlugs(c.tasks)[0] != TaskSlugs(c.tasks)[1];
    AfterSkip(c);
    Structure(c, steps[..2]);
    Structure(c, steps);
    SlugsDistinct(c, steps[..2]);
    SlugsDistinct(c, steps);
    assert steps[..2][..1] == [Skip] && steps[..3] == steps;
    m := c.After(steps[..2]);
    SecondStep(c.After([Skip]), m, c.cap, a, b, steps[1]);
    ThirdStep(m, c.After(steps), c.cap, a, b, steps[2]);
  }

  lemma {:induction false} FirstInsert(events: seq<Event>, k: nat)
    requires k < |events| && events[k].ATInserted? && forall i :: 0 <= i < k ==> !events[i].ATInserted?
    ensures Inserts(events) != [] && Inserts(events)[0] == Insertion(events[k].at.slug, events[k].at.position)
  {
    var n := |events| - 1;
    if k < n { FirstInsert(events[..n], k); } else { NoInserts(events[..n]); }
  }

  lemma {:induction false} NoInserts(events: seq<Event>)
    requires forall i :: 0 <= i < |events| ==> !events[i].ATInserted?
    ensures Inserts(events) == []
  {
    if events != [] { NoInserts(events[..|events| - 1]); }
  }

  lemma {:induction false} MovedUnstable(m: Machine, log: seq<Event>, a: string, b: string)
    requires SecondBranched(m, a, b) && FirstBranched(m.log, log, BranchSlug(b, 1))
    requires WellFormed(log) && |log[0].seeds| == 2
    ensures !StableInserts(log)
  {
    var events, seeds, slug := log[1..], log[0].seeds, BranchSlug(b, 1);
    assert Keys(m.run.ats)[1].slug == slug;
    FirstInsert(events, 2);
    assert events[..8][7] == events[7];
    assert LastRecord(seeds, events, slug) == LastRecord(seeds, events[..8], slug) == Some(events[7].at);
    assert !Lands(seeds, events, 0, Inserts(events)[0]);
  }

  /** Whatever the two tasks are, that run's log does not survive compaction. */
  lemma {:induction false} LeftwardBreaksCompaction(c: Chain)
    requires c.Valid() && c.Unambiguous() && |c.tasks| == 2
    ensures var log := c.After(LeftwardRun(c)).log; FoldLog(CompactLog(log)) != FoldLog(log)
  {
    var m := LeftwardLog(c);
    RunCompaction(c, LeftwardRun(c));
    MovedUnstable(m, c.After(LeftwardRun(c)).log, c.tasks[0].slug, c.tasks[1].slug);
  }

  // ------------------------------------------------- a forced branch reopens

  /** The first of the tasks branched at once: the branch stands before its skipped target. */
  ghost predicate FirstFixed(m: Machine, a: string) {
    var s := m.run;
    && Staging(m) && s.position == 0 && |s.ats| >= 2
    && KeyOf(s.ats[0]) == NextBranch(a, 0) && KeyOf(s.ats[1]) == Key(a, "", 0) && s.ats[1].status == ATSkipped
  }

  lemma {:induction false} FixedRecords(s: RunState, a: string, live: seq<ATRecord>)
    requires s.ats != [] && KeyOf(s.ats[0]) == Key(a, "", 0) && BranchSlugs(s.ats, a) == []
    requires live == BranchedATs(s, a, 0, "")
    ensures |live| >= 2 && KeyOf(live[0]) == NextBranch(a, 0)
    ensures KeyOf(live[1]) == Key(a, "", 0) && live[1].status == ATSkipped
  {
    var sup, br := Supersede(s, a, 0), NewBranch(s, a, 0, "");
    InsertedAt(sup, 0, br, 0);
    InsertedAt(sup, 0, br, 1);
  }

  lemma {:induction false} FixesFirst(m: Machine, m': Machine, cap: nat, a: string, step: Step)
    requires Staging(m) && m.run.position == 0 && m.run.ats != [] && a != ""
    requires KeyOf(m.run.ats[0]) == Key(a, "", 0) && forall i :: 0 <= i < |m.run.ats| ==> m.run.ats[i].parentSlug == ""
    requires step == BranchFix(a, "", 0, true) && m' == Apply(m, cap, step)
    ensures FirstFixed(m', a) && m'.repo == m.repo
  {
    NoBranches(m.run.ats, a);
    FirstBranch(m, m', cap, step, 0);
    BranchStepParts(m, a, "", true);
    FixedRecords(m.run, a, m'.run.ats);
  }

  /** On every chain: branch the first task at once, then force the branch. The target it
      was to replace is open again, and the run loop stands at it. */
  lemma {:induction false} ForceReopens(c: Chain, sha: Sha, why: string)
    requires c.Valid() && sha != 0 && c.repo.Holds(sha) && !Blank(why)
    ensures var fix, force := BranchFix(c.tasks[0].slug, "", 0, true), ForceAdvance(sha, why, false);
      var m, m' := c.After([fix]), c.After([fix] + [force]);
      && ForceAllowed(m, sha, why, false) && Reopens(m, m', 1)
      && m'.run.position == 1 && KeyOf(m'.run.ats[1]) == Key(c.tasks[0].slug, "", 0)
  {
    var a := c.tasks[0].slug;
    var fix, force := BranchFix(a, "", 0, true), ForceAdvance(sha, why, false);
    var start := Start(c.meta, c.tasks, c.tier, c.repo);
    RunOne(start, c.cap, fix);
    AfterMore(c, [fix], force);
    NotBlank(a);
    FixesFirst(start, c.After([fix]), c.cap, a, fix);
    ForceEffect(c.After([fix]), c.After([fix] + [force]), c.cap, force);
    ForceReopensExactly(c.After([fix]), c.After([fix] + [force]), c.cap, force, 1);
  }

  // --------------------------------------------------------- abort, then run on

  lemma {:induction false} AbortResume(m: Machine, aborted: Machine, plain: Machine, resumed: Machine, cap: nat,
                                       abort: Step, resume: Step)
    requires m.phase.Idle? && abort == Abort && resume == Resume
    requires aborted == Apply(m, cap, abort)
    requires plain == Apply(m, cap, resume) && resumed == Apply(aborted, cap, resume)
    ensures aborted.run.status == ChainAborted && resumed == plain.(log := resumed.log)
  {}

  /** Abort is no end: a resumed run goes on exactly as if it had not been aborted. */
  lemma {:induction false} AbortThenResume(c: Chain, steps: seq<Step>)
    ensures c.After(steps).phase.Idle? ==> c.After(steps + [Abort]).run.status == ChainAborted
    ensures var plain, resumed := c.After(steps + [Resume]), c.After(steps + [Abort] + [Resume]);
      c.After(steps).phase.Idle? ==> resumed == plain.(log := resumed.log)
  {
    AfterMore(c, steps, Abort);
    AfterMore(c, steps, Resume);
    AfterMore(c, steps + [Abort], Resume);
    if c.After(steps).phase.Idle? {
      AbortResume(c.After(steps), c.After(steps + [Abort]), c.After(steps + [Resume]),
                  c.After(steps + [Abort] + [Resume]), c.cap, Abort, Resume);
    }
  }

  // -------------------------------------------------------- stale fork points

  lemma {:induction false} SupersededFork(s: RunState, target: string, t: nat)
    requires t < s.position < |s.ats|
    ensures var r := Supersede(s, target, t)[s.position];
      && r.slug == s.ats[s.position].slug
      && r.parentSha == (if s.ats[t].commit != 0 then 0 else s.ats[s.position].parentSha)
  {}

  /** Branching a prior target: the current AT forks afresh exactly when the target held a
      commit, otherwise it keeps its old fork point; the branch takes the target's. */
  lemma {:induction false} ForkPointsAfterBranch(s: RunState, target: string, t: nat, goal: string, live: seq<ATRecord>)
    requires t == TargetIndex(s.ats, target) < s.position < |s.ats| && live == BranchedATs(s, target, t, goal)
    ensures live[s.position + 1].slug == s.ats[s.position].slug
    ensures live[s.position + 1].parentSha == if s.ats[t].commit != 0 then 0 else s.ats[s.position].parentSha
    ensures live[t].parentSha == s.ats[t].parentSha
  {
    SupersededFork(s, target, t);
    InsertedAt(Supersede(s, target, t), t, NewBranch(s, target, t, goal), s.position + 1);
    InsertedAt(Supersede(s, target, t), t, NewBranch(s, target, t, goal), t);
  }
}
