/** A reachable run in which a credited commit leaves the integration branch, because a
    fork point went stale (internal/coding/intervene.go, orchestrator.go). */
module StaleFork {
  import opened Text
  import opened CodingTypes
  import opened WorkerGate
  import opened ChainMachine
  import opened ChainStanding
  import opened ChainTheorems
  import opened ChainNames
  import opened ChainWitnesses
  import opened Lineage
  import opened HeadLine
  import opened CleanRun

  /** The worktree cannot be opened; the fork point is captured before. */
  const OPEN_FAILS := WORKS.(openError := Some("no worktree"))

  /** A record with a gate to pass that has not been attempted. */
  predicate Unattempted(r: ATRecord) { !r.Resolved() && r.spec.gate != [] && r.respawns == 0 }

  // ------------------------------------------------------------ two AT runs

  lemma {:induction false} WorksLands(r: ATRecord, repo: Repo, cap: nat)
    requires Unattempted(r)
    ensures var e := Execute(r, repo, cap, WORKS);
      && e.record.status == ATSuccess && e.record.commit == |repo.parents| + 1 && KeyOf(e.record) == KeyOf(r)
      && e.repo == Repo(repo.parents + [Tip(repo, r.parentSha)], |repo.parents| + 1)
  {
    var forked := CaptureFork(r, repo, WORKS).(worktree := "");
    CleanPasses(r.spec, r.highestTier, r.lastDiagnostic);
    assert Execute(r, repo, cap, WORKS) == WorkAndLand(forked, repo, cap, WORKS);
    var (end, entered) := Work(forked, cap, WORKS);
    assert end.status == WorkerSuccess;
  }

  lemma {:induction false} OpenFails(r: ATRecord, repo: Repo, cap: nat)
    ensures var e := Execute(r, repo, cap, OPEN_FAILS);
      && e.record == r.(parentSha := if r.parentSha == 0 then repo.head else r.parentSha, status := ATFailed,
                        worker := WorkerCommandError, diagnostic := e.record.diagnostic)
      && e.repo == repo
  {}

  // --------------------------------------------------- what a few steps do

  /** Look at the open current AT, run it with `input`, and settle. */
  lemma {:induction false} RunsCurrent(m: Machine, m1: Machine, m2: Machine, cap: nat, look: Step, perform: Step)
    requires m.phase.Driving? && HasCurrent(m.run) && !Current(m.run).Resolved()
    requires look == Look(false) && perform.Perform?
    requires m1 == Apply(m, cap, look) && m2 == Apply(m1, cap, perform)
    ensures var r := Current(m.run).(status := ATRunning);
      var e := Execute(r, m.repo, cap, perform.input);
      && m2.phase.Settled? && m2.repo == e.repo && m2.run.position == m.run.position
      && m2.run.ats == m.run.ats[m.run.position := e.record]
  {
    assert m1.run.ats == m.run.ats[m.run.position := Current(m.run).(status := ATRunning)];
  }

  lemma {:induction false} LooksPast(m: Machine, m': Machine, cap: nat, look: Step)
    requires m.phase.Driving? && HasCurrent(m.run) && Current(m.run).Resolved()
    requires look == Look(false) && m' == Apply(m, cap, look)
    ensures m' == m.(run := m.run.(position := m.run.position + 1))
  {}

  lemma {:induction false} Settles(m: Machine, m': Machine, cap: nat, settle: Step)
    requires m.phase.Settled? && HasCurrent(m.run) && settle == Settle && m' == Apply(m, cap, settle)
    ensures m'.run.ats == m.run.ats && m'.repo == m.repo
    ensures if Current(m.run).status == ATSuccess
      then m'.phase.Driving? && m'.run.position == m.run.position + 1
      else m'.phase.Idle? && m'.run.status == ChainFailed && m'.run.position == m.run.position
  {}

  lemma {:induction false} Resumes(m: Machine, m': Machine, cap: nat, resume: Step)
    requires m.phase.Idle? && resume == Resume && m' == Apply(m, cap, resume)
    ensures m'.phase.Driving? && m'.run.ats == m.run.ats && m'.repo == m.repo && m'.run.position == m.run.position
  {}

  lemma {:induction false} Ends(m: Machine, m': Machine, cap: nat, look: Step)
    requires m.phase.Driving? && m.run.position >= |m.run.ats| && look == Look(false) && m' == Apply(m, cap, look)
    ensures m'.run.status == ChainSuccess && m'.run.ats == m.run.ats && m'.repo == m.repo
  {}

  // ----------------------------------------------------------- the three acts

  /** First the second task fails, with its fork point captured. */
  ghost predicate SecondFailed(m: Machine, repo: Repo, a: string) {
    var s := m.run;
    && Staging(m) && s.position == 1 && |s.ats| == 2 && m.repo == repo
    && KeyOf(s.ats[0]) == Key(a, "", 0) && s.ats[0].status == ATSkipped
    && s.ats[0].commit == 0 && s.ats[0].parentSha == 0 && s.ats[0].spec.gate != []
    && KeyOf(s.ats[1]).parent == "" && s.ats[1].parentSha == repo.head && Unattempted(s.ats[1])
  }

  lemma {:induction false} ActOne(c: Chain) returns (steps: seq<Step>)
    requires c.Valid() && |c.tasks| == 2 && c.tasks[0].gate != [] && c.tasks[1].gate != []
    ensures SecondFailed(c.After(steps), c.repo, c.tasks[0].slug)
  {
    var skip, s1, s2 := [Skip], [Skip] + [Resume], [Skip] + [Resume] + [Look(false)];
    var s3 := s2 + [Perform(OPEN_FAILS)];
    steps := s3 + [Settle];
    RunOne(Start(c.meta, c.tasks, c.tier, c.repo), c.cap, Skip);
    AfterMore(c, skip, Resume);
    AfterMore(c, s1, Look(false));
    AfterMore(c, s2, Perform(OPEN_FAILS));
    AfterMore(c, s3, Settle);
    var m0 := c.After(skip);
    Resumes(m0, c.After(s1), c.cap, Resume);
    RunsCurrent(c.After(s1), c.After(s2), c.After(s3), c.cap, Look(false), Perform(OPEN_FAILS));
    OpenFails(Current(m0.run).(status := ATRunning), m0.repo, c.cap);
    Settles(c.After(s3), c.After(steps), c.cap, Settle);
  }

  /** Then the first task, which holds no commit, is branched: the second one keeps its
      fork point. */
  ghost predicate FirstBranched(m: Machine, repo: Repo, a: string) {
    var s := m.run;
    && Staging(m) && s.position == 0 && |s.ats| == 3 && m.repo == repo
    && s.ats[0].parentSha == 0 && Unattempted(s.ats[0]) && s.ats[0].slug == BranchSlug(a, 1)
    && s.ats[1].status == ATSkipped
    && s.ats[2].parentSha == repo.head && Unattempted(s.ats[2])
  }

  lemma {:induction false} BranchedRecords(s: RunState, a: string, live: seq<ATRecord>)
    requires a != "" && |s.ats| == 2 && s.position == 1 && live == BranchedATs(s, a, 0, "")
    requires s.ats[0].parentSha == 0 && s.ats[0].commit == 0 && s.ats[0].spec.gate != []
    requires s.ats[0].slug == a && s.ats[0].branchIndex == 0
    requires BranchSlugs(s.ats, a) == []
    requires s.ats[1].parentSlug == "" && Unattempted(s.ats[1])
    ensures |live| == 3 && live[0].parentSha == 0 && Unattempted(live[0]) && live[1].status == ATSkipped
    ensures live[0].slug == BranchSlug(a, 1)
    ensures live[2].parentSha == s.ats[1].parentSha && Unattempted(live[2])
  {
    var sup, br := Supersede(s, a, 0), NewBranch(s, a, 0, "");
    ForkPointsAfterBranch(s, a, 0, "", live);
    InsertedAt(sup, 0, br, 0);
    InsertedAt(sup, 0, br, 1);
    InsertedAt(sup, 0, br, 2);
  }

  lemma {:induction false} ActTwo(m: Machine, m': Machine, cap: nat, repo: Repo, a: string, step: Step)
    requires SecondFailed(m, repo, a) && a != ""
    requires step == BranchFix(a, "", 0, true) && m' == Apply(m, cap, step)
    ensures FirstBranched(m', repo, a)
  {
    assert KeyOf(m.run.ats[0]).slug == a && KeyOf(m.run.ats[1]).parent == "";
    NoBranches(m.run.ats, a);
    BranchApplies(m, cap, step);
    BranchStepParts(m, a, "", true);
    BranchedRecords(m.run, a, m'.run.ats);
  }

  /** The steps that finish the chain from there. */
  const FINISH: seq<Step> :=
    [Resume, Look(false), Perform(WORKS), Settle, Look(false), Look(false), Perform(WORKS), Settle, Look(false)]

  /** Both land, the second beside the first. */
  ghost predicate BothLanded(m: Machine, repo: Repo, a: string) {
    var s, n := m.run, |repo.parents|;
    && |s.ats| == 3 && s.ats[0].status == s.ats[2].status == ATSuccess
    && s.ats[0].slug == BranchSlug(a, 1) && s.ats[0].commit == n + 1 && s.ats[2].commit == n + 2
    && m.repo == Repo(repo.parents + [repo.head] + [repo.head], n + 2)
  }

  /** An open AT runs, lands and is passed. */
  lemma {:induction false} RunsAndLands(m: Machine, m1: Machine, m2: Machine, m3: Machine, cap: nat,
                                        look: Step, perform: Step, settle: Step)
    requires m.phase.Driving? && HasCurrent(m.run) && Unattempted(Current(m.run))
    requires look == Look(false) && perform == Perform(WORKS) && settle == Settle
    requires m1 == Apply(m, cap, look) && m2 == Apply(m1, cap, perform) && m3 == Apply(m2, cap, settle)
    ensures var p, n := m.run.position, |m.repo.parents|;
      && m3.phase.Driving? && m3.run.position == p + 1 && |m3.run.ats| == |m.run.ats|
      && m3.run.ats[p].status == ATSuccess && m3.run.ats[p].commit == n + 1 && m3.run.ats[p].slug == Current(m.run).slug
      && m3.run.ats == m.run.ats[p := m3.run.ats[p]]
      && m3.repo == Repo(m.repo.parents + [Tip(m.repo, Current(m.run).parentSha)], n + 1)
  {
    var r := Current(m.run).(status := ATRunning);
    RunsCurrent(m, m1, m2, cap, look, perform);
    WorksLands(r, m.repo, cap);
    Settles(m2, m3, cap, settle);
  }

  /** The branch has landed and the loop stands at the skipped task. */
  ghost predicate Midway(m: Machine, repo: Repo, a: string) {
    var s, n := m.run, |repo.parents|;
    && m.phase.Driving? && s.position == 1 && |s.ats| == 3
    && s.ats[0].slug == BranchSlug(a, 1) && s.ats[0].status == ATSuccess && s.ats[0].commit == n + 1
    && s.ats[1].status == ATSkipped
    && s.ats[2].parentSha == repo.head && Unattempted(s.ats[2])
    && m.repo == Repo(repo.parents + [repo.head], n + 1)
  }

  lemma {:induction false} BranchLands(m: Machine, m1: Machine, m2: Machine, m3: Machine, m4: Machine, cap: nat,
                                       repo: Repo, a: string)
    requires FirstBranched(m, repo, a)
    requires m1 == Apply(m, cap, FINISH[0]) && m2 == Apply(m1, cap, FINISH[1])
    requires m3 == Apply(m2, cap, FINISH[2]) && m4 == Apply(m3, cap, FINISH[3])
    ensures Midway(m4, repo, a)
  {
    Resumes(m, m1, cap, FINISH[0]);
    RunsAndLands(m1, m2, m3, m4, cap, FINISH[1], FINISH[2], FINISH[3]);
  }

  lemma {:induction false} SecondLands(m: Machine, m1: Machine, m2: Machine, m3: Machine, m4: Machine, cap: nat,
                                       repo: Repo, a: string)
    requires Midway(m, repo, a) && repo.head >= 1
    requires m1 == Apply(m, cap, FINISH[4]) && m2 == Apply(m1, cap, FINISH[5])
    requires m3 == Apply(m2, cap, FINISH[6]) && m4 == Apply(m3, cap, FINISH[7])
    ensures m4.phase.Driving? && m4.run.position == 3 && BothLanded(m4, repo, a)
  {
    LooksPast(m, m1, cap, FINISH[4]);
    RunsAndLands(m1, m2, m3, m4, cap, FINISH[5], FINISH[6], FINISH[7]);
  }

  lemma {:induction false} ActThree(ms: seq<Machine>, cap: nat, repo: Repo, a: string)
    requires |ms| == 10 && FirstBranched(ms[0], repo, a) && repo.head >= 1
    requires forall k :: 0 <= k < 9 ==> ms[k + 1] == Apply(ms[k], cap, FINISH[k])
    ensures ms[9].run.status == ChainSuccess && BothLanded(ms[9], repo, a)
  {
    BranchLands(ms[0], ms[1], ms[2], ms[3], ms[4], cap, repo, a);
    SecondLands(ms[4], ms[5], ms[6], ms[7], ms[8], cap, repo, a);
    Ends(ms[8], ms[9], cap, FINISH[8]);
  }

  lemma {:induction false} SecondBesideFirst(parents: seq<Sha>, h: Sha)
    requires h <= |parents|
    ensures !AncestorOrEqual(parents + [h] + [h], |parents| + 1, |parents| + 2)
  {
    var n := |parents|;
    assert (parents + [h] + [h])[n + 1] == h;
    if AncestorOrEqual(parents + [h] + [h], n + 1, h) { AncestorOlder(parents + [h] + [h], n + 1, h); }
  }

  lemma {:induction false} LostCredit(m: Machine, repo: Repo, a: string)
    requires BothLanded(m, repo, a) && repo.head <= |repo.parents|
    ensures Landed(m.run.ats[0]) && !AncestorOrEqual(m.repo.parents, m.run.ats[0].commit, m.repo.head)
    ensures !OnHead(m)
  {
    SecondBesideFirst(repo.parents, repo.head);
  }

  lemma {:induction false} Finish(c: Chain, before: seq<Step>, a: string)
    requires FirstBranched(c.After(before), c.repo, a) && Sane(c.repo)
    ensures c.After(before + FINISH).run.status == ChainSuccess && BothLanded(c.After(before + FINISH), c.repo, a)
  {
    var ms := RunStates(c.After(before), c.cap, FINISH);
    ActThree(ms, c.cap, c.repo, a);
    RunConcat(Start(c.meta, c.tasks, c.tier, c.repo), c.cap, before, FINISH);
  }

  /** On every two-task chain with gates there is a run that ends in success while the
      commit of a credited AT is not on the integration branch. */
  lemma {:induction false} CreditLeavesBranch(c: Chain) returns (steps: seq<Step>)
    requires c.Valid() && Sane(c.repo) && |c.tasks| == 2 && c.tasks[0].gate != [] && c.tasks[1].gate != []
    ensures var m := c.After(steps);
      && m.run.status == ChainSuccess && !OnHead(m) && |m.run.ats| == 3 && Landed(m.run.ats[0])
      && m.run.ats[0].slug == BranchSlug(c.tasks[0].slug, 1)
      && !AncestorOrEqual(m.repo.parents, m.run.ats[0].commit, m.repo.head)
  {
    var a := c.tasks[0].slug;
    var fix := BranchFix(a, "", 0, true);
    var before := ActOne(c);
    NotBlank(a);
    AfterMore(c, before, fix);
    ActTwo(c.After(before), c.After(before + [fix]), c.cap, c.repo, a, fix);
    Finish(c, before + [fix], a);
    steps := before + [fix] + FINISH;
    LostCredit(c.After(steps), c.repo, a);
  }
}
