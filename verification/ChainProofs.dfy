/** What every step of a coding chain keeps when no task is named like a branch of
    another: the emitted log is well formed and folds back to the live state. */
module ChainProofs {
  import opened Text
  import opened CodingTypes
  import opened EventLog
  import opened LogCompaction
  import opened WorkerGate
  import opened ChainMachine
  import opened ChainShape
  import opened ChainStanding

  // ------------------------------------------------------ emitting one event

  lemma {:induction false} FoldEmit(log: seq<Event>, e: Event)
    ensures FoldLog(log + [e]) == FoldStep(FoldLog(log), e)
  {
    FoldAppend(EMPTY_RUN, log, e);
  }

  /** A well-formed log folds to distinct, numbered records, known by their slugs. */
  lemma {:induction false} WellFormedFold(log: seq<Event>)
    requires WellFormed(log)
    ensures var ats := FoldLog(log).ats;
      && Distinct(Slugs(ats)) && Numbered(ats)
      && Slugs(ats) == Order(Slugs(log[0].seeds), log[1..])
      && forall x :: x in Slugs(ats) <==> x in SlugSet(log[0].seeds) + InsertedSlugs(log[1..])
  {
    var s := FoldStep(EMPTY_RUN, log[0]);
    assert log == [log[0]] + log[1..];
    FoldStart(log[0], log[1..]);
    SlugsKnown(s, log[1..]);
    FoldSlugs(s, log[1..]);
    FoldNumbered(s, log[1..]);
  }

  lemma {:induction false} WellFormedStatus(log: seq<Event>, i: nat, r: ATRecord)
    requires WellFormed(log) && i < |FoldLog(log).ats|
    requires r.slug == FoldLog(log).ats[i].slug && r.position == i
    ensures WellFormed(log + [ATStatusChanged(r)])
    ensures FoldLog(log + [ATStatusChanged(r)]) ==
            FoldLog(log).(ats := FoldLog(log).ats[i := r])
  {
    var f, e := FoldLog(log), ATStatusChanged(r);
    WellFormedFold(log);
    FindATUnique(f.ats, i);
    FoldEmit(log, e);
    assert Slugs(f.ats)[i] == r.slug;
    assert (log + [e])[1..] == log[1..] + [e];
    assert (log[1..] + [e])[..|log[1..]|] == log[1..];
  }

  lemma {:induction false} WellFormedInsert(log: seq<Event>, r: ATRecord)
    requires WellFormed(log) && r.slug !in Slugs(FoldLog(log).ats)
    requires 0 <= r.position <= |FoldLog(log).ats|
    ensures WellFormed(log + [ATInserted(r)])
    ensures FoldLog(log + [ATInserted(r)]) ==
            FoldLog(log).(ats := Renumber(InsertAt(FoldLog(log).ats, r.position, r)))
  {
    var e := ATInserted(r);
    WellFormedFold(log);
    FoldEmit(log, e);
    assert (log + [e])[1..] == log[1..] + [e];
    assert (log[1..] + [e])[..|log[1..]|] == log[1..];
  }

  lemma {:induction false} WellFormedChain(log: seq<Event>, status: ChainStatus, failed: string, position: int)
    requires WellFormed(log)
    ensures var e := ChainStatusChanged(status, failed, position);
      && WellFormed(log + [e])
      && FoldLog(log + [e]) ==
         FoldLog(log).(status := status, failedSlug := failed, position := position)
  {
    var e := ChainStatusChanged(status, failed, position);
    FoldEmit(log, e);
    assert (log + [e])[1..] == log[1..] + [e];
    assert (log[1..] + [e])[..|log[1..]|] == log[1..];
  }

  lemma {:induction false} AppendAssoc<T>(a: seq<T>, b: seq<T>, c: seq<T>)
    ensures a + (b + c) == a + b + c
  {}

  /** The log is well formed and folds to `f`. */
  ghost predicate FoldsTo(log: seq<Event>, f: RunState) { WellFormed(log) && FoldLog(log) == f }

  /** `f` has the slugs of `live` and differs from it only at the given slugs. */
  predicate Behind(f: RunState, live: seq<ATRecord>, slugs: seq<string>) {
    && Slugs(f.ats) == Slugs(live)
    && forall i :: 0 <= i < |live| && i < |f.ats| ==> f.ats[i] == live[i] || live[i].slug in slugs
  }

  /** One status event puts one record right and disturbs no other. */
  lemma {:induction false} ConvergeOne(log: seq<Event>, f: RunState, live: seq<ATRecord>, i: nat, slugs: seq<string>)
    requires FoldsTo(log, f) && Numbered(live) && i < |live|
    requires Behind(f, live, [live[i].slug] + slugs)
    ensures i < |f.ats| && FoldsTo(log + [ATStatusChanged(live[i])], f.(ats := f.ats[i := live[i]]))
    ensures Behind(f.(ats := f.ats[i := live[i]]), live, slugs)
  {
    assert |f.ats| == |Slugs(f.ats)| == |live|;
    assert Slugs(f.ats)[i] == Slugs(live)[i];
    WellFormedStatus(log, i, live[i]);
    WellFormedFold(log);
    var ats := f.ats[i := live[i]];
    assert Slugs(ats) == Slugs(f.ats);
    forall j | 0 <= j < |live| ensures ats[j] == live[j] || live[j].slug in slugs {
      assert j != i ==> Slugs(live)[j] != Slugs(live)[i];
    }
  }

  /** Emitting the status of every changed slug brings the fold up to the live list. */
  lemma {:induction false} StatusConverges(log: seq<Event>, f: RunState, live: seq<ATRecord>, slugs: seq<string>)
    requires FoldsTo(log, f) && Numbered(live) && Behind(f, live, slugs)
    ensures FoldsTo(log + StatusEvents(live, slugs), f.(ats := live))
    decreases |slugs|
  {
    if slugs == [] {
      assert log + [] == log;
      assert |f.ats| == |Slugs(f.ats)| == |live|;
      assert f.ats == live;
    } else {
      var i, rest := FindAT(live, slugs[0]), slugs[1..];
      assert slugs == [slugs[0]] + rest;
      if i < |live| {
        var e := ATStatusChanged(live[i]);
        ConvergeOne(log, f, live, i, rest);
        StatusConverges(log + [e], f.(ats := f.ats[i := live[i]]), live, rest);
        AppendAssoc(log, [e], StatusEvents(live, rest));
      } else {
        assert Behind(f, live, rest) by {
          assert forall j :: 0 <= j < |live| ==> live[j].slug != slugs[0];
        }
        StatusConverges(log, f, live, rest);
        assert StatusEvents(live, slugs) == StatusEvents(live, rest);
      }
    }
  }

  // ------------------------------------------------------------ the core facts

  /** Task names fit for a run: distinct, non-blank, and none named like a branch of
      another. */
  ghost predicate Names(slugs: seq<string>) { Named(slugs) && NoCollision(slugs) }

  /** The log is well formed and its fold carries the live records. */
  ghost predicate Core(m: Machine) {
    var f := FoldLog(m.log);
    && WellFormed(m.log)
    && f == m.run.(status := f.status, position := f.position)
  }

  lemma {:induction false} CorePutAT(m: Machine, i: nat, r: ATRecord)
    requires Core(m) && i < |m.run.ats|
    requires r.slug == m.run.ats[i].slug && r.position == i
    ensures Core(PutAT(m, i, r))
    ensures FoldLog(PutAT(m, i, r).log) == FoldLog(m.log).(ats := m.run.ats[i := r])
  {
    WellFormedStatus(m.log, i, r);
  }

  lemma {:induction false} CorePutChain(m: Machine, status: ChainStatus, failed: string, position: int)
    requires Core(m)
    ensures Core(PutChain(m, status, failed, position))
    ensures FoldLog(PutChain(m, status, failed, position).log) == PutChain(m, status, failed, position).run
  {
    WellFormedChain(m.log, status, failed, position);
  }

  // -------------------------------------------------------------- branch_fix

  lemma {:induction false} BranchSlugsContain(ats: seq<ATRecord>, target: string, j: nat)
    requires j < |ats| && ats[j].parentSlug == target
    ensures ats[j].slug in BranchSlugs(ats, target)
  {
    if j > 0 { BranchSlugsContain(ats[1..], target, j - 1); }
  }

  lemma {:induction false} InsertBehind(f: RunState, sup: seq<ATRecord>, t: nat, br: ATRecord, changed: seq<string>)
    requires Behind(f, sup, changed) && t <= |sup|
    ensures t <= |f.ats|
    ensures Behind(f.(ats := Renumber(InsertAt(f.ats, t, br))), Renumber(InsertAt(sup, t, br)), changed)
  {
    assert |f.ats| == |Slugs(f.ats)| == |sup|;
    var a, b := Renumber(InsertAt(f.ats, t, br)), Renumber(InsertAt(sup, t, br));
    SlugsInsert(f.ats, t, br);
    SlugsInsert(sup, t, br);
    forall j | 0 <= j < |b| ensures a[j] == b[j] || b[j].slug in changed {
      InsertedAt(f.ats, t, br, j);
      InsertedAt(sup, t, br, j);
    }
  }

  /** The first event of the emission inserts the branch. */
  lemma {:induction false} InsertEmitted(sup: seq<ATRecord>, t: nat, br: ATRecord)
    requires t <= |sup| && br.position == t && Distinct(Slugs(sup)) && br.slug !in Slugs(sup)
    ensures InsertEvents(Renumber(InsertAt(sup, t, br)), br.slug) == [ATInserted(br)]
  {
    var live := Renumber(InsertAt(sup, t, br));
    assert live[t] == br;
    SlugsInsert(sup, t, br);
    DistinctInsert(Slugs(sup), t, br.slug);
    FindATUnique(live, t);
  }

  /** Emitting the insert first and then every changed record reaches the live list. */
  lemma {:induction false} BranchEmission(log: seq<Event>, f: RunState, sup: seq<ATRecord>, t: nat, br: ATRecord,
                                          changed: seq<string>)
    requires FoldsTo(log, f) && Behind(f, sup, changed)
    requires t <= |sup| && br.position == t && br.slug !in Slugs(sup)
    ensures var live := Renumber(InsertAt(sup, t, br));
      FoldsTo(log + (InsertEvents(live, br.slug) + StatusEvents(live, changed)), f.(ats := live))
  {
    var live := Renumber(InsertAt(sup, t, br));
    var e, f' := ATInserted(br), f.(ats := Renumber(InsertAt(f.ats, t, br)));
    WellFormedFold(log);
    InsertEmitted(sup, t, br);
    InsertBehind(f, sup, t, br, changed);
    WellFormedInsert(log, br);
    StatusConverges(log + [e], f', live, changed);
    AppendAssoc(log, [e], StatusEvents(live, changed));
  }

  /** Every record branch_fix changes is among the slugs it reports. */
  lemma {:induction false} BranchReported(s: RunState, target: string, t: nat, k: nat)
    requires t < |s.ats| && s.ats[t].slug == target && k < |s.ats|
    ensures Supersede(s, target, t)[k] == s.ats[k] || s.ats[k].slug in ChangedSlugs(s, target, t)
  {
    if s.ats[k].parentSlug == target { BranchSlugsContain(s.ats, target, k); }
  }

  lemma {:induction false} BehindSuperseded(s: RunState, target: string, t: nat)
    requires t < |s.ats| && s.ats[t].slug == target
    ensures Slugs(Supersede(s, target, t)) == Slugs(s.ats)
    ensures Behind(s, Supersede(s, target, t), ChangedSlugs(s, target, t))
  {
    var sup := Supersede(s, target, t);
    assert Slugs(sup) == Slugs(s.ats);
    forall k | 0 <= k < |sup| ensures s.ats[k] == sup[k] || sup[k].slug in ChangedSlugs(s, target, t) {
      BranchReported(s, target, t, k);
      assert Slugs(sup)[k] == Slugs(s.ats)[k];
    }
  }

  /** The new branch's slug is fresh. */
  lemma {:induction false} BranchFresh(s: RunState, slugs: seq<string>, target: string, goal: string)
    requires Names(slugs) && Shaped(slugs, s.ats) && TargetIndex(s.ats, target) < |s.ats|
    ensures NewBranch(s, target, TargetIndex(s.ats, target), goal).slug !in Slugs(s.ats)
  {
    var t := TargetIndex(s.ats, target);
    var sup, br := Supersede(s, target, t), NewBranch(s, target, t, goal);
    BranchShape(s, slugs, target, goal);
    ShapedDistinct(slugs, BranchedATs(s, target, t, goal));
    assert Slugs(sup) == Slugs(s.ats);
    SlugsInsert(sup, t, br);
    InsertFresh(Slugs(s.ats), t, br.slug);
  }

  lemma {:induction false} InsertFresh<T>(s: seq<T>, t: nat, x: T)
    requires t <= |s| && Distinct(InsertAt(s, t, x))
    ensures x !in s
  {
    var r := InsertAt(s, t, x);
    forall k | 0 <= k < |s| ensures s[k] != x {
      assert r[if k < t then k else k + 1] == s[k] && r[t] == x;
    }
  }

  lemma {:induction false} BranchFold(m: Machine, slugs: seq<string>, target: string, goal: string)
    requires Core(m) && Names(slugs) && Shaped(slugs, m.run.ats) && TargetIndex(m.run.ats, target) < |m.run.ats|
    ensures var s, t := m.run, TargetIndex(m.run.ats, target);
      var log := m.log + BranchEvents(s, target, t, goal);
      WellFormed(log) && FoldLog(log) == FoldLog(m.log).(ats := BranchedATs(s, target, t, goal))
  {
    var s, t := m.run, TargetIndex(m.run.ats, target);
    var sup := Supersede(s, target, t);
    BranchFresh(s, slugs, target, goal);
    BehindSuperseded(s, target, t);
    BranchEmission(m.log, FoldLog(m.log), sup, t, NewBranch(s, target, t, goal), ChangedSlugs(s, target, t));
  }

  // ---------------------------------------------------------- the invariant

  /** Between interventions the log folds to the live state. While the run loop is
      active, the folded position may lag behind, over resolved ATs only. */
  ghost predicate Synced(m: Machine) {
    var f, s := FoldLog(m.log), m.run;
    && (m.phase.Idle? ==> f == s)
    && 0 <= f.position <= s.position
    && (forall i :: f.position <= i < s.position && i < |s.ats| ==> s.ats[i].Resolved())
  }

  ghost predicate Logged(m: Machine) { Core(m) && Synced(m) }

  lemma {:induction false} LoggedLook(m: Machine, pause: bool)
    requires Logged(m) && Progress(m) && Numbered(m.run.ats) && m.phase.Driving?
    ensures Logged(LookStep(m, pause))
  {
    var s := m.run;
    if s.position >= |s.ats| {
      CorePutChain(m, ChainSuccess, s.failedSlug, s.position);
    } else if pause {
      CorePutChain(m, ChainPaused, s.failedSlug, s.position);
    } else if !Current(s).Resolved() {
      CorePutAT(m, s.position, Current(s).(status := ATRunning));
    }
  }

  lemma {:induction false} LoggedSettle(m: Machine)
    requires Logged(m) && Progress(m) && m.phase.Settled?
    ensures Logged(SettleStep(m))
  {
    if Current(m.run).status != ATSuccess {
      CorePutChain(m, ChainFailed, Current(m.run).slug, m.run.position);
    }
  }

  lemma {:induction false} LoggedPerform(m: Machine, cap: nat, input: RunInput)
    requires Logged(m) && Progress(m) && Numbered(m.run.ats)
    ensures Logged(Apply(m, cap, Perform(input)))
  {
    if m.phase.Executing? {
      var r := Current(m.run);
      ExecuteSound(r, m.repo, cap, input);
      CorePutAT(m, m.run.position, Execute(r, m.repo, cap, input).record);
    }
  }

  lemma {:induction false} LoggedStaged(m: Machine, i: nat, r: ATRecord, position: int)
    requires Logged(m) && Numbered(m.run.ats) && i == m.run.position < |m.run.ats|
    requires r.slug == m.run.ats[i].slug && r.position == m.run.ats[i].position && 0 <= position
    ensures Logged(PutChain(PutAT(m, i, r), ChainPending, "", position))
  {
    CorePutAT(m, i, r);
    CorePutChain(PutAT(m, i, r), ChainPending, "", position);
  }

  lemma {:induction false} CoreResetNext(m: Machine, i: nat)
    requires Core(m) && Numbered(m.run.ats)
    ensures Core(ResetNext(m, i))
  {
    if i < |m.run.ats| { CorePutAT(m, i, m.run.ats[i].Reset()); }
  }

  lemma {:induction false} NumberedPut(ats: seq<ATRecord>, ats': seq<ATRecord>, p: nat, r: ATRecord)
    requires Numbered(ats) && p < |ats| && r.position == p && ats' == ats[p := r]
    ensures Numbered(ats')
  {}

  lemma {:induction false} CoreForced(m: Machine, m1: Machine, r: ATRecord)
    requires Core(m) && Numbered(m.run.ats) && HasCurrent(m.run)
    requires r.slug == Current(m.run).slug && r.position == m.run.position
    requires m1 == PutAT(m, m.run.position, r)
    ensures Core(m1) && Numbered(m1.run.ats)
  {
    CorePutAT(m, m.run.position, r);
    NumberedPut(m.run.ats, m1.run.ats, m.run.position, r);
  }

  lemma {:induction false} LoggedForce(m: Machine, sha: Sha, justification: string)
    requires Core(m) && Numbered(m.run.ats) && HasCurrent(m.run)
    ensures Logged(ForceAdvanceStep(m, sha, justification))
  {
    var p, r := m.run.position, Forced(Current(m.run), sha, justification);
    var m1 := PutAT(m, p, r);
    CoreForced(m, m1, r);
    LoggedReset(m1, ResetNext(m1, p + 1), p + 1, m.repo.(head := sha));
  }

  lemma {:induction false} LoggedReset(m: Machine, m1: Machine, i: nat, repo: Repo)
    requires Core(m) && Numbered(m.run.ats) && m1 == ResetNext(m, i)
    ensures Logged(PutChain(m1, ChainPending, "", i).(repo := repo))
  {
    CoreResetNext(m, i);
    LoggedPending(m1, i, repo);
  }

  lemma {:induction false} LoggedPending(m: Machine, position: nat, repo: Repo)
    requires Core(m)
    ensures Logged(PutChain(m, ChainPending, "", position).(repo := repo))
  {
    CorePutChain(m, ChainPending, "", position);
  }

  lemma {:induction false} LoggedBranch(m: Machine, slugs: seq<string>, target: string, goal: string, rewound: bool)
    requires Core(m) && Names(slugs) && Shaped(slugs, m.run.ats) && TargetIndex(m.run.ats, target) < |m.run.ats|
    ensures Logged(BranchFixStep(m, target, goal, rewound))
  {
    var s, t := m.run, TargetIndex(m.run.ats, target);
    BranchFold(m, slugs, target, goal);
    var m1 := m.(run := s.(ats := BranchedATs(s, target, t, goal)), log := m.log + BranchEvents(s, target, t, goal));
    CorePutChain(m1, ChainPending, "", t);
  }

  /** Retry, skip and edit, when they may act. */
  lemma {:induction false} LoggedSimple(m: Machine, cap: nat, step: Step)
    requires Logged(m) && Numbered(m.run.ats) && Staging(m) && HasCurrent(m.run)
    requires step.Retry? || step.Skip? || (step.Edit? && !Blank(step.goal))
    ensures Logged(Apply(m, cap, step))
  {
    var p, r := m.run.position, Current(m.run);
    match step {
      case Retry => LoggedStaged(m, p, r.Reset(), p);
      case Skip => LoggedStaged(m, p, r.(status := ATSkipped), p + 1);
      case Edit(goal, workspace) => LoggedStaged(m, p, Edited(r, goal, workspace), p);
    }
  }

  lemma {:induction false} LoggedLoop(m: Machine, cap: nat, step: Step)
    requires Logged(m) && Progress(m) && Numbered(m.run.ats)
    requires step.Resume? || step.Look? || step.Perform? || step.Settle? || step.Abort? || step.OutsideCommit?
    ensures Logged(Apply(m, cap, step))
  {
    match step {
      case Look(pause) => if m.phase.Driving? { LoggedLook(m, pause); }
      case Settle => if m.phase.Settled? { LoggedSettle(m); }
      case Perform(input) => LoggedPerform(m, cap, input);
      case Abort => if m.phase.Idle? { CorePutChain(m, ChainAborted, m.run.failedSlug, m.run.position); }
      case _ =>
    }
  }

  /** Every step, enabled or refused, keeps log and state in step. */
  lemma {:induction false} LoggedStep(m: Machine, slugs: seq<string>, cap: nat, step: Step)
    requires Standing(m, slugs) && Logged(m) && Names(slugs)
    ensures Logged(Apply(m, cap, step))
  {
    match step {
      case Retry => if Staging(m) && HasCurrent(m.run) { LoggedSimple(m, cap, step); }
      case Skip => if Staging(m) && HasCurrent(m.run) { LoggedSimple(m, cap, step); }
      case Edit(goal, _) =>
        if Staging(m) && HasCurrent(m.run) && !Blank(goal) { LoggedSimple(m, cap, step); }
      case ForceAdvance(sha, justification, refused) =>
        if ForceAllowed(m, sha, justification, refused) { LoggedForce(m, sha, justification); }
      case BranchFix(target, goal, maxBranches, rewound) =>
        if Staging(m) && BranchAllowed(m.run, target, maxBranches) {
          LoggedBranch(m, slugs, target, goal, rewound);
        }
      case _ => LoggedLoop(m, cap, step);
    }
  }

  /** A fresh run's log is in step. */
  lemma {:induction false} LoggedStart(meta: RunMeta, tasks: seq<AtomicTask>, tier: string, repo: Repo)
    requires ValidTasks(tasks)
    ensures Logged(Start(meta, tasks, tier, repo))
  {
    var m := Start(meta, tasks, tier, repo);
    assert Slugs(SeedRecords(tasks, tier)) == TaskSlugs(tasks);
    FoldStart(m.log[0], []);
    assert m.log == [m.log[0]] + [] && m.log[1..] == [];
  }

  lemma {:induction false} LoggedRun(m: Machine, slugs: seq<string>, cap: nat, steps: seq<Step>)
    requires Standing(m, slugs) && Logged(m) && Names(slugs)
    ensures Logged(Run(m, cap, steps))
  {
    if steps != [] {
      var before := steps[..|steps| - 1];
      LoggedRun(m, slugs, cap, before);
      StandingRun(m, slugs, cap, before);
      LoggedStep(Run(m, cap, before), slugs, cap, steps[|steps| - 1]);
    }
  }
}
