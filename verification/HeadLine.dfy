/** Exactly which steps leave every credited commit on the integration branch
    (internal/coding/orchestrator.go, intervene.go, repo_git.go). */
module HeadLine {
  import opened CodingTypes
  import opened WorkerGate
  import opened ChainMachine
  import opened ChainStanding
  import opened ChainTheorems
  import opened Lineage
  import opened CleanRun

  /** Every credited commit is the integration HEAD or one of its ancestors. */
  predicate OnHead(m: Machine) { AllOn(m.repo.parents, m.run.ats, m.repo.head) }

  predicate AllOnBut(parents: seq<Sha>, ats: seq<ATRecord>, p: int, q: int, d: Sha) {
    forall i :: 0 <= i < |ats| && i != p && i != q && Landed(ats[i]) ==> AncestorOrEqual(parents, ats[i].commit, d)
  }

  // -------------------------------------------------------------- the guards

  /** A landing: the ref must move, and to a commit above all the others; a landing
      without a commit of its own must not credit a stray one. */
  ghost predicate LandsWell(repo: Repo, ats: seq<ATRecord>, p: nat, cap: nat, inp: RunInput)
    requires p < |ats|
  {
    Succeeds(ats[p], cap, inp) ==>
      match inp.commit
      case Committed(forwarded) =>
        forwarded && AllOnBut(repo.parents, ats, p, p, Tip(repo, ats[p].parentSha))
      case NothingToCommit(headKnown) =>
        headKnown || ats[p].commit == 0 || AncestorOrEqual(repo.parents, ats[p].commit, repo.head)
      case CommitFailed(_) => true
  }

  /** Branching keeps the credit of this record. */
  predicate KeepsCredit(s: RunState, target: string, t: nat, i: nat)
    requires t < |s.ats| && i < |s.ats|
  {
    i != t && s.ats[i].parentSlug != target && !(Rewinds(s, t) && i == s.position)
  }

  /** A rewind: the target's fork point reaches all that stays credited. */
  predicate RewindsWell(repo: Repo, s: RunState, target: string, t: nat, rewound: bool)
    requires t < |s.ats|
  {
    Rewinds(s, t) && rewound ==>
      forall i :: 0 <= i < |s.ats| && KeepsCredit(s, target, t, i) && Landed(s.ats[i]) ==>
        AncestorOrEqual(repo.parents, s.ats[i].commit, Tip(repo, s.ats[t].parentSha))
  }

  /** Where the step moves the ref or credits a commit, the commit it moves to reaches
      what stays credited. */
  ghost predicate HeadReaches(m: Machine, cap: nat, step: Step) {
    var s := m.run;
    match step
    case Perform(input) =>
      m.phase.Executing? && HasCurrent(s) ==> LandsWell(m.repo, s.ats, s.position, cap, input)
    case ForceAdvance(sha, justification, refused) =>
      ForceAllowed(m, sha, justification, refused) ==>
        AllOnBut(m.repo.parents, s.ats, s.position, s.position + 1, sha)
    case BranchFix(target, _, maxBranches, rewound) =>
      Staging(m) && BranchAllowed(s, target, maxBranches) ==>
        RewindsWell(m.repo, s, target, TargetIndex(s.ats, target), rewound)
    case _ => true
  }

  // -------------------------------------------------------- the growing graph

  lemma {:induction false} AncestorOlder(parents: seq<Sha>, a: Sha, d: Sha)
    requires AncestorOrEqual(parents, a, d)
    ensures a <= d
    decreases d
  {
    if a != d { AncestorOlder(parents, a, parents[d - 1]); }
  }

  /** What is below a commit does not change when the graph grows. */
  lemma {:induction false} AncestorSame(parents: seq<Sha>, parents': seq<Sha>, a: Sha, d: Sha)
    requires parents <= parents' && d <= |parents|
    ensures AncestorOrEqual(parents', a, d) <==> AncestorOrEqual(parents, a, d)
    decreases d
  {
    if 1 <= d && parents[d - 1] < d {
      assert parents'[d - 1] == parents[d - 1];
      AncestorSame(parents, parents', a, parents[d - 1]);
    }
  }

  lemma {:induction false} AllOnButSame(parents: seq<Sha>, parents': seq<Sha>, ats: seq<ATRecord>, p: int, q: int,
                                        d: Sha)
    requires parents <= parents' && d <= |parents|
    ensures AllOnBut(parents', ats, p, q, d) <==> AllOnBut(parents, ats, p, q, d)
  {
    forall i | 0 <= i < |ats|
      ensures AncestorOrEqual(parents', ats[i].commit, d) <==> AncestorOrEqual(parents, ats[i].commit, d)
    {
      AncestorSame(parents, parents', ats[i].commit, d);
    }
  }

  /** One record replaced. */
  lemma {:induction false} PutOn(parents: seq<Sha>, ats: seq<ATRecord>, p: nat, r: ATRecord, d: Sha)
    requires p < |ats|
    ensures AllOn(parents, ats[p := r], d) <==>
      AllOnBut(parents, ats, p, p, d) && (Landed(r) ==> AncestorOrEqual(parents, r.commit, d))
  {
    var ats' := ats[p := r];
    assert forall i :: 0 <= i < |ats| && i != p ==> ats'[i] == ats[i];
    if AllOn(parents, ats', d) {
      forall i | 0 <= i < |ats| && i != p && Landed(ats[i]) ensures AncestorOrEqual(parents, ats[i].commit, d) {
        assert ats'[i] == ats[i];
      }
      assert ats'[p] == r;
    }
  }

  // ------------------------------------------------------------- running an AT

  /** What the commit of an AT run does to graph, HEAD and record. */
  ghost predicate Landing(r: ATRecord, repo: Repo, tip: Sha, inp: RunInput, q: ATRecord, repo': Repo, a: Sha) {
    && Sane(repo') && repo.parents <= repo'.parents
    && q.parentSha <= |repo'.parents| && q.commit <= |repo'.parents|
    && (q.status != ATSuccess || !inp.commit.Committed? || !inp.commit.forwarded ==> repo'.head == repo.head)
    && (q.status == ATSuccess && inp.commit.Committed? ==>
          && q.commit > |repo.parents|
          && (inp.commit.forwarded ==>
                && repo'.head == q.commit
                && (a <= |repo.parents| ==>
                      (AncestorOrEqual(repo'.parents, a, repo'.head) <==> AncestorOrEqual(repo.parents, a, tip)))))
    && (q.status == ATSuccess && inp.commit.NothingToCommit? ==>
          q.commit == if inp.commit.headKnown then repo.head else r.commit)
    && (q.status == ATSuccess ==> !inp.commit.CommitFailed?)
  }

  lemma {:induction false} LandLanding(r: ATRecord, repo: Repo, inp: RunInput, a: Sha)
    requires Sane(repo) && r.parentSha <= |repo.parents| && r.commit <= |repo.parents|
    ensures var tip := Tip(repo, r.parentSha);
      var (q, repo') := Land(r, repo, tip, inp);
      Landing(r, repo, tip, inp, q, repo', a)
  {
    var tip := Tip(repo, r.parentSha);
    CommitGrows(repo, tip, a);
    if a <= |repo.parents| { AncestorOfCommit(repo.parents, tip, a); }
  }

  lemma {:induction false} WorkLanding(r: ATRecord, repo: Repo, cap: nat, inp: RunInput, a: Sha)
    requires Sane(repo) && r.parentSha <= |repo.parents| && r.commit <= |repo.parents|
    ensures var e := WorkAndLand(r, repo, cap, inp);
      Landing(r, repo, Tip(repo, r.parentSha), inp, e.record, e.repo, a)
  {
    var (end, entered) := Work(r, cap, inp);
    LandLanding(AfterWork(r, end, entered), repo, inp, a);
  }

  /** Seeding first puts one commit between the fork point and the work. */
  lemma {:induction false} SeedLanding(r: ATRecord, repo: Repo, tip: Sha, inp: RunInput, mid: Repo, tip': Sha,
                                       q: ATRecord, repo': Repo, a: Sha)
    requires Sane(repo) && repo.parents <= mid.parents && mid.head == repo.head
    requires a <= |repo.parents| ==> (AncestorOrEqual(mid.parents, a, tip') <==> AncestorOrEqual(repo.parents, a, tip))
    requires Landing(r, mid, tip', inp, q, repo', a)
    ensures Landing(r, repo, tip, inp, q, repo', a)
  {}

  lemma {:induction false} SeededLanding(r: ATRecord, repo: Repo, cap: nat, inp: RunInput, a: Sha)
    requires Sane(repo) && r.parentSha <= |repo.parents| && r.commit <= |repo.parents|
    ensures var e := WorkAndLand(SeedRecord(r, repo, inp), SeedRepo(r, repo, inp), cap, inp);
      Landing(r, repo, Tip(repo, r.parentSha), inp, e.record, e.repo, a)
  {
    var tip := Tip(repo, r.parentSha);
    var q, mid := SeedRecord(r, repo, inp), SeedRepo(r, repo, inp);
    var e := WorkAndLand(q, mid, cap, inp);
    CommitGrows(repo, tip, a);
    if a <= |repo.parents| { AncestorOfCommit(repo.parents, tip, a); }
    WorkLanding(q, mid, cap, inp, a);
    SeedLanding(q, repo, tip, inp, mid, Tip(mid, q.parentSha), e.record, e.repo, a);
  }

  lemma {:induction false} ExecuteLanding(r: ATRecord, repo: Repo, cap: nat, inp: RunInput, a: Sha)
    requires Sane(repo) && r.parentSha <= |repo.parents| && r.commit <= |repo.parents| && r.status != ATSuccess
    ensures var e := Execute(r, repo, cap, inp);
      Landing(r, repo, Tip(repo, r.parentSha), inp, e.record, e.repo, a)
  {
    var forked := CaptureFork(r, repo, inp);
    assert Tip(repo, forked.parentSha) == Tip(repo, r.parentSha);
    SeededLanding(forked.(worktree := inp.dir), repo, cap, inp, a);
  }

  /** An AT run keeps the credited commits on the branch exactly when it lands well. */
  lemma {:induction false} PerformExactly(repo: Repo, ats: seq<ATRecord>, p: nat, cap: nat, inp: RunInput)
    requires InGraph(repo, ats) && AllOn(repo.parents, ats, repo.head) && p < |ats| && ats[p].status != ATSuccess
    ensures var e := Execute(ats[p], repo, cap, inp);
      AllOn(e.repo.parents, ats[p := e.record], e.repo.head) <==> LandsWell(repo, ats, p, cap, inp)
  {
    var r, tip := ats[p], Tip(repo, ats[p].parentSha);
    var e := Execute(r, repo, cap, inp);
    var q, parents' := e.record, e.repo.parents;
    ExecuteExactly(r, repo, cap, inp);
    ExecuteLanding(r, repo, cap, inp, 0);
    PutOn(parents', ats, p, q, e.repo.head);
    if q.status == ATSuccess && inp.commit.Committed? && inp.commit.forwarded {
      forall i | 0 <= i < |ats| && i != p
        ensures AncestorOrEqual(parents', ats[i].commit, e.repo.head) <==>
          AncestorOrEqual(repo.parents, ats[i].commit, tip)
      {
        ExecuteLanding(r, repo, cap, inp, ats[i].commit);
      }
    } else {
      AllOnButSame(repo.parents, parents', ats, p, p, repo.head);
      AncestorSame(repo.parents, parents', q.commit, repo.head);
      if Landed(q) && AncestorOrEqual(parents', q.commit, repo.head) { AncestorOlder(parents', q.commit, repo.head); }
    }
  }

  /** Whatever is committed is forwarded. */
  predicate Forwards(inp: RunInput) { inp.commit.Committed? ==> inp.commit.forwarded }

  /** What can be checked before an AT is run: it cannot succeed, or its fork point reaches
      the other credited commits and a commit it already holds is on the branch. */
  predicate SafeToRun(repo: Repo, ats: seq<ATRecord>, p: nat, cap: nat)
    requires p < |ats|
  {
    CanSucceed(ats[p], cap) ==>
      && AllOnBut(repo.parents, ats, p, p, Tip(repo, ats[p].parentSha))
      && (ats[p].commit == 0 || AncestorOrEqual(repo.parents, ats[p].commit, repo.head))
  }

  /** However the run turns out, provided what is committed is forwarded, it keeps the
      credited commits on the branch, exactly when it is safe to run. */
  lemma {:induction false} LandsSafely(repo: Repo, ats: seq<ATRecord>, p: nat, cap: nat)
    requires p < |ats|
    ensures (forall inp :: Forwards(inp) ==> LandsWell(repo, ats, p, cap, inp)) <==> SafeToRun(repo, ats, p, cap)
  {
    var commits, keeps := WORKS, WORKS.(commit := NothingToCommit(false));
    CanSucceedExactly(ats[p], cap, Committed(true));
    CanSucceedExactly(ats[p], cap, NothingToCommit(false));
    assert commits == WORKS.(commit := Committed(true));
    if forall inp :: Forwards(inp) ==> LandsWell(repo, ats, p, cap, inp) {
      assert LandsWell(repo, ats, p, cap, commits) && LandsWell(repo, ats, p, cap, keeps);
    }
    if SafeToRun(repo, ats, p, cap) {
      forall inp | Forwards(inp) ensures LandsWell(repo, ats, p, cap, inp) {
        if Succeeds(ats[p], cap, inp) { SucceedsOnlyIf(ats[p], cap, inp); }
      }
    }
  }

  // --------------------------------------------------------- the interventions

  lemma {:induction false} ForceExactly(m: Machine, m': Machine, cap: nat, force: Step)
    requires force.ForceAdvance? && m' == Apply(m, cap, force)
    requires ForceAllowed(m, force.sha, force.justification, force.refused)
    ensures OnHead(m') <==> AllOnBut(m.repo.parents, m.run.ats, m.run.position, m.run.position + 1, force.sha)
  {
    var p, ats, ats' := m.run.position, m.run.ats, m'.run.ats;
    assert m'.repo == m.repo.(head := force.sha);
    assert ats'[p] == Forced(ats[p], force.sha, force.justification);
    assert p + 1 < |ats| ==> ats'[p + 1] == ats[p + 1].Reset();
    assert forall i :: 0 <= i < |ats| && i != p && i != p + 1 ==> ats'[i] == ats[i];
    if OnHead(m') {
      forall i | 0 <= i < |ats| && i != p && i != p + 1 && Landed(ats[i])
        ensures AncestorOrEqual(m.repo.parents, ats[i].commit, force.sha)
      {
        assert ats'[i] == ats[i];
      }
    }
  }

  lemma {:induction false} SupersededCredit(s: RunState, target: string, t: nat, i: nat)
    requires t < |s.ats| && i < |s.ats|
    ensures var q := Supersede(s, target, t)[i];
      && (Landed(q) <==> KeepsCredit(s, target, t, i) && Landed(s.ats[i]))
      && (Landed(q) ==> q.commit == s.ats[i].commit)
  {}

  lemma {:induction false} InsertOn(parents: seq<Sha>, sup: seq<ATRecord>, t: nat, br: ATRecord, d: Sha)
    requires t <= |sup| && !Landed(br)
    ensures AllOn(parents, Renumber(InsertAt(sup, t, br)), d) <==> AllOn(parents, sup, d)
  {
    var live := Renumber(InsertAt(sup, t, br));
    if AllOn(parents, sup, d) { AllOnInsert(parents, sup, t, br, d); }
    if AllOn(parents, live, d) {
      forall i | 0 <= i < |sup| && Landed(sup[i]) ensures AncestorOrEqual(parents, sup[i].commit, d) {
        InsertedAt(sup, t, br, if i < t then i else i + 1);
        assert Landed(live[if i < t then i else i + 1]);
      }
    }
  }

  lemma {:induction false} BranchExactly(repo: Repo, s: RunState, target: string, t: nat, goal: string, rewound: bool)
    requires t < |s.ats| && AllOn(repo.parents, s.ats, repo.head)
    ensures AllOn(repo.parents, BranchedATs(s, target, t, goal), RewoundRepo(repo, s, t, rewound).head) <==>
            RewindsWell(repo, s, target, t, rewound)
  {
    var sup, head := Supersede(s, target, t), RewoundRepo(repo, s, t, rewound).head;
    InsertOn(repo.parents, sup, t, NewBranch(s, target, t, goal), head);
    forall i | 0 <= i < |s.ats|
      ensures Landed(sup[i]) <==> KeepsCredit(s, target, t, i) && Landed(s.ats[i])
      ensures Landed(sup[i]) ==> sup[i].commit == s.ats[i].commit
    {
      SupersededCredit(s, target, t, i);
    }
  }

  /** Steps that credit nothing and leave the ref alone. */
  lemma {:induction false} QuietStep(m: Machine, cap: nat, step: Step)
    requires OnHead(m) && InGraph(m.repo, m.run.ats)
    requires !step.Perform? && !step.ForceAdvance? && !step.BranchFix?
    ensures OnHead(Apply(m, cap, step))
  {
    var m' := Apply(m, cap, step);
    if step.OutsideCommit? {
      if step.parent <= |m.repo.parents| { AllOnGrows(m.repo.parents, step.parent, m.run.ats, m.repo.head); }
    } else {
      assert m'.repo == m.repo && |m'.run.ats| == |m.run.ats|;
      assert forall i :: 0 <= i < |m.run.ats| ==> m'.run.ats[i] == m.run.ats[i] || !Landed(m'.run.ats[i]);
    }
  }

  // ------------------------------------------------------------- every step

  /** A state on the branch stays on it exactly when the step's guard holds. */
  lemma {:induction false} StepExactly(m: Machine, cap: nat, step: Step)
    requires OnHead(m) && InGraph(m.repo, m.run.ats) && Progress(m)
    ensures OnHead(Apply(m, cap, step)) <==> HeadReaches(m, cap, step)
  {
    match step {
      case Perform(input) =>
        if m.phase.Executing? { PerformExactly(m.repo, m.run.ats, m.run.position, cap, input); }
      case ForceAdvance(sha, justification, refused) =>
        if ForceAllowed(m, sha, justification, refused) { ForceExactly(m, Apply(m, cap, step), cap, step); }
      case BranchFix(target, goal, maxBranches, rewound) =>
        if Staging(m) && BranchAllowed(m.run, target, maxBranches) {
          BranchExactly(m.repo, m.run, target, TargetIndex(m.run.ats, target), goal, rewound);
        }
      case _ => QuietStep(m, cap, step);
    }
  }

  /** Before an AT is run: it stays on the branch with every outcome whose commit is
      forwarded, exactly when it is safe to run. */
  lemma {:induction false} PerformSafely(m: Machine, cap: nat)
    requires OnHead(m) && InGraph(m.repo, m.run.ats) && Progress(m) && m.phase.Executing?
    ensures (forall inp :: Forwards(inp) ==> OnHead(Apply(m, cap, Perform(inp)))) <==>
            SafeToRun(m.repo, m.run.ats, m.run.position, cap)
  {
    forall inp ensures OnHead(Apply(m, cap, Perform(inp))) <==>
      LandsWell(m.repo, m.run.ats, m.run.position, cap, inp)
    {
      StepExactly(m, cap, Perform(inp));
    }
    LandsSafely(m.repo, m.run.ats, m.run.position, cap);
  }

  // --------------------------------------------------- no commit from nowhere

  lemma {:induction false} SupersededGraph(s: RunState, target: string, t: nat, i: nat)
    requires t < |s.ats| && i < |s.ats|
    ensures var q := Supersede(s, target, t)[i];
      && (q.parentSha == s.ats[i].parentSha || q.parentSha == 0)
      && (q.commit == s.ats[i].commit || q.commit == 0)
  {}

  lemma {:induction false} GraphInsert(repo: Repo, sup: seq<ATRecord>, t: nat, br: ATRecord)
    requires InGraph(repo, sup) && t <= |sup| && br.parentSha <= |repo.parents| && br.commit == 0
    ensures InGraph(repo, Renumber(InsertAt(sup, t, br)))
  {
    forall i | 0 <= i <= |sup|
      ensures Renumber(InsertAt(sup, t, br))[i].parentSha <= |repo.parents|
      ensures Renumber(InsertAt(sup, t, br))[i].commit <= |repo.parents|
    {
      InsertedAt(sup, t, br, i);
    }
  }

  lemma {:induction false} GraphBranch(repo: Repo, s: RunState, target: string, t: nat, goal: string, rewound: bool)
    requires InGraph(repo, s.ats) && t < |s.ats|
    ensures InGraph(RewoundRepo(repo, s, t, rewound), BranchedATs(s, target, t, goal))
  {
    var sup := Supersede(s, target, t);
    forall i | 0 <= i < |sup| ensures sup[i].parentSha <= |repo.parents| && sup[i].commit <= |repo.parents| {
      SupersededGraph(s, target, t, i);
    }
    GraphInsert(RewoundRepo(repo, s, t, rewound), sup, t, NewBranch(s, target, t, goal));
  }

  lemma {:induction false} GraphPerform(repo: Repo, ats: seq<ATRecord>, p: nat, cap: nat, inp: RunInput)
    requires InGraph(repo, ats) && p < |ats| && ats[p].status != ATSuccess
    ensures var e := Execute(ats[p], repo, cap, inp); InGraph(e.repo, ats[p := e.record])
  {
    ExecuteLanding(ats[p], repo, cap, inp, 0);
  }

  lemma {:induction false} GraphQuiet(m: Machine, cap: nat, step: Step)
    requires InGraph(m.repo, m.run.ats) && !step.Perform? && !step.BranchFix?
    ensures InGraph(Apply(m, cap, step).repo, Apply(m, cap, step).run.ats)
  {}

  lemma {:induction false} GraphStep(m: Machine, cap: nat, step: Step)
    requires InGraph(m.repo, m.run.ats) && Progress(m)
    ensures InGraph(Apply(m, cap, step).repo, Apply(m, cap, step).run.ats)
  {
    match step {
      case Perform(input) => if m.phase.Executing? { GraphPerform(m.repo, m.run.ats, m.run.position, cap, input); }
      case BranchFix(target, goal, maxBranches, rewound) =>
        if Staging(m) && BranchAllowed(m.run, target, maxBranches) {
          GraphBranch(m.repo, m.run, target, TargetIndex(m.run.ats, target), goal, rewound);
        }
      case _ => GraphQuiet(m, cap, step);
    }
  }

  lemma {:induction false} GraphAfter(c: Chain, steps: seq<Step>)
    requires c.Valid() && Sane(c.repo)
    ensures InGraph(c.After(steps).repo, c.After(steps).run.ats) && Progress(c.After(steps))
  {
    AfterStanding(c, steps);
    if steps != [] {
      var before := steps[..|steps| - 1];
      GraphAfter(c, before);
      GraphStep(c.After(before), c.cap, steps[|steps| - 1]);
    }
  }

  // ------------------------------------------------------------- whole runs

  ghost predicate AlwaysOnHead(c: Chain, steps: seq<Step>) {
    forall k :: 0 <= k <= |steps| ==> OnHead(c.After(steps[..k]))
  }

  ghost predicate AlwaysReaches(c: Chain, steps: seq<Step>) {
    forall k :: 0 <= k < |steps| ==> HeadReaches(c.After(steps[..k]), c.cap, steps[k])
  }

  /** In all states of a run every credited commit is on the integration branch, exactly
      when each step meets its guard in the state it finds. */
  lemma {:induction false} RunExactly(c: Chain, steps: seq<Step>)
    requires c.Valid() && Sane(c.repo)
    ensures AlwaysOnHead(c, steps) <==> AlwaysReaches(c, steps)
  {
    if steps == [] {
      StartOnHead(c);
    } else {
      RunExactly(c, steps[..|steps| - 1]);
      RunOneMore(c, steps, steps[..|steps| - 1]);
    }
  }

  lemma {:induction false} RunOneMore(c: Chain, steps: seq<Step>, before: seq<Step>)
    requires c.Valid() && Sane(c.repo) && steps != [] && before == steps[..|steps| - 1]
    requires AlwaysOnHead(c, before) <==> AlwaysReaches(c, before)
    ensures AlwaysOnHead(c, steps) <==> AlwaysReaches(c, steps)
  {
    PrefixStates(c, steps, before);
    LastStep(c, steps, before, c.After(before), c.After(steps));
  }

  lemma {:induction false} StartOnHead(c: Chain)
    ensures AlwaysOnHead(c, []) && AlwaysReaches(c, [])
  {
    assert OnHead(c.After([]));
  }

  lemma {:induction false} LastStep(c: Chain, steps: seq<Step>, before: seq<Step>, m: Machine, m': Machine)
    requires c.Valid() && Sane(c.repo) && steps != [] && before == steps[..|steps| - 1]
    requires m == c.After(before) && m' == c.After(steps)
    ensures OnHead(m) ==> (OnHead(m') <==> HeadReaches(m, c.cap, steps[|steps| - 1]))
  {
    GraphAfter(c, before);
    AfterMore(c, before, steps[|steps| - 1]);
    assert before + [steps[|steps| - 1]] == steps;
    if OnHead(m) { StepExactly(m, c.cap, steps[|steps| - 1]); }
  }

  lemma {:induction false} PrefixStates(c: Chain, steps: seq<Step>, before: seq<Step>)
    requires steps != [] && before == steps[..|steps| - 1]
    ensures AlwaysOnHead(c, steps) <==> AlwaysOnHead(c, before) && OnHead(c.After(steps))
    ensures AlwaysReaches(c, steps) <==>
      AlwaysReaches(c, before) && HeadReaches(c.After(before), c.cap, steps[|steps| - 1])
    ensures AlwaysOnHead(c, before) ==> OnHead(c.After(before))
  {
    var n := |steps| - 1;
    assert before[..n] == before;
    assert forall k :: 0 <= k <= n ==> before[..k] == steps[..k];
    assert steps[..n + 1] == steps;
  }
}
