/** What each intervention does to the run state and the integration branch, field by field
    (internal/coding/staging.go, intervene.go, state.go). */
module StepEffects {
  import opened Text
  import opened CodingTypes
  import opened WorkerGate
  import opened ChainMachine
  import opened ChainStanding
  import opened RunOutcome

  // ------------------------------------------------------------- one record

  /** A record made ready to run again: what its last run left is gone; tier, respawn count,
      last real diagnostic and fork point stay. */
  predicate ResetOf(r: ATRecord, q: ATRecord) {
    q == ATRecord(r.slug, r.spec, r.position, ATPending, 0, map[], 0, WorkerNone, "", "", [], r.highestTier,
                  r.respawns, r.lastDiagnostic, r.parentSlug, r.branchIndex, r.parentSha)
  }

  /** The record at `p` became `q`, and no other changed. */
  predicate OnlyAt(ats: seq<ATRecord>, ats': seq<ATRecord>, p: int) {
    && 0 <= p < |ats| == |ats'|
    && forall i :: 0 <= i < |ats| && i != p ==> ats'[i] == ats[i]
  }

  /** Nothing runs until a resume, which starts at `next`. */
  predicate PendingAt(s: RunState, s': RunState, next: int) {
    s'.meta == s.meta && s'.status == ChainPending && s'.failedSlug == "" && s'.position == next
  }

  // ------------------------------------------------------- the small steps

  predicate Retried(s: RunState, s': RunState) {
    && PendingAt(s, s', s.position) && OnlyAt(s.ats, s'.ats, s.position)
    && ResetOf(s.ats[s.position], s'.ats[s.position])
  }

  predicate Skipped(s: RunState, s': RunState) {
    && PendingAt(s, s', s.position + 1) && OnlyAt(s.ats, s'.ats, s.position)
    && s'.ats[s.position] == s.ats[s.position].(status := ATSkipped)
  }

  predicate AbortedTo(s: RunState, s': RunState) { s' == s.(status := ChainAborted) }

  /** The new goal, and the new workspace if one is given; otherwise a retry. */
  predicate EditedTo(s: RunState, s': RunState, goal: string, workspace: Option<seq<string>>) {
    && PendingAt(s, s', s.position) && OnlyAt(s.ats, s'.ats, s.position)
    && var r, q := s.ats[s.position], s'.ats[s.position];
       && q.spec.goal == goal
       && q.spec.workspace == (if workspace.Some? then workspace.value else r.spec.workspace)
       && r.spec == q.spec.(goal := r.spec.goal, workspace := r.spec.workspace)
       && ResetOf(r, q.(spec := r.spec))
  }

  /** The commit is credited and the ref moved to it; the next AT runs afresh. */
  predicate ForcedTo(s: RunState, s': RunState, head: Sha, sha: Sha, justification: string) {
    var p := s.position;
    && PendingAt(s, s', p + 1) && 0 <= p < |s.ats| == |s'.ats| && head == sha
    && s'.ats[p].commit == sha && s'.ats[p].status == ATSuccess && s'.ats[p].worker == WorkerForceAdvance
    && s'.ats[p].diagnostic == "force_advance: " + justification && s'.ats[p].worktree == ""
    && s.ats[p] == s'.ats[p].(commit := s.ats[p].commit, status := s.ats[p].status, worker := s.ats[p].worker,
                              diagnostic := s.ats[p].diagnostic, worktree := s.ats[p].worktree)
    && (p + 1 < |s.ats| ==> ResetOf(s.ats[p + 1], s'.ats[p + 1]))
    && forall i :: 0 <= i < |s.ats| && i != p && i != p + 1 ==> s'.ats[i] == s.ats[i]
  }

  lemma {:induction false} RetryDoes(m: Machine, m': Machine, cap: nat, step: Step)
    requires Staging(m) && HasCurrent(m.run) && step == Retry && m' == Apply(m, cap, step)
    ensures Retried(m.run, m'.run) && m'.repo == m.repo
  {}

  lemma {:induction false} SkipDoes(m: Machine, m': Machine, cap: nat, step: Step)
    requires Staging(m) && HasCurrent(m.run) && step == Skip && m' == Apply(m, cap, step)
    ensures Skipped(m.run, m'.run) && m'.repo == m.repo
  {}

  lemma {:induction false} EditDoes(m: Machine, m': Machine, cap: nat, step: Step)
    requires Staging(m) && HasCurrent(m.run) && step.Edit? && !Blank(step.goal) && m' == Apply(m, cap, step)
    ensures EditedTo(m.run, m'.run, step.goal, step.workspace) && m'.repo == m.repo
  {}

  lemma {:induction false} ForceDoes(m: Machine, m': Machine, cap: nat, step: Step)
    requires step.ForceAdvance? && ForceAllowed(m, step.sha, step.justification, step.refused)
    requires m' == Apply(m, cap, step)
    ensures ForcedTo(m.run, m'.run, m'.repo.head, step.sha, step.justification)
    ensures m'.repo.parents == m.repo.parents
  {}

  lemma {:induction false} ForceIfDoes(m: Machine, cap: nat, step: Step)
    requires step.ForceAdvance?
    ensures var m' := Apply(m, cap, step);
      if ForceAllowed(m, step.sha, step.justification, step.refused)
      then ForcedTo(m.run, m'.run, m'.repo.head, step.sha, step.justification) && m'.repo.parents == m.repo.parents
      else m' == m
  {
    if ForceAllowed(m, step.sha, step.justification, step.refused) { ForceDoes(m, Apply(m, cap, step), cap, step); }
  }

  // ------------------------------------------------------------ branch_fix

  /** The branch: the target's task under a new slug and goal, fork point included, as yet
      untouched. */
  predicate BranchOf(r: ATRecord, q: ATRecord, t: nat, goal: string, n: nat) {
    && q.slug == q.spec.slug == r.slug + "-fix" + Decimal(n) && q.spec.goal == goal
    && r.spec == q.spec.(slug := r.spec.slug, goal := r.spec.goal)
    && q == ATRecord(q.slug, q.spec, t, ATPending, 0, map[], 0, WorkerNone, "", "", [], "", 0, "",
                     r.slug, n, r.parentSha)
  }

  /** Superseded: without commit, and skipped. */
  predicate SupersededTo(r: ATRecord, q: ATRecord) {
    q.commit == 0 && q.status == ATSkipped && r == q.(commit := r.commit, status := r.status, position := r.position)
  }

  /** What happens to the record at `i`: the target and its branches are superseded, the
      current AT is made to run and fork afresh when the branch ref is to be rewound. */
  predicate BranchedFrom(s: RunState, t: nat, target: string, i: nat, q: ATRecord)
    requires t < |s.ats| && i < |s.ats|
  {
    var r := s.ats[i];
    var rewinds := t != s.position && s.ats[t].commit != 0 && i == s.position;
    var superseded := i == t || r.parentSlug == target;
    && (superseded && !rewinds ==> SupersededTo(r, q))
    && (!superseded && !rewinds ==> q == r.(position := q.position))
    && (!superseded && rewinds ==> q.parentSha == 0 && ResetOf(r, q.(position := r.position, parentSha := r.parentSha)))
    && (superseded && rewinds ==>
          && q.parentSha == 0 && q.commit == 0 && q.status == ATSkipped
          && ResetOf(r, q.(status := ATPending, position := r.position, parentSha := r.parentSha)))
  }

  /** The branch stands in the target's place, where the run goes on; everything from the
      target on has moved one up. */
  predicate BranchedTo(s: RunState, s': RunState, target: string, t: nat, n: nat, goal: string) {
    && t < |s.ats| && |s'.ats| == |s.ats| + 1 && PendingAt(s, s', t)
    && BranchOf(s.ats[t], s'.ats[t], t, goal, n)
    && (forall i :: 0 <= i < t ==> BranchedFrom(s, t, target, i, s'.ats[i]))
    && (forall i :: t < i < |s'.ats| ==> BranchedFrom(s, t, target, i - 1, s'.ats[i]))
    && forall i :: 0 <= i < |s'.ats| ==> s'.ats[i].position == i
  }

  /** The ref goes back to the target's fork point when the target holds a commit and is not
      the current AT, if git lets it. */
  predicate RefBranched(s: RunState, t: nat, repo: Repo, repo': Repo, rewound: bool)
    requires t < |s.ats|
  {
    && repo'.parents == repo.parents
    && repo'.head ==
       if t != s.position && s.ats[t].commit != 0 && rewound && s.ats[t].parentSha != 0 then s.ats[t].parentSha
       else repo.head
  }

  lemma {:induction false} SupersededFrom(s: RunState, target: string, t: nat, i: nat, j: nat)
    requires t < |s.ats| && i < |s.ats|
    ensures BranchedFrom(s, t, target, i, Supersede(s, target, t)[i].(position := j))
  {}

  lemma {:induction false} BranchedRecords(s: RunState, target: string, t: nat, goal: string, live: seq<ATRecord>,
                                           s': RunState)
    requires t < |s.ats| && live == BranchedATs(s, target, t, goal) && s'.ats == live && PendingAt(s, s', t)
    ensures BranchedTo(s, s', target, t, |BranchSlugs(s.ats, target)| + 1, goal)
  {
    var sup, br := Supersede(s, target, t), NewBranch(s, target, t, goal);
    InsertedAt(sup, t, br, t);
    forall i | 0 <= i < t ensures BranchedFrom(s, t, target, i, live[i]) {
      InsertedAt(sup, t, br, i);
      SupersededFrom(s, target, t, i, i);
    }
    forall i | t < i < |live| ensures BranchedFrom(s, t, target, i - 1, live[i]) {
      InsertedAt(sup, t, br, i);
      SupersededFrom(s, target, t, i - 1, i);
    }
  }

  lemma {:induction false} BranchDoes(m: Machine, m': Machine, cap: nat, step: Step, t: nat)
    requires step.BranchFix? && Staging(m) && BranchAllowed(m.run, step.target, step.maxBranches)
    requires m' == Apply(m, cap, step) && t == TargetIndex(m.run.ats, step.target)
    ensures BranchedTo(m.run, m'.run, step.target, t, |BranchSlugs(m.run.ats, step.target)| + 1, step.goal)
    ensures RefBranched(m.run, t, m.repo, m'.repo, step.rewound)
  {
    BranchedRecords(m.run, step.target, t, step.goal, m'.run.ats, m'.run);
  }

  // -------------------------------------------------- one round of the loop

  /** An AT was run: its record is what the run left, and the chain goes on behind it or
      stops at it as failed. */
  ghost predicate RanOne(s: RunState, s': RunState, repo: Repo, repo': Repo, cap: nat, inp: RunInput) {
    && OnlyAt(s.ats, s'.ats, s.position)
    && var r, q := s.ats[s.position].(status := ATRunning), s'.ats[s.position];
       && RunLeft(r, repo, cap, inp, q, repo')
       && s' == s.(ats := s'.ats,
                   position := if q.status == ATSuccess then s.position + 1 else s.position,
                   status := if q.status == ATSuccess then s.status else ChainFailed,
                   failedSlug := if q.status == ATSuccess then s.failedSlug else q.slug)
  }

  /** A pause stops the loop, a resolved AT is passed over, an open one is run. */
  ghost predicate RoundDid(s: RunState, s': RunState, repo: Repo, repo': Repo, cap: nat, r: RoundInput)
    requires 0 <= s.position < |s.ats|
  {
    if r.pause then s' == s.(status := ChainPaused) && repo' == repo
    else if s.ats[s.position].Resolved() then s' == s.(position := s.position + 1) && repo' == repo
    else RanOne(s, s', repo, repo', cap, r.run)
  }

  lemma {:induction false} LooksAt(m: Machine, m1: Machine, cap: nat, look: Step)
    requires m.phase.Driving? && HasCurrent(m.run) && look.Look? && m1 == Apply(m, cap, look)
    ensures m1.repo == m.repo
    ensures look.pause ==> m1.run == m.run.(status := ChainPaused) && m1.phase.Idle?
    ensures !look.pause && Current(m.run).Resolved() ==>
      m1.run == m.run.(position := m.run.position + 1) && m1.phase.Driving?
    ensures !look.pause && !Current(m.run).Resolved() ==>
      && m1.phase.Executing?
      && m1.run == m.run.(ats := m.run.ats[m.run.position := Current(m.run).(status := ATRunning)])
  {}

  lemma {:induction false} PerformsAndSettles(m: Machine, m1: Machine, m2: Machine, cap: nat, perform: Step,
                                              settle: Step)
    requires m.phase.Executing? && HasCurrent(m.run) && perform.Perform? && settle == Settle
    requires m1 == Apply(m, cap, perform) && m2 == Apply(m1, cap, settle)
    ensures var e := Execute(Current(m.run), m.repo, cap, perform.input);
      var ok := e.record.status == ATSuccess;
      && m2.repo == e.repo
      && m2.run == m.run.(ats := m.run.ats[m.run.position := e.record],
                          position := if ok then m.run.position + 1 else m.run.position,
                          status := if ok then m.run.status else ChainFailed,
                          failedSlug := if ok then m.run.failedSlug else e.record.slug)
  {
    var r := Execute(Current(m.run), m.repo, cap, perform.input).record;
    assert m1.run == m.run.(ats := m.run.ats[m.run.position := r]);
  }

  lemma {:induction false} RoundDoes(m: Machine, cap: nat, r: RoundInput)
    requires m.phase.Driving? && HasCurrent(m.run)
    ensures RoundDid(m.run, DriveRound(m, cap, r).run, m.repo, DriveRound(m, cap, r).repo, cap, r)
  {
    var look, perform, settle := Look(r.pause), Perform(r.run), Settle;
    var m1 := Apply(m, cap, look);
    LooksAt(m, m1, cap, look);
    if m1.phase.Executing? {
      var m2 := Apply(m1, cap, perform);
      PerformsAndSettles(m1, m2, Apply(m2, cap, settle), cap, perform, settle);
      ExecuteLeaves(Current(m1.run), m1.repo, cap, r.run);
    }
  }
}
