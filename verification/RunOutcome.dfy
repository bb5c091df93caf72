/** How an AT run ends and what it leaves, from its inputs alone
    (internal/coding/orchestrator.go). */
module RunOutcome {
  import opened CodingTypes
  import opened WorkerGate

  // -------------------------------------------------- how it ends

  /** The worktree is there: inputs, worktree and oracle seed were no obstacle. */
  predicate Opened(r: ATRecord, inp: RunInput) {
    inp.inputsError.None? && inp.openError.None? && !(r.spec.hasOracles && inp.seed.SeedFailed?)
  }

  predicate Entered(r: ATRecord, cap: nat, inp: RunInput) {
    Opened(r, inp) && !NoWorker(r, inp) && !CapReached(r, cap)
  }

  /** The worker loop was entered and ended with this status. */
  ghost predicate LoopStatus(spec: AtomicTask, attempt: nat -> Attempt, w: WorkerStatus) {
    || (exists k: nat :: FirstEnd(spec, attempt, 1, k) && EndsWith(spec, attempt(k), w))
    || (AllAskAgain(spec, attempt)
        && w == if spec.kind == Deterministic then WorkerGateFailure else WorkerMaxIterationsExhausted)
  }

  ghost predicate AllAskAgain(spec: AtomicTask, attempt: nat -> Attempt) {
    forall k :: 1 <= k <= AttemptBudget(spec) ==> AsksAgain(spec, attempt(k))
  }

  ghost predicate Credits(r: ATRecord, cap: nat, inp: RunInput) {
    Entered(r, cap, inp) && Credited(r.spec, inp.attempt, 1)
  }

  /** What must have been met for an AT run to end with this worker status. */
  ghost predicate RunEndsWith(r: ATRecord, cap: nat, inp: RunInput, w: WorkerStatus) {
    match w
    case WorkerSuccess => Succeeds(r, cap, inp)
    case WorkerRespawnCapReached => Opened(r, inp) && !NoWorker(r, inp) && CapReached(r, cap)
    case WorkerVerifierError => Credits(r, cap, inp) && inp.verify.VerifierFailed?
    case WorkerVerifierRejected => Credits(r, cap, inp) && inp.verify.Report? && !VerifierAccepts(r.spec, inp.verify)
    case WorkerOutputContractViolation =>
      Credits(r, cap, inp) && VerifierAccepts(r.spec, inp.verify) && inp.contract.Violated?
    case WorkerCommandError =>
      || !Opened(r, inp) || NoWorker(r, inp)
      || (Entered(r, cap, inp) && LoopStatus(r.spec, inp.attempt, w))
      || (Credits(r, cap, inp) && VerifierAccepts(r.spec, inp.verify)
          && inp.contract.Satisfied? && inp.commit.CommitFailed?)
    case _ => Entered(r, cap, inp) && LoopStatus(r.spec, inp.attempt, w)
  }

  /** The first attempt that does not ask for another, if there is one. */
  lemma {:induction false} FindEnd(spec: AtomicTask, attempt: nat -> Attempt, iter: nat) returns (k: nat)
    requires 1 <= iter <= AttemptBudget(spec) + 1
    ensures FirstEnd(spec, attempt, iter, k)
         || forall j :: iter <= j <= AttemptBudget(spec) ==> AsksAgain(spec, attempt(j))
    decreases AttemptBudget(spec) + 1 - iter
  {
    k := iter;
    if iter <= AttemptBudget(spec) && AsksAgain(spec, attempt(iter)) {
      k := FindEnd(spec, attempt, iter + 1);
    }
  }

  lemma {:induction false} EndsWithOne(spec: AtomicTask, a: Attempt, v: WorkerStatus, w: WorkerStatus)
    requires EndsWith(spec, a, v) && EndsWith(spec, a, w)
    ensures v == w
  {
    JudgeEnds(spec, a, v);
    JudgeEnds(spec, a, w);
  }

  lemma {:induction false} OneFirstEnd(spec: AtomicTask, attempt: nat -> Attempt, i: nat, k: nat)
    requires FirstEnd(spec, attempt, 1, i) && FirstEnd(spec, attempt, 1, k)
    ensures i == k
  {}

  lemma {:induction false} LoopStatusOne(spec: AtomicTask, attempt: nat -> Attempt, v: WorkerStatus, w: WorkerStatus)
    requires LoopStatus(spec, attempt, v) && LoopStatus(spec, attempt, w)
    ensures v == w
  {
    if !AllAskAgain(spec, attempt) {
      var k: nat :| FirstEnd(spec, attempt, 1, k) && EndsWith(spec, attempt(k), v);
      var i: nat :| FirstEnd(spec, attempt, 1, i) && EndsWith(spec, attempt(i), w);
      OneFirstEnd(spec, attempt, i, k);
      EndsWithOne(spec, attempt(k), v, w);
    }
  }

  /** The worker loop ends with the status its first ending attempt gives. */
  lemma {:induction false} LoopStatusExactly(spec: AtomicTask, attempt: nat -> Attempt, tier: string, last: string,
                                             w: WorkerStatus)
    ensures WorkerFrom(spec, attempt, 1, "", tier, last).status == w <==> LoopStatus(spec, attempt, w)
  {
    var end := WorkerFrom(spec, attempt, 1, "", tier, last);
    var k := FindEnd(spec, attempt, 1);
    WorkerLoopEnds(spec, attempt, 1, "", tier, last);
    if FirstEnd(spec, attempt, 1, k) {
      assert EndedBy(spec, attempt, 1, k, tier, last, end);
    } else {
      assert AllAskAgain(spec, attempt);
    }
    assert LoopStatus(spec, attempt, end.status);
    if LoopStatus(spec, attempt, w) { LoopStatusOne(spec, attempt, w, end.status); }
  }

  lemma {:induction false} WorkEndsExactly(r: ATRecord, cap: nat, inp: RunInput, w: WorkerStatus)
    ensures Work(r, cap, inp).0.status == w <==>
      if NoWorker(r, inp) then w == WorkerCommandError
      else if CapReached(r, cap) then w == WorkerRespawnCapReached
      else LoopStatus(r.spec, inp.attempt, w)
  {
    LoopStatusExactly(r.spec, inp.attempt, r.highestTier, r.lastDiagnostic, w);
  }

  /** From the worktree on, with nothing in the way of opening it. */
  lemma {:induction false} LandEndsExactly(r: ATRecord, repo: Repo, cap: nat, inp: RunInput, w: WorkerStatus)
    requires Opened(r, inp)
    ensures WorkAndLand(r, repo, cap, inp).record.worker == w <==> RunEndsWith(r, cap, inp, w)
  {
    WorkEndsExactly(r, cap, inp, w);
    WorkExactly(r, cap, inp);
    VerifyExactly(r.spec, inp.verify);
    if Entered(r, cap, inp) { LoopCredit(r.spec, inp.attempt); }
  }

  lemma {:induction false} LoopCredit(spec: AtomicTask, attempt: nat -> Attempt)
    ensures LoopStatus(spec, attempt, WorkerSuccess) <==> Credited(spec, attempt, 1)
  {
    LoopStatusExactly(spec, attempt, "", "", WorkerSuccess);
    WorkerCreditExactly(spec, attempt, 1, "", "", "");
  }

  /** Forking and seeding leave what decides the status alone. */
  lemma {:induction false} SameEnds(r: ATRecord, q: ATRecord, cap: nat, inp: RunInput, w: WorkerStatus)
    requires q.spec == r.spec && q.respawns == r.respawns
    ensures RunEndsWith(q, cap, inp, w) <==> RunEndsWith(r, cap, inp, w)
  {}

  /** An AT run ends with the worker status its inputs say. */
  lemma {:induction false} ExecuteEndsExactly(r: ATRecord, repo: Repo, cap: nat, inp: RunInput, w: WorkerStatus)
    ensures Execute(r, repo, cap, inp).record.worker == w <==> RunEndsWith(r, cap, inp, w)
  {
    if Opened(r, inp) {
      var worktree := CaptureFork(r, repo, inp).(worktree := inp.dir);
      var q, repo' := SeedRecord(worktree, repo, inp), SeedRepo(worktree, repo, inp);
      assert Execute(r, repo, cap, inp) == WorkAndLand(q, repo', cap, inp);
      LandEndsExactly(q, repo', cap, inp, w);
      SameEnds(r, q, cap, inp, w);
    }
  }

  // --------------------------------------------------- what an AT run leaves

  /** The oracle was committed before the work. */
  predicate Seeds(r: ATRecord, inp: RunInput) { Opened(r, inp) && r.spec.hasOracles && inp.seed.SeedCommitted? }

  /** Where the work starts: at the seeded oracle, else at the fork point, captured on the
      first run. */
  function StartOf(r: ATRecord, repo: Repo, inp: RunInput): Sha {
    if Seeds(r, inp) then |repo.parents| + 1 else if r.parentSha == 0 then repo.head else r.parentSha
  }

  /** The output contract was reached and met. */
  ghost predicate Produces(r: ATRecord, cap: nat, inp: RunInput) {
    Credits(r, cap, inp) && VerifierAccepts(r.spec, inp.verify) && inp.contract.Satisfied?
  }

  /** A failed run leaves HEAD and commit as they were and adds at most the oracle; it has
      new outputs exactly when only the commit failed. */
  ghost predicate LeftFailed(r: ATRecord, repo: Repo, cap: nat, inp: RunInput, q: ATRecord, repo': Repo) {
    && q.status == ATFailed && q.commit == r.commit
    && q.outputs == (if Produces(r, cap, inp) then inp.contract.outputs else r.outputs)
    && repo'.head == repo.head
    && repo'.parents == repo.parents + if Seeds(r, inp) then [Tip(repo, r.parentSha)] else []
  }

  /** A successful one holds its outputs and no worktree; its commit stands on the start,
      and HEAD moves to it when it is forwarded; without one it credits HEAD, if known. */
  ghost predicate LeftCredited(r: ATRecord, repo: Repo, inp: RunInput, q: ATRecord, repo': Repo)
    requires inp.contract.Satisfied? && !inp.commit.CommitFailed?
  {
    var seeds := if Seeds(r, inp) then [Tip(repo, r.parentSha)] else [];
    && q.status == ATSuccess && q.outputs == inp.contract.outputs && q.worktree == ""
    && match inp.commit
       case Committed(forwarded) =>
         && repo'.parents == repo.parents + seeds + [StartOf(r, repo, inp)]
         && q.commit == |repo'.parents| && repo'.head == if forwarded then q.commit else repo.head
       case NothingToCommit(headKnown) =>
         && repo'.parents == repo.parents + seeds && repo'.head == repo.head
         && q.commit == if headKnown then repo.head else r.commit
  }

  /** The fork point is captured once, and moved on by the oracle. */
  predicate Forked(r: ATRecord, repo: Repo, inp: RunInput, fork: Sha) {
    fork == if inp.inputsError.Some? then r.parentSha
            else if Seeds(r, inp) then |repo.parents| + 1
            else if r.parentSha == 0 && inp.headKnown then repo.head else r.parentSha
  }

  lemma {:induction false} LandEffects(r: ATRecord, repo: Repo, cap: nat, inp: RunInput)
    requires Opened(r, inp)
    ensures var e := WorkAndLand(r, repo, cap, inp);
      && e.record.parentSha == r.parentSha
      && if !Succeeds(r, cap, inp) then
           && e.record.status == ATFailed && e.record.commit == r.commit && e.repo == repo
           && e.record.outputs == if Produces(r, cap, inp) then inp.contract.outputs else r.outputs
         else
           && e.record.status == ATSuccess && e.record.outputs == inp.contract.outputs && e.record.worktree == ""
           && match inp.commit
              case Committed(forwarded) =>
                && e.repo.parents == repo.parents + [Tip(repo, r.parentSha)] && e.record.commit == |e.repo.parents|
                && e.repo.head == if forwarded then e.record.commit else repo.head
              case NothingToCommit(headKnown) =>
                e.repo == repo && e.record.commit == if headKnown then repo.head else r.commit
  {
    WorkAndLandExactly(r, repo, cap, inp);
    WorkExactly(r, cap, inp);
    VerifyExactly(r.spec, inp.verify);
  }

  /** What an AT run does to record, graph and HEAD, from its inputs. */
  lemma {:induction false} ExecuteEffects(r: ATRecord, repo: Repo, cap: nat, inp: RunInput)
    ensures var e := Execute(r, repo, cap, inp);
      && Forked(r, repo, inp, e.record.parentSha)
      && if Succeeds(r, cap, inp) then LeftCredited(r, repo, inp, e.record, e.repo)
         else LeftFailed(r, repo, cap, inp, e.record, e.repo)
  {
    if Opened(r, inp) {
      var worktree := CaptureFork(r, repo, inp).(worktree := inp.dir);
      LandEffects(SeedRecord(worktree, repo, inp), SeedRepo(worktree, repo, inp), cap, inp);
    }
  }

  // ------------------------------------------------------- what it reports

  /** The diagnostic of the stage that failed. */
  ghost predicate Explains(r: ATRecord, cap: nat, inp: RunInput, told: string) {
    && (inp.inputsError.Some? ==> told == inp.inputsError.value)
    && (inp.inputsError.None? && inp.openError.Some? ==> told == "open workspace: " + inp.openError.value)
    && (inp.inputsError.None? && inp.openError.None? && r.spec.hasOracles && inp.seed.SeedFailed? ==>
          told == "seed oracle: " + inp.seed.message)
    && (Opened(r, inp) && NoWorker(r, inp) ==> told == "no worker wired")
    && (Opened(r, inp) && !NoWorker(r, inp) && CapReached(r, cap) ==> told == inp.stuckVerdict)
    && (Credits(r, cap, inp) && !VerifierAccepts(r.spec, inp.verify) ==> told == inp.verifyDiagnostic)
    && (Credits(r, cap, inp) && VerifierAccepts(r.spec, inp.verify) && inp.contract.Violated? ==>
          told == inp.contract.message)
    && (Produces(r, cap, inp) && inp.commit.CommitFailed? ==> told == "commit: " + inp.commit.message)
    && (Succeeds(r, cap, inp) ==> told == "")
  }

  /** The record holds what the worker loop reports, under the verdict of a later stage. */
  ghost predicate Reports(r: ATRecord, cap: nat, inp: RunInput, q: ATRecord) {
    if Entered(r, cap, inp) then
      LoopEnds(r.spec, inp.attempt, 1, r.highestTier, r.lastDiagnostic,
               WorkerEnd(if Credits(r, cap, inp) then WorkerSuccess else q.worker,
                         if Credits(r, cap, inp) then "" else q.diagnostic,
                         q.iterations, q.flags, q.highestTier, q.lastDiagnostic))
    else q.highestTier == r.highestTier && q.lastDiagnostic == r.lastDiagnostic
  }

  lemma {:induction false} CreditSilent(spec: AtomicTask, attempt: nat -> Attempt, tier: string, last: string)
    requires Credited(spec, attempt, 1)
    ensures WorkerFrom(spec, attempt, 1, "", tier, last).diagnostic == ""
  {
    var k: nat :| CreditedAt(spec, attempt, 1, k);
    assert FirstEnd(spec, attempt, 1, k);
    WorkerLoopEnds(spec, attempt, 1, "", tier, last);
    assert EndedBy(spec, attempt, 1, k, tier, last, WorkerFrom(spec, attempt, 1, "", tier, last));
  }

  lemma {:induction false} LandReports(r: ATRecord, repo: Repo, cap: nat, inp: RunInput)
    requires Opened(r, inp)
    ensures var q := WorkAndLand(r, repo, cap, inp).record;
      Explains(r, cap, inp, q.diagnostic) && Reports(r, cap, inp, q)
  {
    WorkExactly(r, cap, inp);
    VerifyExactly(r.spec, inp.verify);
    if Entered(r, cap, inp) {
      WorkerLoopEnds(r.spec, inp.attempt, 1, "", r.highestTier, r.lastDiagnostic);
      if Credits(r, cap, inp) { CreditSilent(r.spec, inp.attempt, r.highestTier, r.lastDiagnostic); }
    }
  }

  lemma {:induction false} SameReports(r: ATRecord, p: ATRecord, cap: nat, inp: RunInput, q: ATRecord)
    requires p.spec == r.spec && p.respawns == r.respawns
    requires p.highestTier == r.highestTier && p.lastDiagnostic == r.lastDiagnostic
    ensures Reports(p, cap, inp, q) <==> Reports(r, cap, inp, q)
    ensures Explains(p, cap, inp, q.diagnostic) <==> Explains(r, cap, inp, q.diagnostic)
  {}

  /** What an AT run reports: the failed stage's diagnostic, and the worker loop's count,
      flags, tier and last real diagnostic. */
  lemma {:induction false} ExecuteReports(r: ATRecord, repo: Repo, cap: nat, inp: RunInput)
    ensures var q := Execute(r, repo, cap, inp).record;
      Explains(r, cap, inp, q.diagnostic) && Reports(r, cap, inp, q)
  {
    if Opened(r, inp) {
      var worktree := CaptureFork(r, repo, inp).(worktree := inp.dir);
      var p, repo' := SeedRecord(worktree, repo, inp), SeedRepo(worktree, repo, inp);
      assert Execute(r, repo, cap, inp) == WorkAndLand(p, repo', cap, inp);
      LandReports(p, repo', cap, inp);
      SameReports(r, p, cap, inp, WorkAndLand(p, repo', cap, inp).record);
    }
  }

  /** All of it: how a run of `r` ended as `q`, and what it left. */
  ghost predicate RunLeft(r: ATRecord, repo: Repo, cap: nat, inp: RunInput, q: ATRecord, repo': Repo) {
    && SameIdentity(q, r) && RunEndsWith(r, cap, inp, q.worker)
    && Explains(r, cap, inp, q.diagnostic) && Reports(r, cap, inp, q)
    && Forked(r, repo, inp, q.parentSha)
    && (q.status == ATSuccess <==> Succeeds(r, cap, inp))
    && if Succeeds(r, cap, inp) then LeftCredited(r, repo, inp, q, repo') else LeftFailed(r, repo, cap, inp, q, repo')
  }

  lemma {:induction false} ExecuteLeaves(r: ATRecord, repo: Repo, cap: nat, inp: RunInput)
    ensures RunLeft(r, repo, cap, inp, Execute(r, repo, cap, inp).record, Execute(r, repo, cap, inp).repo)
  {
    ExecuteSound(r, repo, cap, inp);
    ExecuteExactly(r, repo, cap, inp);
    ExecuteEndsExactly(r, repo, cap, inp, Execute(r, repo, cap, inp).record.worker);
    ExecuteReports(r, repo, cap, inp);
    ExecuteEffects(r, repo, cap, inp);
  }
}
