/** The outcomes with which an AT run succeeds, whatever the AT, and when none do
    (internal/coding/orchestrator.go). */
module CleanRun {
  import opened Text
  import opened CodingTypes
  import opened WorkerGate

  const CLEAN := Attempt("", None, [], Runnable, (k: nat) => 0, "", NothingFound, NothingFound, None)

  /** Everything succeeds, and the branch ref moves. */
  const WORKS := RunInput(None, true, None, "", SeedUnchanged, true, "", (k: nat) => CLEAN, NoVerifier, "",
                          Satisfied(map[]), Committed(true))

  lemma {:induction false} CleanPasses(spec: AtomicTask, tier: string, diagnostic: string)
    requires spec.gate != []
    ensures WorkerFrom(spec, WORKS.attempt, 1, "", tier, diagnostic).status == WorkerSuccess
  {
    assert CreditedAt(spec, WORKS.attempt, 1, 1);
    WorkerCreditExactly(spec, WORKS.attempt, 1, "", tier, diagnostic);
  }

  /** A gate to pass and a respawn left. */
  predicate CanSucceed(r: ATRecord, cap: nat) { r.spec.gate != [] && !CapReached(r, cap) }

  lemma {:induction false} SucceedsOnlyIf(r: ATRecord, cap: nat, inp: RunInput)
    requires Succeeds(r, cap, inp)
    ensures CanSucceed(r, cap)
  {}

  /** With a gate and a respawn left this run succeeds, with any commit outcome but a
      failed one; otherwise no run does. */
  lemma {:induction false} CanSucceedExactly(r: ATRecord, cap: nat, commit: CommitInput)
    requires !commit.CommitFailed?
    ensures Succeeds(r, cap, WORKS.(commit := commit)) <==> CanSucceed(r, cap)
  {
    if CanSucceed(r, cap) {
      assert CreditedAt(r.spec, WORKS.attempt, 1, 1);
    } else if Succeeds(r, cap, WORKS.(commit := commit)) {
      SucceedsOnlyIf(r, cap, WORKS.(commit := commit));
    }
  }
}
