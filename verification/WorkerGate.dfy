/** One AT run: the orchestrator-owned gate, the worker loop, the verify phase, and the
    commit onto the integration branch (internal/coding/gate.go, orchestrator.go,
    verifier.go, repo_git.go). Workers, commands, the verifier and git are inputs. */
module WorkerGate {
  import opened Text
  import opened CodingTypes

  // -------------------------------------------------------------------- gate

  datatype GateResult = GateResult(passed: bool, codes: seq<int>, diagnostic: string)

  ghost predicate AllZero(exits: nat -> int, n: nat) {
    forall i: nat :: i < n ==> exits(i) == 0
  }

  /** The exit codes collected from command `from` on: stop at the first non-zero one. */
  function GateCodes(exits: nat -> int, from: nat, n: nat): (codes: seq<int>)
    decreases n - from
  {
    if from >= n then []
    else if exits(from) != 0 then [exits(from)]
    else [0] + GateCodes(exits, from + 1, n)
  }

  function GateOutcome(gate: seq<seq<string>>, exits: nat -> int, diagnostic: string): GateResult {
    var codes := GateCodes(exits, 0, |gate|);
    var failed := codes != [] && codes[|codes| - 1] != 0;
    GateResult(codes != [] && !failed, codes, if failed then diagnostic else "")
  }

  lemma {:induction false} GateCodesExact(exits: nat -> int, from: nat, n: nat)
    requires from <= n
    ensures var codes := GateCodes(exits, from, n);
      && |codes| <= n - from
      && (codes != [] <==> from < n)
      && (forall i :: 0 <= i < |codes| ==> codes[i] == exits(from + i))
      && (forall i :: 0 <= i < |codes| - 1 ==> codes[i] == 0)
      && ((codes == [] || codes[|codes| - 1] == 0) <==> forall i :: from <= i < n ==> exits(i) == 0)
      && ((codes == [] || codes[|codes| - 1] == 0) ==> |codes| == n - from)
    decreases n - from
  {
    if from < n && exits(from) == 0 {
      GateCodesExact(exits, from + 1, n);
      var codes, rest := GateCodes(exits, from, n), GateCodes(exits, from + 1, n);
      assert codes == [0] + rest;
      assert forall i :: 0 < i < |codes| ==> codes[i] == rest[i - 1];
      if forall i :: from + 1 <= i < n ==> exits(i) == 0 {
        assert forall i :: from <= i < n ==> exits(i) == 0;
      }
    }
  }

  /** An empty gate never passes; otherwise it passes exactly when every command
      exits 0. */
  lemma {:induction false} GatePassesExactly(gate: seq<seq<string>>, exits: nat -> int, diagnostic: string)
    ensures GateOutcome(gate, exits, diagnostic).passed <==> gate != [] && AllZero(exits, |gate|)
  {
    GateCodesExact(exits, 0, |gate|);
  }

  /** Which codes were collected, given how many commands exited 0 first. */
  lemma {:induction false} GateStops(exits: nat -> int, i: nat, n: nat, codes: seq<int>)
    requires i <= n && (i < n ==> exits(i) != 0)
    requires forall k: nat :: k < i ==> exits(k) == 0
    requires |codes| == if i < n then i + 1 else n
    requires forall k :: 0 <= k < |codes| ==> codes[k] == exits(k)
    ensures GateCodes(exits, 0, n) == codes
  {
    GateCodesExact(exits, 0, n);
    var all := GateCodes(exits, 0, n);
    if i < n {
      assert all[|all| - 1] == exits(|all| - 1) != 0;
      forall k: nat | k < |all| - 1 ensures exits(k) == 0 { assert all[k] == 0; }
    }
  }

  method RunGate(gate: seq<seq<string>>, exits: nat -> int, diagnostic: string) returns (res: GateResult)
    ensures res == GateOutcome(gate, exits, diagnostic)
    ensures res.passed <==> gate != [] && AllZero(exits, |gate|)
  {
    var codes: seq<int> := [];
    for i := 0 to |gate|
      invariant |codes| == i
      invariant forall k :: 0 <= k < i ==> codes[k] == exits(k) == 0
    {
      var code := exits(i);
      codes := codes + [code];
      if code != 0 {
        GateStops(exits, i, |gate|, codes);
        return GateResult(false, codes, diagnostic);
      }
    }
    GateStops(exits, |gate|, |gate|, codes);
    res := GateResult(|codes| > 0, codes, "");
  }

  // -------------------------------------------------------------- one attempt

  /** A replay check (tautology, oracle tampering) may err, find nothing, or object. */
  datatype Check = CheckError(message: string) | NothingFound | Objection(finding: string)

  datatype GateScope = Runnable | Unscopable(diagnostic: string)

  /** Everything one worker attempt and the checks after it can produce. */
  datatype Attempt = Attempt(
    tier: string,
    commandError: Option<string>,
    flags: seq<GateFlag>,
    scope: GateScope,
    exits: nat -> int,
    gateDiagnostic: string,
    tautology: Check,
    tamper: Check,
    coverageAdvisory: Option<string>)

  predicate HasFlag(flags: seq<GateFlag>, k: FlagKind) {
    exists i :: 0 <= i < |flags| && flags[i].kind == k
  }

  function FlagDetail(flags: seq<GateFlag>, k: FlagKind): string {
    if flags == [] then ""
    else if flags[0].kind == k then flags[0].detail
    else FlagDetail(flags[1..], k)
  }

  datatype Judgement =
    | Ends(status: WorkerStatus, diagnostic: string, flags: seq<GateFlag>)
    | Revise(feedback: string)

  /** One pass through the loop body of `runWorkerLoop`. */
  function Judge(spec: AtomicTask, a: Attempt): Judgement {
    if a.commandError.Some? then Ends(WorkerCommandError, a.commandError.value, [])
    else if HasFlag(a.flags, ProtectedPathEdit) then
      Ends(WorkerGateIntegrityViolation, FlagDetail(a.flags, ProtectedPathEdit), a.flags)
    else if a.scope.Unscopable? then Revise(a.scope.diagnostic)
    else
      var gate := GateOutcome(spec.gate, a.exits, a.gateDiagnostic);
      if !gate.passed then Revise(gate.diagnostic)
      else if a.tautology.CheckError? then Ends(WorkerCommandError, a.tautology.message, a.flags)
      else if a.tautology.Objection? then Ends(WorkerFakeGreen, a.tautology.finding, a.flags)
      else if HasFlag(a.flags, TestOnlyDiff) && !spec.allowTestOnlyDiff then
        Ends(WorkerTestOnlyDiff, FlagDetail(a.flags, TestOnlyDiff), a.flags)
      else if HasFlag(a.flags, TestOnlyDiff) && a.tamper.CheckError? then
        Ends(WorkerCommandError, a.tamper.message, a.flags)
      else if HasFlag(a.flags, TestOnlyDiff) && a.tamper.Objection? then
        Ends(WorkerFakeGreen, a.tamper.finding, a.flags)
      else if a.coverageAdvisory.Some? then
        Ends(WorkerSuccess, "", a.flags + [GateFlag(CoverageAdvisory, a.coverageAdvisory.value)])
      else Ends(WorkerSuccess, "", a.flags)
  }

  ghost predicate GateGreen(spec: AtomicTask, a: Attempt) { spec.gate != [] && AllZero(a.exits, |spec.gate|) }

  /** The worker did its part and left the protected paths alone. */
  ghost predicate Honest(a: Attempt) { a.commandError.None? && !HasFlag(a.flags, ProtectedPathEdit) }

  /** What makes the loop ask for another attempt: a gate that cannot be run or is red. */
  ghost predicate AsksAgain(spec: AtomicTask, a: Attempt) {
    Honest(a) && (a.scope.Unscopable? || !GateGreen(spec, a))
  }

  /** The audits are reached: the gate was run and is green. */
  ghost predicate Audited(spec: AtomicTask, a: Attempt) { Honest(a) && a.scope.Runnable? && GateGreen(spec, a) }

  /** An allowed test-only diff has its oracles replayed, once the tautology check is passed. */
  ghost predicate Replayed(spec: AtomicTask, a: Attempt) {
    a.tautology.NothingFound? && HasFlag(a.flags, TestOnlyDiff) && spec.allowTestOnlyDiff
  }

  /** What a worker attempt must show to be credited. */
  ghost predicate CleanAttempt(spec: AtomicTask, a: Attempt) {
    && Audited(spec, a) && a.tautology.NothingFound?
    && (HasFlag(a.flags, TestOnlyDiff) ==> spec.allowTestOnlyDiff && a.tamper.NothingFound?)
  }

  /** What must have happened for an attempt to end the loop with this status. */
  ghost predicate EndsWith(spec: AtomicTask, a: Attempt, status: WorkerStatus) {
    match status
    case WorkerSuccess => CleanAttempt(spec, a)
    case WorkerGateIntegrityViolation => a.commandError.None? && HasFlag(a.flags, ProtectedPathEdit)
    case WorkerTestOnlyDiff =>
      Audited(spec, a) && a.tautology.NothingFound? && HasFlag(a.flags, TestOnlyDiff) && !spec.allowTestOnlyDiff
    case WorkerFakeGreen =>
      Audited(spec, a) && (a.tautology.Objection? || (Replayed(spec, a) && a.tamper.Objection?))
    case WorkerCommandError =>
      || a.commandError.Some?
      || (Audited(spec, a) && (a.tautology.CheckError? || (Replayed(spec, a) && a.tamper.CheckError?)))
    case _ => false
  }

  /** What the next attempt, or the operator, is told: the error, the first protected path,
      the reason the gate cannot be run, its output, or what the audit found. */
  ghost predicate Tells(spec: AtomicTask, a: Attempt, told: string) {
    && (a.commandError.Some? ==> told == a.commandError.value)
    && (a.commandError.None? && HasFlag(a.flags, ProtectedPathEdit) ==>
          FirstDetail(a.flags, ProtectedPathEdit, told))
    && (AsksAgain(spec, a) ==>
          told == if a.scope.Unscopable? then a.scope.diagnostic
                  else if spec.gate != [] then a.gateDiagnostic else "")
    && (CleanAttempt(spec, a) ==> told == "")
    && (Audited(spec, a) ==>
          && (a.tautology.CheckError? ==> told == a.tautology.message)
          && (a.tautology.Objection? ==> told == a.tautology.finding)
          && (Replayed(spec, a) && a.tamper.CheckError? ==> told == a.tamper.message)
          && (Replayed(spec, a) && a.tamper.Objection? ==> told == a.tamper.finding)
          && (EndsWith(spec, a, WorkerTestOnlyDiff) ==> FirstDetail(a.flags, TestOnlyDiff, told)))
  }

  ghost predicate FirstDetail(flags: seq<GateFlag>, k: FlagKind, detail: string) {
    exists i :: 0 <= i < |flags| && flags[i] == GateFlag(k, detail) && forall j :: 0 <= j < i ==> flags[j].kind != k
  }

  /** What is reported: nothing without a diff, else the flags, with the advisory at the end
      of a credited attempt's. */
  ghost predicate Flagged(spec: AtomicTask, a: Attempt, flags: seq<GateFlag>) {
    flags ==
    if a.commandError.Some? then []
    else if CleanAttempt(spec, a) && a.coverageAdvisory.Some? then
      a.flags + [GateFlag(CoverageAdvisory, a.coverageAdvisory.value)]
    else a.flags
  }

  lemma {:induction false} FlagDetailFirst(flags: seq<GateFlag>, k: FlagKind)
    requires HasFlag(flags, k)
    ensures FirstDetail(flags, k, FlagDetail(flags, k))
  {
    if flags[0].kind == k {
      assert flags[0] == GateFlag(k, FlagDetail(flags, k));
    } else {
      var i :| 0 <= i < |flags| && flags[i].kind == k;
      assert flags[1..][i - 1].kind == k;
      FlagDetailFirst(flags[1..], k);
      var j :| 0 <= j < |flags[1..]| && flags[1..][j] == GateFlag(k, FlagDetail(flags, k))
        && forall n :: 0 <= n < j ==> flags[1..][n].kind != k;
      assert flags[j + 1] == flags[1..][j];
      forall n | 0 <= n < j + 1 ensures flags[n].kind != k {
        if n > 0 { assert flags[n] == flags[1..][n - 1]; }
      }
    }
  }

  lemma {:induction false} JudgeExactly(spec: AtomicTask, a: Attempt)
    ensures (Judge(spec, a).Ends? && Judge(spec, a).status == WorkerSuccess) <==> CleanAttempt(spec, a)
    ensures Judge(spec, a).Revise? <==> AsksAgain(spec, a)
  {
    GatePassesExactly(spec.gate, a.exits, a.gateDiagnostic);
  }

  /** Which attempts end the loop, and with which status. */
  lemma {:induction false} JudgeEnds(spec: AtomicTask, a: Attempt, status: WorkerStatus)
    ensures (Judge(spec, a).Ends? && Judge(spec, a).status == status) <==> EndsWith(spec, a, status)
  {
    GatePassesExactly(spec.gate, a.exits, a.gateDiagnostic);
  }

  lemma {:induction false} JudgeTells(spec: AtomicTask, a: Attempt)
    ensures match Judge(spec, a)
            case Revise(feedback) => Tells(spec, a, feedback)
            case Ends(_, diagnostic, flags) => Tells(spec, a, diagnostic) && Flagged(spec, a, flags)
  {
    JudgeExactly(spec, a);
    GateCodesExact(a.exits, 0, |spec.gate|);
    if HasFlag(a.flags, ProtectedPathEdit) { FlagDetailFirst(a.flags, ProtectedPathEdit); }
    if HasFlag(a.flags, TestOnlyDiff) { FlagDetailFirst(a.flags, TestOnlyDiff); }
  }

  // --------------------------------------------------------- the worker loop

  function MaxIterations(spec: AtomicTask): nat {
    if spec.maxIterations <= 0 then 5 else spec.maxIterations
  }

  function AttemptBudget(spec: AtomicTask): nat {
    if spec.kind == Deterministic then 1 else MaxIterations(spec)
  }

  function ExhaustedStatus(spec: AtomicTask): WorkerStatus {
    if spec.kind == Deterministic then WorkerGateFailure else WorkerMaxIterationsExhausted
  }

  datatype WorkerEnd = WorkerEnd(
    status: WorkerStatus, diagnostic: string, iterations: nat, flags: seq<GateFlag>,
    tier: string, lastDiagnostic: string)

  function WorkerFrom(spec: AtomicTask, attempt: nat -> Attempt, iter: nat,
                      feedback: string, tier: string, lastDiagnostic: string): WorkerEnd
    requires 1 <= iter <= AttemptBudget(spec) + 1
    decreases AttemptBudget(spec) + 1 - iter
  {
    if iter > AttemptBudget(spec) then
      WorkerEnd(ExhaustedStatus(spec), feedback, AttemptBudget(spec), [], tier,
                if feedback != "" then feedback else lastDiagnostic)
    else
      var a := attempt(iter);
      var tier' := if a.tier != "" then a.tier else tier;
      match Judge(spec, a)
      case Ends(status, diagnostic, flags) =>
        WorkerEnd(status, diagnostic, iter, flags, tier', lastDiagnostic)
      case Revise(feedback') =>
        WorkerFrom(spec, attempt, iter + 1, feedback', tier', lastDiagnostic)
  }

  /** A credited loop ended on a clean attempt, within its budget. */
  lemma {:induction false} WorkerCredit(spec: AtomicTask, attempt: nat -> Attempt, iter: nat,
                                        feedback: string, tier: string, lastDiagnostic: string)
    requires 1 <= iter <= AttemptBudget(spec) + 1
    ensures var end := WorkerFrom(spec, attempt, iter, feedback, tier, lastDiagnostic);
      && end.iterations <= AttemptBudget(spec)
      && (end.status == WorkerSuccess ==>
            iter <= end.iterations && CleanAttempt(spec, attempt(end.iterations)))
      && end.status != WorkerForceAdvance
    decreases AttemptBudget(spec) + 1 - iter
  {
    if iter <= AttemptBudget(spec) {
      JudgeExactly(spec, attempt(iter));
      if Judge(spec, attempt(iter)).Revise? {
        var tier' := if attempt(iter).tier != "" then attempt(iter).tier else tier;
        WorkerCredit(spec, attempt, iter + 1, Judge(spec, attempt(iter)).feedback, tier', lastDiagnostic);
      }
    }
  }

  /** Attempt `k` is clean, and every one before it from `iter` on asked for another. */
  ghost predicate CreditedAt(spec: AtomicTask, attempt: nat -> Attempt, iter: nat, k: nat) {
    && iter <= k <= AttemptBudget(spec) && CleanAttempt(spec, attempt(k))
    && forall j :: iter <= j < k ==> AsksAgain(spec, attempt(j))
  }

  ghost predicate Credited(spec: AtomicTask, attempt: nat -> Attempt, iter: nat) {
    exists k: nat :: CreditedAt(spec, attempt, iter, k)
  }

  /** The loop credits the worker exactly when it meets a clean attempt within the budget
      before any attempt that ends it. */
  lemma {:induction false} WorkerCreditExactly(spec: AtomicTask, attempt: nat -> Attempt, iter: nat,
                                               feedback: string, tier: string, lastDiagnostic: string)
    requires 1 <= iter <= AttemptBudget(spec) + 1
    ensures WorkerFrom(spec, attempt, iter, feedback, tier, lastDiagnostic).status == WorkerSuccess
            <==> Credited(spec, attempt, iter)
    decreases AttemptBudget(spec) + 1 - iter
  {
    if iter <= AttemptBudget(spec) {
      var a := attempt(iter);
      JudgeExactly(spec, a);
      if Judge(spec, a).Revise? {
        var tier' := if a.tier != "" then a.tier else tier;
        WorkerCreditExactly(spec, attempt, iter + 1, Judge(spec, a).feedback, tier', lastDiagnostic);
        CreditedLater(spec, attempt, iter);
      } else if CleanAttempt(spec, a) {
        assert CreditedAt(spec, attempt, iter, iter);
      }
    }
  }

  lemma {:induction false} CreditedLater(spec: AtomicTask, attempt: nat -> Attempt, iter: nat)
    requires AsksAgain(spec, attempt(iter))
    ensures Credited(spec, attempt, iter) <==> Credited(spec, attempt, iter + 1)
  {
    if Credited(spec, attempt, iter) {
      var k: nat :| CreditedAt(spec, attempt, iter, k);
      CreditLater(spec, attempt, iter, k);
    }
    if Credited(spec, attempt, iter + 1) {
      var k: nat :| CreditedAt(spec, attempt, iter + 1, k);
      CreditLater(spec, attempt, iter, k);
    }
  }

  lemma {:induction false} CreditLater(spec: AtomicTask, attempt: nat -> Attempt, iter: nat, k: nat)
    requires AsksAgain(spec, attempt(iter))
    ensures CreditedAt(spec, attempt, iter, k) <==> CreditedAt(spec, attempt, iter + 1, k)
  {
    JudgeExactly(spec, attempt(iter));
  }

  // ------------------------------------------------ how the loop ends

  /** Attempt `k` is the first that does not ask for another. */
  ghost predicate FirstEnd(spec: AtomicTask, attempt: nat -> Attempt, iter: nat, k: nat) {
    && iter <= k <= AttemptBudget(spec) && !AsksAgain(spec, attempt(k))
    && forall j :: iter <= j < k ==> AsksAgain(spec, attempt(j))
  }

  /** The latest tier reported by the attempts from `iter` to `k`, or the carried one. */
  ghost predicate LatestTier(attempt: nat -> Attempt, iter: nat, k: nat, carried: string, tier: string) {
    || (tier == carried && forall j :: iter <= j <= k ==> attempt(j).tier == "")
    || exists i :: iter <= i <= k && attempt(i).tier == tier != "" && forall j :: i < j <= k ==> attempt(j).tier == ""
  }

  /** Ended by attempt `k`. */
  ghost predicate EndedBy(spec: AtomicTask, attempt: nat -> Attempt, iter: nat, k: nat, tier: string, last: string,
                          end: WorkerEnd) {
    && end.iterations == k && EndsWith(spec, attempt(k), end.status)
    && Tells(spec, attempt(k), end.diagnostic) && Flagged(spec, attempt(k), end.flags)
    && LatestTier(attempt, iter, k, tier, end.tier) && end.lastDiagnostic == last
  }

  /** Every attempt asked for another: the last one's diagnostic is reported, and kept
      unless it is empty. */
  ghost predicate Exhausted(spec: AtomicTask, attempt: nat -> Attempt, iter: nat, tier: string, last: string,
                            end: WorkerEnd) {
    var n := AttemptBudget(spec);
    && end.iterations == n && end.flags == []
    && end.status == (if spec.kind == Deterministic then WorkerGateFailure else WorkerMaxIterationsExhausted)
    && Tells(spec, attempt(n), end.diagnostic)
    && LatestTier(attempt, iter, n, tier, end.tier)
    && end.lastDiagnostic == if end.diagnostic != "" then end.diagnostic else last
  }

  /** The loop ends at the first attempt that does not ask for another, as that attempt
      does; or, when all of them do, it is exhausted. */
  ghost predicate LoopEnds(spec: AtomicTask, attempt: nat -> Attempt, iter: nat, tier: string, last: string,
                           end: WorkerEnd) {
    && (forall k :: FirstEnd(spec, attempt, iter, k) ==> EndedBy(spec, attempt, iter, k, tier, last, end))
    && ((forall k :: iter <= k <= AttemptBudget(spec) ==> AsksAgain(spec, attempt(k))) ==>
          Exhausted(spec, attempt, iter, tier, last, end))
  }

  lemma {:induction false} TierOn(attempt: nat -> Attempt, iter: nat, k: nat, carried: string, tier: string)
    requires iter < k
    requires LatestTier(attempt, iter + 1, k, if attempt(iter).tier != "" then attempt(iter).tier else carried, tier)
    ensures LatestTier(attempt, iter, k, carried, tier)
  {
    if forall j :: iter + 1 <= j <= k ==> attempt(j).tier == "" {
      if attempt(iter).tier == "" {
        assert forall j :: iter <= j <= k ==> attempt(j).tier == "";
      } else {
        assert attempt(iter).tier == tier != "" && forall j :: iter < j <= k ==> attempt(j).tier == "";
      }
    }
  }

  lemma {:induction false} TierNow(attempt: nat -> Attempt, iter: nat, carried: string)
    ensures LatestTier(attempt, iter, iter, carried, if attempt(iter).tier != "" then attempt(iter).tier else carried)
  {}

  /** An attempt that asks for another only moves the tier on. */
  lemma {:induction false} LoopOn(spec: AtomicTask, attempt: nat -> Attempt, iter: nat, tier: string, last: string,
                                  end: WorkerEnd)
    requires AsksAgain(spec, attempt(iter)) && iter < AttemptBudget(spec)
    requires LoopEnds(spec, attempt, iter + 1, if attempt(iter).tier != "" then attempt(iter).tier else tier, last, end)
    ensures LoopEnds(spec, attempt, iter, tier, last, end)
  {
    forall k | FirstEnd(spec, attempt, iter, k) ensures EndedBy(spec, attempt, iter, k, tier, last, end) {
      assert FirstEnd(spec, attempt, iter + 1, k);
      TierOn(attempt, iter, k, tier, end.tier);
    }
    if forall k :: iter <= k <= AttemptBudget(spec) ==> AsksAgain(spec, attempt(k)) {
      var tier' := if attempt(iter).tier != "" then attempt(iter).tier else tier;
      assert Exhausted(spec, attempt, iter + 1, tier', last, end);
      TierOn(attempt, iter, AttemptBudget(spec), tier, end.tier);
    }
  }

  lemma {:induction false} WorkerLoopEnds(spec: AtomicTask, attempt: nat -> Attempt, iter: nat, feedback: string,
                                          tier: string, last: string)
    requires 1 <= iter <= AttemptBudget(spec)
    ensures LoopEnds(spec, attempt, iter, tier, last, WorkerFrom(spec, attempt, iter, feedback, tier, last))
    decreases AttemptBudget(spec) - iter
  {
    var a := attempt(iter);
    var tier' := if a.tier != "" then a.tier else tier;
    var end := WorkerFrom(spec, attempt, iter, feedback, tier, last);
    JudgeExactly(spec, a);
    JudgeTells(spec, a);
    TierNow(attempt, iter, tier);
    if Judge(spec, a).Ends? {
      JudgeEnds(spec, a, end.status);
      assert forall k :: FirstEnd(spec, attempt, iter, k) ==> k == iter;
    } else if iter < AttemptBudget(spec) {
      WorkerLoopEnds(spec, attempt, iter + 1, Judge(spec, a).feedback, tier', last);
      LoopOn(spec, attempt, iter, tier, last, end);
    }
  }

  method RunWorkerLoop(spec: AtomicTask, attempt: nat -> Attempt, carriedTier: string, carriedDiagnostic: string)
    returns (end: WorkerEnd)
    ensures end == WorkerFrom(spec, attempt, 1, "", carriedTier, carriedDiagnostic)
    ensures LoopEnds(spec, attempt, 1, carriedTier, carriedDiagnostic, end)
  {
    WorkerLoopEnds(spec, attempt, 1, "", carriedTier, carriedDiagnostic);
    var maxIter := AttemptBudget(spec);
    var lastDiag, tier := "", carriedTier;
    var iter := 1;
    while iter <= maxIter
      invariant 1 <= iter <= maxIter + 1
      invariant WorkerFrom(spec, attempt, 1, "", carriedTier, carriedDiagnostic)
             == WorkerFrom(spec, attempt, iter, lastDiag, tier, carriedDiagnostic)
      decreases maxIter + 1 - iter
    {
      var a := attempt(iter);
      if a.tier != "" { tier := a.tier; }
      if a.commandError.Some? {
        return WorkerEnd(WorkerCommandError, a.commandError.value, iter, [], tier, carriedDiagnostic);
      }
      if HasFlag(a.flags, ProtectedPathEdit) {
        return WorkerEnd(WorkerGateIntegrityViolation, FlagDetail(a.flags, ProtectedPathEdit),
                         iter, a.flags, tier, carriedDiagnostic);
      }
      if a.scope.Unscopable? {
        lastDiag, iter := a.scope.diagnostic, iter + 1;
        continue;
      }
      var gate := RunGate(spec.gate, a.exits, a.gateDiagnostic);
      if gate.passed {
        var status, diagnostic, flags := CreditPassed(spec, a);
        return WorkerEnd(status, diagnostic, iter, flags, tier, carriedDiagnostic);
      }
      lastDiag, iter := gate.diagnostic, iter + 1;
    }
    var persisted := carriedDiagnostic;
    if lastDiag != "" { persisted := lastDiag; }
    end := WorkerEnd(ExhaustedStatus(spec), lastDiag, maxIter, [], tier, persisted);
  }

  /** The audits behind a passing gate, in order. */
  method CreditPassed(spec: AtomicTask, a: Attempt)
    returns (status: WorkerStatus, diagnostic: string, flags: seq<GateFlag>)
    requires a.commandError.None? && !HasFlag(a.flags, ProtectedPathEdit) && a.scope.Runnable?
    requires GateOutcome(spec.gate, a.exits, a.gateDiagnostic).passed
    ensures Judge(spec, a) == Ends(status, diagnostic, flags)
    ensures EndsWith(spec, a, status) && Tells(spec, a, diagnostic) && Flagged(spec, a, flags)
  {
    JudgeEnds(spec, a, Judge(spec, a).status);
    JudgeTells(spec, a);
    flags := a.flags;
    match a.tautology {
      case CheckError(m) => return WorkerCommandError, m, flags;
      case Objection(f) => return WorkerFakeGreen, f, flags;
      case NothingFound =>
    }
    if HasFlag(flags, TestOnlyDiff) && !spec.allowTestOnlyDiff {
      return WorkerTestOnlyDiff, FlagDetail(flags, TestOnlyDiff), flags;
    }
    if HasFlag(flags, TestOnlyDiff) {
      match a.tamper {
        case CheckError(m) => return WorkerCommandError, m, flags;
        case Objection(f) => return WorkerFakeGreen, f, flags;
        case NothingFound =>
      }
    }
    if a.coverageAdvisory.Some? {
      flags := flags + [GateFlag(CoverageAdvisory, a.coverageAdvisory.value)];
    }
    return WorkerSuccess, "", flags;
  }

  // ---------------------------------------------------- the verify phase

  datatype VerifyInput =
    | NoVerifier
    | VerifierFailed(message: string)
    | Report(pass: bool, hasEvidence: bool, spotCheckExit: int)

  /** `runVerifyPhase`; the spot check re-runs the first non-empty gate command. */
  function VerifyStatus(spec: AtomicTask, v: VerifyInput): WorkerStatus {
    match v
    case NoVerifier => WorkerSuccess
    case VerifierFailed(_) => WorkerVerifierError
    case Report(pass, hasEvidence, code) =>
      if !pass || !hasEvidence then WorkerVerifierRejected
      else if (exists i :: 0 <= i < |spec.gate| && spec.gate[i] != []) && code != 0
      then WorkerVerifierRejected
      else WorkerSuccess
  }

  predicate HasCommand(gate: seq<seq<string>>) { exists i :: 0 <= i < |gate| && gate[i] != [] }

  /** There is no verifier, or it reports a pass with evidence and the command run again, if
      there is one, agrees. */
  predicate VerifierAccepts(spec: AtomicTask, v: VerifyInput) {
    || v.NoVerifier?
    || (v.Report? && v.pass && v.hasEvidence && (HasCommand(spec.gate) ==> v.spotCheckExit == 0))
  }

  lemma {:induction false} VerifyExactly(spec: AtomicTask, v: VerifyInput)
    ensures VerifyStatus(spec, v) == WorkerSuccess <==> VerifierAccepts(spec, v)
    ensures VerifyStatus(spec, v) == WorkerVerifierError <==> v.VerifierFailed?
    ensures VerifyStatus(spec, v) == WorkerVerifierRejected <==> v.Report? && !VerifierAccepts(spec, v)
  {
    if exists i :: 0 <= i < |spec.gate| && spec.gate[i] != [] { assert HasCommand(spec.gate); }
  }

  /** `firstNonEmptyCommand`. */
  method FirstNonEmptyCommand(gate: seq<seq<string>>) returns (cmd: seq<string>)
    ensures cmd != [] <==> HasCommand(gate)
    ensures cmd != [] ==> exists i :: 0 <= i < |gate| && gate[i] == cmd && forall j :: 0 <= j < i ==> gate[j] == []
  {
    for i := 0 to |gate|
      invariant forall j :: 0 <= j < i ==> gate[j] == []
    {
      if gate[i] != [] { return gate[i]; }
    }
    cmd := [];
  }

  /** `runVerifyPhase`. */
  method RunVerifyPhase(spec: AtomicTask, v: VerifyInput) returns (status: WorkerStatus)
    ensures status == VerifyStatus(spec, v)
    ensures status == WorkerSuccess <==> VerifierAccepts(spec, v)
    ensures status == WorkerVerifierError <==> v.VerifierFailed?
    ensures status == WorkerSuccess || status == WorkerVerifierError || status == WorkerVerifierRejected
  {
    VerifyExactly(spec, v);
    match v {
      case NoVerifier => return WorkerSuccess;
      case VerifierFailed(_) => return WorkerVerifierError;
      case Report(pass, hasEvidence, code) =>
        if !pass || !hasEvidence { return WorkerVerifierRejected; }
        var cmd := FirstNonEmptyCommand(spec.gate);
        if cmd != [] && code != 0 { return WorkerVerifierRejected; }
        return WorkerSuccess;
    }
  }

  // ---------------------------------------------------- the commit graph

  /** Commits are numbered from 1; `parents[c - 1]` is the parent of `c`, 0 for none.
      `head` is where the integration branch points. */
  datatype Repo = Repo(parents: seq<Sha>, head: Sha)
  {
    predicate Holds(sha: Sha) { 1 <= sha <= |parents| }
  }

  /** `a` is `d` or one of its ancestors. */
  predicate AncestorOrEqual(parents: seq<Sha>, a: Sha, d: Sha)
    decreases d
  {
    || a == d
    || (1 <= d <= |parents| && parents[d - 1] < d && AncestorOrEqual(parents, a, parents[d - 1]))
  }

  /** The commit a worktree forked from `fork` starts at. */
  function Tip(repo: Repo, fork: Sha): Sha { if fork == 0 then repo.head else fork }

  function CommitOn(repo: Repo, tip: Sha): Repo { repo.(parents := repo.parents + [tip]) }

  // ------------------------------------------------------------- one AT run

  datatype SeedInput = SeedFailed(message: string) | SeedCommitted | SeedUnchanged

  datatype ContractInput = Violated(message: string) | Satisfied(outputs: map<string, string>)

  datatype CommitInput =
    | CommitFailed(message: string)
    | NothingToCommit(headKnown: bool)
    | Committed(forwarded: bool)

  /** The outcomes met while running one AT. */
  datatype RunInput = RunInput(
    inputsError: Option<string>,
    headKnown: bool,
    openError: Option<string>,
    dir: string,
    seed: SeedInput,
    modelWired: bool,
    stuckVerdict: string,
    attempt: nat -> Attempt,
    verify: VerifyInput,
    verifyDiagnostic: string,
    contract: ContractInput,
    commit: CommitInput)

  datatype Executed = Executed(record: ATRecord, repo: Repo, entered: bool, attempts: nat)

  function Failed(r: ATRecord, worker: WorkerStatus, diagnostic: string): ATRecord {
    r.(status := ATFailed, worker := worker, diagnostic := diagnostic)
  }

  /** The fork point is captured on the first run only. */
  function CaptureFork(r: ATRecord, repo: Repo, inp: RunInput): ATRecord {
    if r.parentSha == 0 && inp.headKnown then r.(parentSha := repo.head) else r
  }

  function SeedRecord(r: ATRecord, repo: Repo, inp: RunInput): ATRecord {
    if r.spec.hasOracles && inp.seed.SeedCommitted? then r.(parentSha := |repo.parents| + 1) else r
  }

  function SeedRepo(r: ATRecord, repo: Repo, inp: RunInput): Repo {
    if r.spec.hasOracles && inp.seed.SeedCommitted? then CommitOn(repo, Tip(repo, r.parentSha)) else repo
  }

  predicate NoWorker(r: ATRecord, inp: RunInput) { r.spec.kind == ModelDriven && !inp.modelWired }

  predicate CapReached(r: ATRecord, cap: nat) { cap > 0 && r.respawns >= cap }

  /** `runWorkerLoop` on the record: refused without a worker or at the respawn cap. */
  function Work(r: ATRecord, cap: nat, inp: RunInput): (WorkerEnd, bool) {
    if NoWorker(r, inp) then
      (WorkerEnd(WorkerCommandError, "no worker wired", 0, [], r.highestTier, r.lastDiagnostic), false)
    else if CapReached(r, cap) then
      (WorkerEnd(WorkerRespawnCapReached, inp.stuckVerdict, 0, [], r.highestTier, r.lastDiagnostic), false)
    else (WorkerFrom(r.spec, inp.attempt, 1, "", r.highestTier, r.lastDiagnostic), true)
  }

  function AfterWork(r: ATRecord, end: WorkerEnd, entered: bool): ATRecord {
    r.(iterations := end.iterations, worker := end.status, diagnostic := end.diagnostic,
       flags := end.flags, highestTier := end.tier, lastDiagnostic := end.lastDiagnostic,
       respawns := if entered then r.respawns + 1 else r.respawns)
  }

  /** From the accepted work to the verdict on the AT. `tip` is the worktree's tip. */
  function Land(r: ATRecord, repo: Repo, tip: Sha, inp: RunInput): (ATRecord, Repo) {
    var vstatus := VerifyStatus(r.spec, inp.verify);
    if r.worker != WorkerSuccess then (r.(status := ATFailed), repo)
    else if vstatus != WorkerSuccess then (Failed(r, vstatus, inp.verifyDiagnostic), repo)
    else if inp.contract.Violated? then
      (Failed(r, WorkerOutputContractViolation, inp.contract.message), repo)
    else
      var r' := r.(outputs := inp.contract.outputs);
      match inp.commit
      case CommitFailed(message) => (Failed(r', WorkerCommandError, "commit: " + message), repo)
      case Committed(forwarded) =>
        var sha := |repo.parents| + 1;
        (r'.(commit := sha, worktree := "", status := ATSuccess),
         CommitOn(repo, tip).(head := if forwarded then sha else repo.head))
      case NothingToCommit(headKnown) =>
        (r'.(commit := if headKnown then repo.head else r'.commit, worktree := "", status := ATSuccess), repo)
  }

  /** `runOne` from the worker loop on. */
  function WorkAndLand(r: ATRecord, repo: Repo, cap: nat, inp: RunInput): Executed {
    var (end, entered) := Work(r, cap, inp);
    var (landed, repo') := Land(AfterWork(r, end, entered), repo, Tip(repo, r.parentSha), inp);
    Executed(landed, repo', entered, if entered then end.iterations else 0)
  }

  /** `runOne` after the AT was marked running. */
  function Execute(r: ATRecord, repo: Repo, cap: nat, inp: RunInput): Executed {
    if inp.inputsError.Some? then
      Executed(Failed(r, WorkerCommandError, inp.inputsError.value), repo, false, 0)
    else
      var forked := CaptureFork(r, repo, inp);
      if inp.openError.Some? then
        Executed(Failed(forked, WorkerCommandError, "open workspace: " + inp.openError.value), repo, false, 0)
      else
        var worktree := forked.(worktree := inp.dir);
        if worktree.spec.hasOracles && inp.seed.SeedFailed? then
          Executed(Failed(worktree, WorkerCommandError, "seed oracle: " + inp.seed.message), repo, false, 0)
        else
          var seeded, repo' := SeedRecord(worktree, repo, inp), SeedRepo(worktree, repo, inp);
          WorkAndLand(seeded, repo', cap, inp)
  }

  /** The evidence behind a credited AT: a clean last attempt, an accepted verify
      phase and a satisfied output contract. */
  ghost predicate Certified(r: ATRecord, inp: RunInput) {
    && 1 <= r.iterations <= AttemptBudget(r.spec)
    && CleanAttempt(r.spec, inp.attempt(r.iterations))
    && VerifierAccepts(r.spec, inp.verify)
    && inp.contract.Satisfied?
  }

  /** The fields no part of an AT run touches. */
  predicate SameIdentity(q: ATRecord, r: ATRecord) {
    && q.slug == r.slug && q.spec == r.spec && q.position == r.position
    && q.parentSlug == r.parentSlug && q.branchIndex == r.branchIndex
  }

  lemma {:induction false} LandVerdict(r: ATRecord, repo: Repo, tip: Sha, inp: RunInput)
    ensures var q := Land(r, repo, tip, inp).0;
      && SameIdentity(q, r) && q.iterations == r.iterations && q.respawns == r.respawns
      && (q.status == ATSuccess || q.status == ATFailed)
      && (q.status == ATSuccess ==>
            && r.worker == WorkerSuccess == q.worker && inp.contract.Satisfied?
            && VerifierAccepts(r.spec, inp.verify))
  {}

  lemma {:induction false} WorkVerdict(r: ATRecord, cap: nat, inp: RunInput)
    ensures var (end, entered) := Work(r, cap, inp);
      && (entered ==> cap == 0 || r.respawns < cap)
      && end.iterations <= AttemptBudget(r.spec)
      && (end.status == WorkerSuccess ==>
            1 <= end.iterations && CleanAttempt(r.spec, inp.attempt(end.iterations)))
  {
    WorkerCredit(r.spec, inp.attempt, 1, "", r.highestTier, r.lastDiagnostic);
  }

  /** Which fields an AT run keeps, and that it succeeds only with a certificate. */
  ghost predicate Sound(r: ATRecord, cap: nat, inp: RunInput, e: Executed) {
    && SameIdentity(e.record, r)
    && (e.record.status == ATSuccess || e.record.status == ATFailed)
    && (e.record.status == ATSuccess ==> Certified(e.record, inp) && e.record.worker == WorkerSuccess)
    && e.record.respawns == r.respawns + (if e.entered then 1 else 0)
    && (e.entered ==> cap == 0 || r.respawns < cap)
    && e.attempts <= (if e.entered then AttemptBudget(r.spec) else 0)
  }

  lemma {:induction false} WorkAndLandSound(r: ATRecord, repo: Repo, cap: nat, inp: RunInput)
    ensures Sound(r, cap, inp, WorkAndLand(r, repo, cap, inp))
  {
    WorkVerdict(r, cap, inp);
    var (end, entered) := Work(r, cap, inp);
    LandVerdict(AfterWork(r, end, entered), repo, Tip(repo, r.parentSha), inp);
  }

  /** Forking and seeding leave what the verdict is about alone. */
  lemma {:induction false} SoundBefore(r: ATRecord, q: ATRecord, cap: nat, inp: RunInput, e: Executed)
    requires Sound(q, cap, inp, e) && SameIdentity(q, r) && q.respawns == r.respawns
    ensures Sound(r, cap, inp, e)
  {}

  lemma {:induction false} ExecuteSound(r: ATRecord, repo: Repo, cap: nat, inp: RunInput)
    ensures Sound(r, cap, inp, Execute(r, repo, cap, inp))
  {
    var forked := CaptureFork(r, repo, inp);
    var worktree := forked.(worktree := inp.dir);
    if inp.inputsError.Some? || inp.openError.Some? || (forked.spec.hasOracles && inp.seed.SeedFailed?) {
      assert Execute(r, repo, cap, inp).record.status == ATFailed;
    } else {
      var q, repo' := SeedRecord(worktree, repo, inp), SeedRepo(worktree, repo, inp);
      var e := WorkAndLand(q, repo', cap, inp);
      WorkAndLandSound(q, repo', cap, inp);
      SoundBefore(r, q, cap, inp, e);
      assert Execute(r, repo, cap, inp) == e;
    }
  }

  /** What an AT run must meet to succeed: inputs, worktree and seed, a worker and a
      respawn left, a clean attempt within the budget, the verify phase, the output
      contract and a commit that does not fail. */
  ghost predicate Succeeds(r: ATRecord, cap: nat, inp: RunInput) {
    && inp.inputsError.None? && inp.openError.None? && !(r.spec.hasOracles && inp.seed.SeedFailed?)
    && !NoWorker(r, inp) && !CapReached(r, cap)
    && Credited(r.spec, inp.attempt, 1)
    && VerifierAccepts(r.spec, inp.verify) && inp.contract.Satisfied? && !inp.commit.CommitFailed?
  }

  lemma {:induction false} WorkExactly(r: ATRecord, cap: nat, inp: RunInput)
    ensures Work(r, cap, inp).0.status == WorkerSuccess <==>
      !NoWorker(r, inp) && !CapReached(r, cap) && Credited(r.spec, inp.attempt, 1)
  {
    WorkerCreditExactly(r.spec, inp.attempt, 1, "", r.highestTier, r.lastDiagnostic);
  }

  lemma {:induction false} WorkAndLandExactly(r: ATRecord, repo: Repo, cap: nat, inp: RunInput)
    ensures WorkAndLand(r, repo, cap, inp).record.status == ATSuccess <==>
      && !NoWorker(r, inp) && !CapReached(r, cap) && Credited(r.spec, inp.attempt, 1)
      && VerifierAccepts(r.spec, inp.verify) && inp.contract.Satisfied? && !inp.commit.CommitFailed?
  {
    WorkExactly(r, cap, inp);
  }

  /** An AT run succeeds exactly when it meets all of that. */
  lemma {:induction false} ExecuteExactly(r: ATRecord, repo: Repo, cap: nat, inp: RunInput)
    ensures Execute(r, repo, cap, inp).record.status == ATSuccess <==> Succeeds(r, cap, inp)
  {
    var worktree := CaptureFork(r, repo, inp).(worktree := inp.dir);
    WorkAndLandExactly(SeedRecord(worktree, repo, inp), SeedRepo(worktree, repo, inp), cap, inp);
  }
}
