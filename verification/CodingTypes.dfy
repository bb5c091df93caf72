/** The domain types of a coding chain run (internal/coding/state.go, spec.go, worker.go,
    flags.go). */
module CodingTypes {

  /** A commit id. 0 stands for the empty string, "no commit recorded". */
  type Sha = nat

  datatype ChainStatus =
    | ChainUnset | ChainPending | ChainRunning | ChainPaused
    | ChainSuccess | ChainFailed | ChainAborted

  datatype ATStatus = ATPending | ATRunning | ATSuccess | ATFailed | ATSkipped

  datatype WorkerStatus =
    | WorkerNone
    | WorkerSuccess | WorkerGateFailure | WorkerCommandError
    | WorkerMaxIterationsExhausted | WorkerOutputContractViolation
    | WorkerGateIntegrityViolation | WorkerFakeGreen | WorkerTestOnlyDiff
    | WorkerVerifierRejected | WorkerVerifierError
    | WorkerRespawnCapReached | WorkerForceAdvance

  datatype WorkerKind = Deterministic | ModelDriven

  datatype FlagKind = ProtectedPathEdit | TestOnlyDiff | CoverageAdvisory

  datatype GateFlag = GateFlag(kind: FlagKind, detail: string)

  /** The parts of an atomic task (AT) that steer the run. `hasOracles` says whether
      acceptance oracles are seeded before the worker runs. */
  datatype AtomicTask = AtomicTask(
    slug: string,
    goal: string,
    workspace: seq<string>,
    kind: WorkerKind,
    gate: seq<seq<string>>,
    hasOracles: bool,
    allowTestOnlyDiff: bool,
    maxIterations: int)

  datatype ATRecord = ATRecord(
    slug: string,
    spec: AtomicTask,
    position: int,
    status: ATStatus,
    iterations: nat,
    outputs: map<string, string>,
    commit: Sha,
    worker: WorkerStatus,
    diagnostic: string,
    worktree: string,
    flags: seq<GateFlag>,
    highestTier: string,
    respawns: nat,
    lastDiagnostic: string,
    parentSlug: string,
    branchIndex: nat,
    parentSha: Sha)
  {
    predicate Resolved() { status == ATSuccess || status == ATSkipped }

    /** `resetAT`: tier, respawn count, last diagnostic and fork point survive. */
    function Reset(): ATRecord {
      this.(status := ATPending, iterations := 0, outputs := map[], commit := 0,
            worker := WorkerNone, diagnostic := "", worktree := "", flags := [])
    }
  }

  /** What identifies a record: its slug, its parent's slug and its branch index. */
  datatype Key = Key(slug: string, parent: string, index: nat)

  function KeyOf(r: ATRecord): Key { Key(r.slug, r.parentSlug, r.branchIndex) }

  datatype RunMeta = RunMeta(
    runId: string, chainSlug: string, targetRepo: string,
    baseBranch: string, integrationBranch: string)

  datatype RunState = RunState(
    meta: RunMeta, status: ChainStatus, position: int,
    ats: seq<ATRecord>, failedSlug: string)
  {
    predicate Stageable() {
      status == ChainPaused || status == ChainFailed || status == ChainPending
    }
  }

  const EMPTY_RUN := RunState(RunMeta("", "", "", "", ""), ChainUnset, 0, [], "")

  function Slugs(ats: seq<ATRecord>): (r: seq<string>)
    ensures |r| == |ats|
    ensures forall i :: 0 <= i < |ats| ==> r[i] == ats[i].slug
  {
    seq(|ats|, i requires 0 <= i < |ats| => ats[i].slug)
  }

  predicate Distinct<T(==)>(s: seq<T>) {
    forall i, j :: 0 <= i < j < |s| ==> s[i] != s[j]
  }

  /** `Position` equals the index, everywhere. */
  predicate Numbered(ats: seq<ATRecord>) {
    forall i :: 0 <= i < |ats| ==> ats[i].position == i
  }

  function Renumber(ats: seq<ATRecord>): (r: seq<ATRecord>)
    ensures |r| == |ats| && Numbered(r)
    ensures forall i :: 0 <= i < |ats| ==> r[i] == ats[i].(position := i)
  {
    seq(|ats|, i requires 0 <= i < |ats| => ats[i].(position := i))
  }

  function InsertAt<T>(s: seq<T>, i: nat, x: T): (r: seq<T>)
    requires i <= |s|
    ensures |r| == |s| + 1 && r[i] == x
    ensures forall j :: 0 <= j < i ==> r[j] == s[j]
    ensures forall j :: i <= j < |s| ==> r[j + 1] == s[j]
  {
    s[..i] + [x] + s[i..]
  }

  /** The index of the first occurrence, or the length when there is none. */
  function IndexOf(s: seq<string>, x: string): (i: nat)
    ensures i <= |s|
    ensures i < |s| ==> s[i] == x
    ensures forall j :: 0 <= j < i ==> s[j] != x
    ensures i == |s| <==> x !in s
  {
    if s == [] then 0
    else if s[0] == x then 0
    else 1 + IndexOf(s[1..], x)
  }

  /** `findAT`: the index of the first record with this slug, or the length. */
  function FindAT(ats: seq<ATRecord>, slug: string): (i: nat)
    ensures i <= |ats|
    ensures i < |ats| ==> ats[i].slug == slug
    ensures forall j :: 0 <= j < i ==> ats[j].slug != slug
  {
    IndexOf(Slugs(ats), slug)
  }

  lemma {:induction false} FindATUnique(ats: seq<ATRecord>, i: nat)
    requires i < |ats| && Distinct(Slugs(ats))
    ensures FindAT(ats, ats[i].slug) == i
  {
    var k := FindAT(ats, ats[i].slug);
    assert Slugs(ats)[i] == ats[i].slug;
    if k < i { assert Slugs(ats)[k] == Slugs(ats)[i]; }
  }
}
