/** The orchestrator itself: an object that mutates its run state in place and emits
    events as it goes (internal/coding/orchestrator.go, staging.go, intervene.go). Each
    method is proved to do what the step machine says. */
module Orchestration {
  import opened Text
  import opened CodingTypes
  import opened EventLog
  import opened WorkerGate
  import opened ChainMachine
  import opened ChainProofs
  import opened ChainTheorems
  import opened StepEffects

  lemma {:induction false} AfterStep(c: Chain, trace: seq<Step>, step: Step)
    ensures c.After(trace + [step]) == Apply(c.After(trace), c.cap, step)
  {
    assert (trace + [step])[..|trace|] == trace;
  }

  /** Where a run stands when it is idle, the whole run loop is more of its steps. */
  lemma {:induction false} AfterRunLoop(c: Chain, trace: seq<Step>, env: nat -> RoundInput) returns (steps: seq<Step>)
    requires c.Valid() && c.After(trace).phase.Idle?
    ensures c.After(trace).run.position >= 0
    ensures c.After(trace + steps) == RunToCompletion(c.After(trace), c.cap, env)
  {
    var m := c.After(trace);
    Structure(c, trace);
    var m1 := Apply(m, c.cap, Resume);
    var rest := DriveIsRun(m1, c.cap, env, 0);
    RunThen(m, c.cap, Resume, rest);
    steps := [Resume] + rest;
    RunConcat(Start(c.meta, c.tasks, c.tier, c.repo), c.cap, trace, steps);
  }

  lemma {:induction false} DriveEndsIdle(m: Machine, cap: nat, env: nat -> RoundInput, k: nat)
    requires m.phase.Driving? && m.run.position >= 0
    ensures Drive(m, cap, env, k).phase.Idle?
    decreases |m.run.ats| - m.run.position
  {
    var m1 := Apply(m, cap, Look(env(k).pause));
    if m1.phase.Driving? {
      DriveEndsIdle(m1, cap, env, k + 1);
    } else if m1.phase.Executing? {
      var m3 := Apply(Apply(m1, cap, Perform(env(k).run)), cap, Settle);
      if m3.phase.Driving? { DriveEndsIdle(m3, cap, env, k + 1); }
    }
  }

  /** A branch_fix step before the chain event. */
  ghost function Branching(m: Machine, target: string, goal: string, rewound: bool): Machine
    requires TargetIndex(m.run.ats, target) < |m.run.ats|
  {
    var t := TargetIndex(m.run.ats, target);
    m.(run := m.run.(ats := BranchedATs(m.run, target, t, goal)),
       log := m.log + BranchEvents(m.run, target, t, goal),
       repo := RewoundRepo(m.repo, m.run, t, rewound))
  }

  /** A branch of the target loses its commit. */
  function Uncredited(r: ATRecord, target: string): ATRecord {
    if r.parentSlug == target then r.(commit := 0, status := ATSkipped) else r
  }

  lemma {:induction false} StatusEventsAt(ats: seq<ATRecord>, slugs: seq<string>, k: nat)
    requires k < |slugs|
    ensures StatusEvents(ats, slugs[k..]) == StatusEvent(ats, slugs[k]) + StatusEvents(ats, slugs[k + 1..])
  {
    assert slugs[k..][1..] == slugs[k + 1..];
  }

  class Orchestrator {
    const cap: nat
    /** The chain this object runs, and the steps it has taken. */
    ghost const chain: Chain
    ghost var trace: seq<Step>
    var meta: RunMeta
    var status: ChainStatus
    var position: int
    var ats: seq<ATRecord>
    var failedSlug: string
    var log: seq<Event>
    var repo: Repo
    ghost var phase: Phase
    ghost var entries: nat
    ghost var attempts: nat
    ghost var evidence: map<Key, RunInput>

    /** The run state as one value. */
    function State(): RunState
      reads this
    {
      RunState(meta, status, position, ats, failedSlug)
    }

    ghost function View(): Machine
      reads this
    {
      Machine(State(), log, repo, phase, entries, attempts, evidence)
    }

    /** The object is where its chain's run has come, so every theorem about runs is a
        theorem about it. */
    ghost predicate Valid()
      reads this
    {
      chain.Valid() && chain.cap == cap && View() == chain.After(trace) && phase.Idle?
    }

    /** `Start`, after validation and once the integration branch exists. */
    constructor (cap: nat, meta: RunMeta, tasks: seq<AtomicTask>, tier: string, repo: Repo)
      requires ValidTasks(tasks)
      ensures Valid() && View() == Start(meta, tasks, tier, repo)
      ensures chain == Chain(meta, tasks, tier, repo, cap) && trace == []
      ensures this.meta == meta && status == ChainPending && position == 0 && failedSlug == "" && this.repo == repo
      ensures |ats| == |tasks| && log == [ChainStarted(meta, ats)]
      ensures forall i :: 0 <= i < |tasks| ==>
        ats[i] == ATRecord(tasks[i].slug, tasks[i], i, ATPending, 0, map[], 0, WorkerNone, "", "", [], tier, 0, "",
                           "", 0, 0)
    {
      this.cap := cap;
      this.chain := Chain(meta, tasks, tier, repo, cap);
      this.trace := [];
      this.meta := meta;
      this.status := ChainPending;
      this.position := 0;
      this.failedSlug := "";
      this.repo := repo;
      this.phase := Idle;
      this.entries, this.attempts, this.evidence := 0, 0, map[];
      var seeds: seq<ATRecord> := [];
      for i := 0 to |tasks|
        invariant |seeds| == i
        invariant forall j :: 0 <= j < i ==> seeds[j] == SeedRecordOf(tasks[j], j, tier)
      {
        seeds := seeds + [SeedRecordOf(tasks[i], i, tier)];
      }
      this.ats := seeds;
      this.log := [ChainStarted(meta, seeds)];
      new;
      assert seeds == SeedRecords(tasks, tier);
    }

    // -------------------------------------------------------------- emitting

    method EmitAT(r: ATRecord)
      modifies this`log
      ensures log == old(log) + [ATStatusChanged(r)]
    {
      log := log + [ATStatusChanged(r)];
    }

    method EmitChain()
      modifies this`log, this`phase
      ensures log == old(log) + [ChainStatusChanged(status, failedSlug, position)]
      ensures phase == Idle
    {
      log := log + [ChainStatusChanged(status, failedSlug, position)];
      phase := Idle;
    }

    // --------------------------------------------------------------- running

    /** `runOne` from the worker loop on, on the record `r` of the open worktree. */
    method WorkInWorktree(r: ATRecord, inp: RunInput) returns (ar: ATRecord, ghost e: Executed)
      modifies this`repo
      ensures e == WorkAndLand(r, old(repo), cap, inp)
      ensures ar == e.record && repo == e.repo
    {
      ar := r;
      e := WorkAndLand(r, repo, cap, inp);
      var tip := Tip(repo, ar.parentSha);
      var end: WorkerEnd;
      var entered := false;
      if NoWorker(ar, inp) {
        end := WorkerEnd(WorkerCommandError, "no worker wired", 0, [], ar.highestTier, ar.lastDiagnostic);
      } else if cap > 0 && ar.respawns >= cap {
        end := WorkerEnd(WorkerRespawnCapReached, inp.stuckVerdict, 0, [], ar.highestTier, ar.lastDiagnostic);
      } else {
        entered := true;
        end := RunWorkerLoop(ar.spec, inp.attempt, ar.highestTier, ar.lastDiagnostic);
        ar := ar.(respawns := ar.respawns + 1, highestTier := end.tier, lastDiagnostic := end.lastDiagnostic);
      }
      ar := ar.(iterations := end.iterations, worker := end.status, diagnostic := end.diagnostic, flags := end.flags);
      assert ar == AfterWork(r, end, entered) && (end, entered) == Work(r, cap, inp);
      if end.status != WorkerSuccess {
        ar := ar.(status := ATFailed);
        return;
      }
      var verified := RunVerifyPhase(ar.spec, inp.verify);
      if verified != WorkerSuccess {
        ar := ar.(status := ATFailed, worker := verified, diagnostic := inp.verifyDiagnostic);
        return;
      }
      if inp.contract.Violated? {
        ar := ar.(status := ATFailed, worker := WorkerOutputContractViolation, diagnostic := inp.contract.message);
        return;
      }
      ar := ar.(outputs := inp.contract.outputs);
      match inp.commit {
        case CommitFailed(message) =>
          ar := ar.(status := ATFailed, worker := WorkerCommandError, diagnostic := "commit: " + message);
          return;
        case Committed(forwarded) =>
          repo := CommitOn(repo, tip);
          ar := ar.(commit := |repo.parents|);
          if forwarded { repo := repo.(head := ar.commit); }
        case NothingToCommit(headKnown) =>
          if headKnown { ar := ar.(commit := repo.head); }
      }
      ar := ar.(worktree := "", status := ATSuccess);
    }

    /** `runOne` after the AT was marked running, without storing the record. */
    method ExecuteAT(r: ATRecord, inp: RunInput) returns (ar: ATRecord, ghost e: Executed)
      modifies this`repo
      ensures e == Execute(r, old(repo), cap, inp)
      ensures ar == e.record && repo == e.repo
    {
      ar := r;
      if inp.inputsError.Some? {
        ar := Failed(ar, WorkerCommandError, inp.inputsError.value);
        e := Executed(ar, repo, false, 0);
        return;
      }
      if ar.parentSha == 0 && inp.headKnown { ar := ar.(parentSha := repo.head); }
      if inp.openError.Some? {
        ar := Failed(ar, WorkerCommandError, "open workspace: " + inp.openError.value);
        e := Executed(ar, repo, false, 0);
        return;
      }
      ar := ar.(worktree := inp.dir);
      if ar.spec.hasOracles {
        match inp.seed {
          case SeedFailed(message) =>
            ar := Failed(ar, WorkerCommandError, "seed oracle: " + message);
            e := Executed(ar, repo, false, 0);
            return;
          case SeedCommitted =>
            repo := CommitOn(repo, Tip(repo, ar.parentSha));
            ar := ar.(parentSha := |repo.parents|);
          case SeedUnchanged =>
        }
      }
      ar, e := WorkInWorktree(ar, inp);
    }

    method RunOne(idx: nat, inp: RunInput) returns (ok: bool)
      requires phase.Driving? && idx == position < |ats| && !ats[idx].Resolved()
      modifies this`ats, this`log, this`repo, this`phase, this`entries, this`attempts, this`evidence
      ensures Apply(old(View()), cap, Look(false)).phase.Executing?
      ensures View() == Apply(Apply(old(View()), cap, Look(false)), cap, Perform(inp))
      ensures phase.Settled? && |ats| == old(|ats|) && (ok <==> ats[idx].status == ATSuccess)
    {
      ats := ats[idx := ats[idx].(status := ATRunning)];
      EmitAT(ats[idx]);
      phase := Executing;
      assert View() == LookStep(old(View()), false);
      ok := PerformOne(inp);
    }

    method PerformOne(inp: RunInput) returns (ok: bool)
      requires phase.Executing? && 0 <= position < |ats|
      modifies this`ats, this`log, this`repo, this`phase, this`entries, this`attempts, this`evidence
      ensures View() == PerformStep(old(View()), cap, inp)
      ensures |ats| == old(|ats|) && (ok <==> ats[position].status == ATSuccess)
    {
      ghost var key := KeyOf(ats[position]);
      var ar, e := ExecuteAT(ats[position], inp);
      ats := ats[position := ar];
      EmitAT(ar);
      phase := Settled;
      entries := entries + if e.entered then 1 else 0;
      attempts := attempts + e.attempts;
      evidence := evidence[key := inp];
      ok := ar.status == ATSuccess;
    }

    /** One round of the run loop, with an AT left to look at. */
    method DriveOne(r: RoundInput) returns (more: bool)
      requires phase.Driving? && status == ChainRunning && 0 <= position < |ats|
      modifies this`status, this`position, this`ats, this`failedSlug, this`log, this`repo,
               this`phase, this`entries, this`attempts, this`evidence
      ensures View() == DriveRound(old(View()), cap, r)
      ensures RoundDid(old(State()), State(), old(repo), repo, cap, r)
      ensures more <==> phase.Driving?
      ensures more ==> status == ChainRunning && position == old(position) + 1 && |ats| == old(|ats|)
    {
      RoundDoes(View(), cap, r);
      more := DriveStep(r);
    }

    method DriveStep(r: RoundInput) returns (more: bool)
      requires phase.Driving? && status == ChainRunning && 0 <= position < |ats|
      modifies this`status, this`position, this`ats, this`failedSlug, this`log, this`repo,
               this`phase, this`entries, this`attempts, this`evidence
      ensures View() == DriveRound(old(View()), cap, r)
      ensures more <==> phase.Driving?
      ensures more ==> status == ChainRunning && position == old(position) + 1 && |ats| == old(|ats|)
    {
      if r.pause {
        status := ChainPaused;
        EmitChain();
        return false;
      }
      if ats[position].Resolved() {
        position := position + 1;
        return true;
      }
      var ok := RunOne(position, r.run);
      more := SettleOne(ok);
    }

    /** The loop of `RunToCompletion`: drive the remaining ATs in order, stop at the
        first failure or a pause. Round `k` of the loop meets `env(k)`. */
    method DriveLoop(env: nat -> RoundInput)
      requires phase.Driving? && status == ChainRunning && position >= 0
      modifies this`status, this`position, this`ats, this`failedSlug, this`log, this`repo,
               this`phase, this`entries, this`attempts, this`evidence
      ensures View() == Drive(old(View()), cap, env, 0)
    {
      ghost var goal := Drive(View(), cap, env, 0);
      var k := 0;
      while position < |ats|
        invariant phase.Driving? && status == ChainRunning && 0 <= position
        invariant Drive(View(), cap, env, k) == goal
        decreases |ats| - position
      {
        var more := DriveOne(env(k));
        if !more { return; }
        k := k + 1;
      }
      status := ChainSuccess;
      EmitChain();
    }

    /** What the loop does with the verdict of `runOne`. */
    method SettleOne(ok: bool) returns (passed: bool)
      requires phase.Settled? && 0 <= position < |ats| && (ok <==> ats[position].status == ATSuccess)
      modifies this`status, this`position, this`failedSlug, this`log, this`phase
      ensures View() == Apply(old(View()), cap, Settle)
      ensures passed <==> phase.Driving?
      ensures passed ==> status == old(status) && position == old(position) + 1
    {
      if !ok {
        status := ChainFailed;
        failedSlug := ats[position].slug;
        EmitChain();
        return false;
      }
      position := position + 1;
      phase := Driving;
      return true;
    }

    method RunToCompletion(env: nat -> RoundInput)
      requires Valid()
      modifies this
      ensures Valid()
      ensures old(position) >= 0 && View() == ChainMachine.RunToCompletion(old(View()), cap, env)
    {
      ghost var steps := AfterRunLoop(chain, trace, env);
      status := ChainRunning;
      phase := Driving;
      DriveLoop(env);
      trace := trace + steps;
      DriveEndsIdle(Apply(old(View()), cap, ChainMachine.Resume), cap, env, 0);
    }

    /** `Resume` has no status guard: it re-enters the run loop whatever the status, so
        an aborted chain runs on. */
    method Resume(env: nat -> RoundInput)
      requires Valid()
      modifies this
      ensures Valid()
      ensures old(position) >= 0 && View() == ChainMachine.RunToCompletion(old(View()), cap, env)
    {
      RunToCompletion(env);
    }

    // ---------------------------------------------------------------- staging

    method PutCurrent(r: ATRecord)
      requires 0 <= position < |ats|
      modifies this`ats, this`log
      ensures View() == PutAT(old(View()), position, r)
    {
      ats := ats[position := r];
      EmitAT(r);
    }

    /** Set the chain back to pending at `next`; nothing re-executes until a resume. */
    method SetPending(next: int)
      modifies this`status, this`failedSlug, this`position, this`log, this`phase
      ensures View() == PutChain(old(View()), ChainPending, "", next)
    {
      position := next;
      status, failedSlug := ChainPending, "";
      EmitChain();
    }

    method Retry() returns (ok: bool)
      requires Valid()
      modifies this
      ensures Valid()
      ensures ok <==> old(State().Stageable() && HasCurrent(State()))
      ensures View() == Apply(old(View()), cap, ChainMachine.Retry)
      ensures if ok then Retried(old(State()), State()) && repo == old(repo) else View() == old(View())
    {
      AfterStep(chain, trace, ChainMachine.Retry);
      ok := State().Stageable() && 0 <= position < |ats|;
      if ok { RetryDoes(View(), Apply(View(), cap, ChainMachine.Retry), cap, ChainMachine.Retry); }
      if ok {
        PutCurrent(ats[position].Reset());
        SetPending(position);
      }
      trace := trace + [ChainMachine.Retry];
    }

    method Skip() returns (ok: bool)
      requires Valid()
      modifies this
      ensures Valid()
      ensures ok <==> old(State().Stageable() && HasCurrent(State()))
      ensures View() == Apply(old(View()), cap, ChainMachine.Skip)
      ensures if ok then Skipped(old(State()), State()) && repo == old(repo) else View() == old(View())
    {
      AfterStep(chain, trace, ChainMachine.Skip);
      ok := State().Stageable() && 0 <= position < |ats|;
      if ok { SkipDoes(View(), Apply(View(), cap, ChainMachine.Skip), cap, ChainMachine.Skip); }
      if ok {
        PutCurrent(ats[position].(status := ATSkipped));
        SetPending(position + 1);
      }
      trace := trace + [ChainMachine.Skip];
    }

    method Abort()
      requires Valid()
      modifies this
      ensures Valid()
      ensures View() == Apply(old(View()), cap, ChainMachine.Abort)
      ensures AbortedTo(old(State()), State()) && repo == old(repo)
    {
      AfterStep(chain, trace, ChainMachine.Abort);
      status := ChainAborted;
      EmitChain();
      trace := trace + [ChainMachine.Abort];
    }

    method EditIfAllowed(goal: string, workspace: Option<seq<string>>) returns (ok: bool)
      modifies this`ats, this`status, this`failedSlug, this`position, this`log, this`phase
      ensures ok <==> old(State().Stageable() && HasCurrent(State())) && !Blank(goal)
      ensures View() == if ok then EditStep(old(View()), goal, workspace) else old(View())
    {
      ok := State().Stageable() && 0 <= position < |ats| && !Blank(goal);
      if ok {
        var r := ats[position];
        r := r.(spec := r.spec.(goal := goal));
        if workspace.Some? { r := r.(spec := r.spec.(workspace := workspace.value)); }
        PutCurrent(r.Reset());
        SetPending(position);
      }
    }

    method InterveneEdit(goal: string, workspace: Option<seq<string>>) returns (ok: bool)
      requires Valid()
      modifies this
      ensures Valid()
      ensures ok <==> old(State().Stageable() && HasCurrent(State())) && !Blank(goal)
      ensures View() == Apply(old(View()), cap, Edit(goal, workspace))
      ensures if ok then EditedTo(old(State()), State(), goal, workspace) && repo == old(repo)
              else View() == old(View())
    {
      AfterStep(chain, trace, Edit(goal, workspace));
      if State().Stageable() && HasCurrent(State()) && !Blank(goal) {
        EditDoes(View(), Apply(View(), cap, Edit(goal, workspace)), cap, Edit(goal, workspace));
      }
      ok := EditIfAllowed(goal, workspace);
      trace := trace + [Edit(goal, workspace)];
    }

    method ForceCurrent(sha: Sha, justification: string)
      requires 0 <= position < |ats|
      modifies this`repo, this`ats, this`status, this`failedSlug, this`position, this`log, this`phase
      ensures View() == ForceAdvanceStep(old(View()), sha, justification)
    {
      repo := repo.(head := sha);
      PutCurrent(Forced(ats[position], sha, justification));
      position := position + 1;
      if position < |ats| { PutCurrent(ats[position].Reset()); }
      SetPending(position);
    }

    method ForceIfAllowed(sha: Sha, justification: string, refused: bool) returns (ok: bool)
      requires phase.Idle?
      modifies this`repo, this`ats, this`status, this`failedSlug, this`position, this`log, this`phase
      ensures ok <==> ForceAllowed(old(View()), sha, justification, refused)
      ensures View() == if ok then ForceAdvanceStep(old(View()), sha, justification) else old(View())
    {
      ok := State().Stageable() && sha != 0 && !Blank(justification) && 0 <= position < |ats|
        && repo.Holds(sha) && !refused;
      if ok { ForceCurrent(sha, justification); }
    }

    method ForceStep(sha: Sha, justification: string, refused: bool) returns (ok: bool)
      requires Valid()
      modifies this
      ensures Valid()
      ensures ok <==> ForceAllowed(old(View()), sha, justification, refused)
      ensures View() == Apply(old(View()), cap, ForceAdvance(sha, justification, refused))
    {
      AfterStep(chain, trace, ForceAdvance(sha, justification, refused));
      ok := ForceIfAllowed(sha, justification, refused);
      trace := trace + [ForceAdvance(sha, justification, refused)];
    }

    method InterveneForceAdvance(sha: Sha, justification: string, refused: bool) returns (ok: bool)
      requires Valid()
      modifies this
      ensures Valid()
      ensures ok <==> ForceAllowed(old(View()), sha, justification, refused)
      ensures View() == Apply(old(View()), cap, ForceAdvance(sha, justification, refused))
      ensures !ok ==> View() == old(View())
      ensures ok ==>
        ForcedTo(old(State()), State(), repo.head, sha, justification) && repo.parents == old(repo).parents
    {
      ForceIfDoes(View(), cap, ForceAdvance(sha, justification, refused));
      ok := ForceStep(sha, justification, refused);
    }

    // -------------------------------------------------------------- branch_fix

    method FindTarget(target: string) returns (t: nat)
      ensures t == TargetIndex(ats, target)
    {
      t := 0;
      while t < |ats| && !(ats[t].slug == target && ats[t].branchIndex == 0)
        invariant t <= |ats|
        invariant forall j :: 0 <= j < t ==> !(ats[j].slug == target && ats[j].branchIndex == 0)
      {
        t := t + 1;
      }
    }

    method ExistingBranches(target: string) returns (existing: seq<string>)
      ensures existing == BranchSlugs(ats, target)
    {
      existing := [];
      for i := 0 to |ats|
        invariant existing + BranchSlugs(ats[i..], target) == BranchSlugs(ats, target)
      {
        assert ats[i..][1..] == ats[i + 1..];
        if ats[i].parentSlug == target { existing := existing + [ats[i].slug]; }
      }
    }

    /** Supersede the target and its branches, having reset the current AT if the
        integration branch is rewound. */
    method SupersedeTarget(target: string, t: nat)
      requires t < |ats|
      modifies this`ats
      ensures ats == Supersede(old(State()), target, t)
    {
      if t != position && ats[t].commit != 0 && 0 <= position < |ats| {
        ats := ats[position := ats[position].Reset().(parentSha := 0)];
      }
      ats := ats[t := ats[t].(commit := 0, status := ATSkipped)];
      ghost var mid := ats;
      for i := 0 to |ats|
        invariant |ats| == |mid|
        invariant forall j :: i <= j < |ats| ==> ats[j] == mid[j]
        invariant forall j :: 0 <= j < i ==> ats[j] == Uncredited(mid[j], target)
      {
        if ats[i].parentSlug == target {
          ats := ats[i := ats[i].(commit := 0, status := ATSkipped)];
        }
      }
    }

    method EmitStatus(slug: string)
      modifies this`log
      ensures log == old(log) + StatusEvent(ats, slug)
    {
      var i := FindAT(ats, slug);
      if i < |ats| { EmitAT(ats[i]); }
    }

    method EmitStatuses(reported: seq<string>)
      modifies this`log
      ensures log == old(log) + StatusEvents(ats, reported)
    {
      for k := 0 to |reported|
        invariant log + StatusEvents(ats, reported[k..]) == old(log) + StatusEvents(ats, reported)
      {
        StatusEventsAt(ats, reported, k);
        AppendAssoc(log, StatusEvent(ats, reported[k]), StatusEvents(ats, reported[k + 1..]));
        EmitStatus(reported[k]);
      }
    }

    /** Rewind the integration branch to the target's fork point when it must be. */
    method RewindFor(t: nat, rewound: bool)
      requires t < |ats|
      modifies this`repo
      ensures repo == RewoundRepo(old(repo), State(), t, rewound)
    {
      if t != position && ats[t].commit != 0 {
        var fork := ats[t].parentSha;
        if fork == 0 { fork := repo.head; }
        if rewound { repo := repo.(head := fork); }
      }
    }

    method InsertBranch(target: string, t: nat, branch: ATRecord)
      requires t < |ats|
      modifies this`ats
      ensures ats == Renumber(InsertAt(Supersede(old(State()), target, t), t, branch))
    {
      SupersedeTarget(target, t);
      ghost var sup := ats;
      ats := Renumber(ats[..t] + ([branch] + ats[t..]));
      assert sup[..t] + ([branch] + sup[t..]) == InsertAt(sup, t, branch);
    }

    method EmitBranch(slug: string, reported: seq<string>)
      modifies this`log
      ensures log == old(log) + (InsertEvents(ats, slug) + StatusEvents(ats, reported))
    {
      var b := FindAT(ats, slug);
      if b < |ats| { log := log + [ATInserted(ats[b])]; }
      EmitStatuses(reported);
    }

    method BranchRecords(target: string, t: nat, existing: seq<string>, goal: string, ghost s: RunState)
      requires t < |ats| && existing == BranchSlugs(ats, target) && s == State()
      modifies this`ats, this`log
      ensures ats == BranchedATs(s, target, t, goal)
      ensures log == old(log) + BranchEvents(s, target, t, goal)
    {
      var reported := [target] + existing;
      if t != position && 0 <= position < |ats| { reported := reported + [ats[position].slug]; }
      assert reported == ChangedSlugs(s, target, t);
      var branch := BranchRecord(ats[t], t, |existing| + 1, goal);
      InsertBranch(target, t, branch);
      EmitBranch(branch.slug, reported);
    }

    method StageBranch(target: string, t: nat, existing: seq<string>, goal: string, rewound: bool)
      requires t < |ats| && t == TargetIndex(ats, target) && existing == BranchSlugs(ats, target)
      modifies this`repo, this`ats, this`log
      ensures View() == Branching(old(View()), target, goal, rewound)
    {
      ghost var s := State();
      RewindFor(t, rewound);
      BranchRecords(target, t, existing, goal, s);
    }

    method BranchAt(target: string, t: nat, existing: seq<string>, goal: string, rewound: bool)
      requires t < |ats| && t == TargetIndex(ats, target) && existing == BranchSlugs(ats, target)
      modifies this`repo, this`ats, this`status, this`failedSlug, this`position, this`log, this`phase
      ensures View() == BranchFixStep(old(View()), target, goal, rewound)
    {
      StageBranch(target, t, existing, goal, rewound);
      SetPending(t);
    }

    /** The checks of `InterveneBranchFix` behind the stageable one, and the branch. */
    method BranchIfAllowed(target: string, goal: string, maxBranches: int, rewound: bool) returns (ok: bool)
      modifies this`repo, this`ats, this`status, this`failedSlug, this`position, this`log, this`phase
      ensures ok <==> BranchAllowed(old(State()), target, maxBranches)
      ensures View() == if ok then BranchFixStep(old(View()), target, goal, rewound) else old(View())
    {
      var t := FindTarget(target);
      if t == |ats| { return false; }
      var existing := ExistingBranches(target);
      ok := MayBranch(target, t, |existing|, maxBranches);
      if ok { BranchAt(target, t, existing, goal, rewound); }
    }

    method MayBranch(target: string, t: nat, existing: nat, maxBranches: int) returns (ok: bool)
      requires t == TargetIndex(ats, target) < |ats| && existing == |BranchSlugs(ats, target)|
      ensures ok <==> BranchAllowed(State(), target, maxBranches)
    {
      var limit := if maxBranches <= 0 then DEFAULT_MAX_BRANCHES else maxBranches;
      var branching := 0 <= position < |ats| && ats[position].parentSlug == target;
      ok := (t == position || t == position - 1 || branching) && existing + 1 <= limit;
    }

    /** And the stageable one. */
    method BranchIfStageable(target: string, goal: string, maxBranches: int, rewound: bool, ghost step: Step)
      returns (ok: bool)
      requires phase.Idle? && step == BranchFix(target, goal, maxBranches, rewound)
      modifies this`repo, this`ats, this`status, this`failedSlug, this`position, this`log, this`phase
      ensures ok <==> old(State().Stageable()) && BranchAllowed(old(State()), target, maxBranches)
      ensures View() == Apply(old(View()), cap, step) && (!ok ==> View() == old(View()))
      ensures ok ==>
        var t, n := TargetIndex(old(ats), target), |BranchSlugs(old(ats), target)| + 1;
        && BranchedTo(old(State()), State(), target, t, n, goal)
        && RefBranched(old(State()), t, old(repo), repo, rewound)
    {
      ok := false;
      if State().Stageable() {
        if BranchAllowed(State(), target, maxBranches) {
          BranchDoes(View(), Apply(View(), cap, step), cap, step, TargetIndex(ats, target));
        }
        ok := BranchIfAllowed(target, goal, maxBranches, rewound);
      }
    }

    /** `InterveneBranchFix`; `goal` is the augmented goal, `rewound` whether the branch
        ref could be reset. */
    method InterveneBranchFix(target: string, goal: string, maxBranches: int, rewound: bool) returns (ok: bool)
      requires Valid()
      modifies this
      ensures Valid()
      ensures ok <==> old(State().Stageable()) && BranchAllowed(old(State()), target, maxBranches)
      ensures View() == Apply(old(View()), cap, BranchFix(target, goal, maxBranches, rewound))
      ensures !ok ==> View() == old(View())
      ensures ok ==>
        var t, n := TargetIndex(old(ats), target), |BranchSlugs(old(ats), target)| + 1;
        && BranchedTo(old(State()), State(), target, t, n, goal)
        && RefBranched(old(State()), t, old(repo), repo, rewound)
      ensures ok ==> 0 <= position < |ats| && ats[position].spec.goal == goal
    {
      ghost var step := BranchFix(target, goal, maxBranches, rewound);
      AfterStep(chain, trace, step);
      ok := BranchIfStageable(target, goal, maxBranches, rewound, step);
      trace := trace + [step];
    }

    /** Somebody else commits to the repository. */
    method OutsideCommit(parent: Sha)
      requires Valid()
      modifies this
      ensures Valid()
      ensures View() == Apply(old(View()), cap, ChainMachine.OutsideCommit(parent))
    {
      ghost var step := ChainMachine.OutsideCommit(parent);
      AfterStep(chain, trace, step);
      if parent == 0 || repo.Holds(parent) { repo := CommitOn(repo, parent); }
      trace := trace + [step];
    }
  }
}
