/** The agent's round loop (internal/agent/loop.go, recovery.go). */
module AgentLoop {
  import opened Text
  import opened Transcript
  import opened Reminders
  import opened Eviction
  import opened Compactor
  import opened Retention
  import opened AgentTypes

  const MAX_TOKEN_RATIO := 2.5
  const MAX_REPEATED_CALL_ROUNDS := 3
  const MAX_OVERFLOW := 4
  const MAX_MALFORMED := 3
  const MAX_TIMEOUT := 2
  const MAX_RATE_LIMIT := 4

  const REPROMPT := "Your previous tool call could not be parsed: its function arguments were not valid JSON."

  datatype Faults = Faults(overflow: nat, malformed: nat, timeout: nat, rateLimit: nat)

  /** The counters of one run; `round - cycleStart` is what the round cap measures. */
  datatype Turn = Turn(
    round: nat, cycleStart: nat, lastProgress: nat, lastSpawn: nat, rung: string, signature: string, faults: Faults)

  datatype Next = Continue(turn: Turn) | Break(detail: string) | Return(result: Result)

  datatype Recovery = Abort | Retry | Graceful

  class Loop {
    const cfg: Config
    var transcript: seq<ChatMessage>
    var summaryBody: string
    var goalAnchor: string
    var budget: nat
    var ratio: real
    var toolSpecTokens: int
    var calibrated: bool
    var verifyRounds: nat
    var fabricationRounds: nat
    var narratedSeq: nat
    var lastOpportunistic: int
    var lastReconcile: string
    /** The escalate edges the router can still grant. */
    var edges: nat
    /** What the current run did. */
    ghost var trace: seq<Act>
    /** What the transcript is to keep, and what it was to keep when the run began. */
    ghost var keep: Keep
    ghost var start: Keep
    /** The compaction that folded this run's prompt away. */
    ghost var fold: Option<Fold>

    constructor (cfg: Config, seed: seq<ChatMessage>, budget: nat, edges: nat)
      requires Formed(seed, []) && cfg.maxRounds > 0
      ensures Valid() && this.cfg == cfg && transcript == seed && this.edges == edges
      ensures verifyRounds == fabricationRounds == 0 && trace == []
    {
      this.cfg, transcript, summaryBody, goalAnchor := cfg, seed, "", "";
      this.budget, ratio, toolSpecTokens, calibrated := budget, 1.0, 0, false;
      verifyRounds, fabricationRounds, narratedSeq := 0, 0, 0;
      lastOpportunistic, lastReconcile, this.edges, trace := 0, "", edges, [];
      keep, start, fold := Keep([], "", None), Keep([], "", None), None;
    }

    ghost predicate Valid()
      reads this`transcript, this`keep, this`goalAnchor, this`trace, this`start, this`fold
    {
      Ready() && cfg.maxRounds > 0
    }

    /** The transcript is well formed with `ids` outstanding, and has all it is to keep. */
    ghost predicate Held(ids: seq<string>) reads this`transcript, this`keep, this`goalAnchor {
      Formed(transcript, ids) && Kept(transcript, keep) && keep.goal == goalAnchor
    }

    /** Every call of this run was well formed and kept what it was to keep. */
    ghost predicate Recorded() reads this`trace, this`start, this`keep, this`fold {
      && Sound(trace, start, fold.Some?) && Since(start, keep, fold.Some?)
      && (fold.Some? ==> cfg.hasCompactor && start.prompt.Some? && FoldsAway(fold.value, start.prompt.value))
    }

    /** Between messages: nothing outstanding. */
    ghost predicate Ready()
      reads this`transcript, this`keep, this`goalAnchor, this`trace, this`start, this`fold
    {
      Held([]) && Recorded()
    }

    /** The gate revises and fabrication re-prompts left to spend. */
    ghost function Unspent(): nat reads this`verifyRounds, this`fabricationRounds {
      (if verifyRounds < cfg.verifyRounds then cfg.verifyRounds - verifyRounds else 0) +
      (if fabricationRounds < cfg.fabricationReprompts then cfg.fabricationReprompts - fabricationRounds else 0)
    }

    /** What can still pay for a fresh cycle of rounds. */
    ghost function Left(): nat reads this`verifyRounds, this`fabricationRounds, this`edges { Unspent() + edges }

    // ------------------------------------------------------------ small steps

    ghost method Record(a: Act)
      requires Recorded() && (a.Called? ==> Sendable(a) && a.keep == keep)
      modifies this`trace
      ensures trace == old(trace) + [a] && Recorded()
      ensures Calls(trace) == Calls(old(trace)) + if a.Called? then 1 else 0
      ensures Green(trace) <==> if a.Gated? then a.ok else !a.Dispatched? && Green(old(trace))
    {
      TraceAppend(trace, a, start, fold.Some?);
      trace := trace + [a];
    }

    /** Ask the router for an escalate edge. */
    method Ask(grant: bool) returns (ok: bool)
      modifies this`edges
      ensures edges == old(edges) - if ok then 1 else 0
      ensures ok <==> grant && old(edges) > 0
    {
      ok := grant && edges > 0;
      if ok { edges := edges - 1; }
    }

    method Append(m: ChatMessage, ghost ids: seq<string>, ghost ids': seq<string>)
      requires Held(ids) && Fits(ids, m, ids')
      modifies this`transcript
      ensures Held(ids') && transcript == old(transcript) + [m]
    {
      FormedAppend(transcript, ids, m, ids');
      KeptAppend(transcript, m, keep);
      transcript := transcript + [m];
    }

    method Tell(content: string)
      requires Held([])
      modifies this`transcript
      ensures Held([]) && transcript == old(transcript) + [UserMessage(content)]
    {
      Append(UserMessage(content), [], []);
    }

    // -------------------------------------------------------------- compaction

    /** `firstUserContent`, once: the anchor never changes again. */
    method AnchorGoal()
      requires Ready()
      modifies this`goalAnchor, this`keep
      ensures Ready() && keep == old(keep).(goal := goalAnchor)
      ensures goalAnchor == Anchored(old(goalAnchor), transcript)
    {
      if goalAnchor == "" {
        var i := 0;
        while i < |transcript| && !transcript[i].role.User?
          invariant i <= |transcript| && FirstUser(transcript) == FirstUser(transcript[i..])
        {
          assert transcript[i..][1..] == transcript[i + 1..];
          i := i + 1;
        }
        if i < |transcript| {
          KeptGoal(transcript, i, keep);
          goalAnchor := transcript[i].content;
        }
        keep := keep.(goal := goalAnchor);
      }
    }

    method Compact(target: int, recency: int, reply: Option<string>) returns (did: bool)
      requires Ready() && cfg.hasCompactor
      modifies this`transcript, this`summaryBody, this`keep, this`fold
      ensures Ready()
      ensures did <==> Compacts(old(transcript), toolSpecTokens, target, recency, ratio, reply)
      ensures did ==> summaryBody == reply.value
      ensures did ==>
        CompactedTo(old(transcript), transcript, goalAnchor, reply.value, toolSpecTokens, target, recency, ratio)
      ensures keep.head == old(keep).head && (old(keep).prompt.None? ==> fold == old(fold))
      ensures !did ==>
        transcript == old(transcript) && summaryBody == old(summaryBody) && keep == old(keep) && fold == old(fold)
    {
      var out, summary, ev, tail :=
        CompactToBudget(transcript, goalAnchor, summaryBody, toolSpecTokens, target, recency, ratio, reply);
      did := ev.Some?;
      if did { Adopt(out, summary, AtLeastOneGroup(recency), tail, ev.value.groupsEvicted); }
    }

    /** The compacted transcript takes the place of the old one. */
    method Adopt(out: seq<ChatMessage>, summary: string, ghost cap: int, ghost tail: int, ghost evicted: nat)
      requires Ready() && cfg.hasCompactor
      requires Compacted(transcript, out, SummaryMessage(goalAnchor, summary), cap, tail, evicted)
      modifies this`transcript, this`summaryBody, this`keep, this`fold
      ensures Ready() && transcript == out && summaryBody == summary
      ensures keep == KeepAfter(old(keep), out) && (old(keep).prompt.None? ==> fold == old(fold))
    {
      Folded(out, summary, cap, tail, evicted);
      transcript, summaryBody := out, summary;
    }

    /** What a compaction to `out` keeps, and whether it is the one that folds the prompt. */
    ghost method Folded(out: seq<ChatMessage>, summary: string, cap: int, tail: int, evicted: nat)
      requires Ready() && cfg.hasCompactor
      requires Compacted(transcript, out, SummaryMessage(goalAnchor, summary), cap, tail, evicted)
      modifies this`keep, this`fold
      ensures Formed(out, []) && Kept(out, keep) && keep.goal == goalAnchor && Recorded()
      ensures keep == KeepAfter(old(keep), out) && (old(keep).prompt.None? ==> fold == old(fold))
    {
      CompactedFormed(transcript, out, goalAnchor, summary, cap, tail, evicted, []);
      KeptCompacted(transcript, out, summary, cap, tail, evicted, keep);
      var k := KeepAfter(keep, out);
      if k != keep { fold := Some(Fold(transcript, out)); }
      keep := k;
    }

    method CompactAnchored(target: int, recency: int, reply: Option<string>) returns (did: bool)
      requires Ready() && cfg.hasCompactor
      modifies this`transcript, this`summaryBody, this`goalAnchor, this`keep, this`fold
      ensures Ready() && keep.head == old(keep).head && (old(keep).prompt.None? ==> fold == old(fold))
      ensures goalAnchor == Anchored(old(goalAnchor), old(transcript))
      ensures did <==> Compacts(old(transcript), toolSpecTokens, target, recency, ratio, reply)
      ensures did ==> summaryBody == reply.value
      ensures did ==>
        CompactedTo(old(transcript), transcript, goalAnchor, reply.value, toolSpecTokens, target, recency, ratio)
      ensures !did ==> transcript == old(transcript) && summaryBody == old(summaryBody)
    {
      AnchorGoal();
      did := Compact(target, recency, reply);
    }

    method MaybeCompact(reply: Option<string>) returns (did: bool)
      requires Ready()
      modifies this`transcript, this`summaryBody, this`goalAnchor, this`keep, this`fold
      ensures Ready() && keep.head == old(keep).head && (old(keep).prompt.None? ==> fold == old(fold))
      ensures goalAnchor == if cfg.hasCompactor then Anchored(old(goalAnchor), old(transcript)) else old(goalAnchor)
      ensures did <==>
        cfg.hasCompactor && Compacts(old(transcript), toolSpecTokens, budget, cfg.recencyTurns, ratio, reply)
      ensures did ==> summaryBody == reply.value && CompactedTo(old(transcript), transcript, goalAnchor, reply.value,
                                                                toolSpecTokens, budget, cfg.recencyTurns, ratio)
      ensures !did ==> transcript == old(transcript) && summaryBody == old(summaryBody)
    {
      if !cfg.hasCompactor { return false; }
      did := CompactAnchored(budget, cfg.recencyTurns, reply);
    }

    /** What a forced compaction aims at: less by a quarter with each attempt, and a
        turn-group less with each but the first. */
    function TargetAt(attempt: nat): int reads this`budget, this`toolSpecTokens {
      Quartered(budget, toolSpecTokens + FORCED_ROOM, attempt)
    }

    function RecencyAt(attempt: nat): int { cfg.recencyTurns - (attempt - 1) }

    /** A forced compaction on this attempt would fire. */
    ghost predicate Forceable(attempt: nat, reply: Option<string>)
      reads this`transcript, this`toolSpecTokens, this`ratio, this`budget
    {
      && cfg.hasCompactor
      && Compacts(transcript, toolSpecTokens, TargetAt(attempt), RecencyAt(attempt), ratio, reply)
    }

    /** And then it leaves `transcript` for `t`. */
    ghost predicate ForcedFrom(t: seq<ChatMessage>, attempt: nat, reply: Option<string>)
      reads this`transcript, this`goalAnchor, this`toolSpecTokens, this`ratio, this`budget
    {
      && reply.Some?
      && CompactedTo(t, transcript, goalAnchor, reply.value, toolSpecTokens, TargetAt(attempt), RecencyAt(attempt),
                     ratio)
    }

    method ForceCompact(attempt: nat, reply: Option<string>) returns (did: bool)
      requires Ready()
      modifies this`transcript, this`summaryBody, this`goalAnchor, this`keep, this`fold
      ensures Ready()
      ensures did <==> old(Forceable(attempt, reply))
      ensures did ==> ForcedFrom(old(transcript), attempt, reply)
      ensures !did ==> transcript == old(transcript)
    {
      if !cfg.hasCompactor { return false; }
      var target := Tighten(attempt);
      did := CompactAnchored(target, cfg.recencyTurns - (attempt - 1), reply);
    }

    /** The budget tightened by a quarter per attempt, never below the overhead and a bit. */
    method Tighten(attempt: nat) returns (target: int)
      ensures target == TargetAt(attempt)
    {
      target := budget;
      var floor := toolSpecTokens + FORCED_ROOM;
      for i := 0 to attempt
        invariant Quartered(target, floor, attempt - i) == Quartered(budget, floor, attempt)
      {
        target := target * 3 / 4;
      }
      if target < floor { target := floor; }
    }

    /** `out` is `t` with the fewest oldest results elided that bring the size within budget,
        or all but the newest one. */
    ghost predicate BoundTo(t: seq<ChatMessage>, out: seq<ChatMessage>)
      reads this`budget, this`toolSpecTokens, this`ratio
    {
      if cfg.hasCompactor && budget > 0 then
        forall n: nat :: Enough(t, n, budget, toolSpecTokens, SOFT_KEEP, HARD_KEEP, ratio) ==> out == ElideOldest(t, n)
      else out == t
    }

    method BoundWithinTurn() returns (evicted: nat)
      requires Held([])
      modifies this`transcript
      ensures Held([]) && BoundTo(old(transcript), transcript)
      ensures cfg.hasCompactor && budget > 0 ==> transcript == ElideOldest(old(transcript), evicted)
      ensures cfg.hasCompactor && budget > 0 ==>
        Enough(old(transcript), evicted, budget, toolSpecTokens, SOFT_KEEP, HARD_KEEP, ratio)
    {
      evicted := 0;
      if !cfg.hasCompactor || budget == 0 { return; }
      var out;
      out, evicted := Evict();
      ElideFormed(transcript, evicted, []);
      KeptElide(transcript, evicted, keep);
      transcript := out;
    }

    method Evict() returns (out: seq<ChatMessage>, evicted: nat)
      requires cfg.hasCompactor && budget > 0
      ensures out == ElideOldest(transcript, evicted) && BoundTo(transcript, out)
      ensures Enough(transcript, evicted, budget, toolSpecTokens, SOFT_KEEP, HARD_KEEP, ratio)
    {
      var t := transcript;
      var a := new ChatMessage[|t|](i requires 0 <= i < |t| => t[i]);
      assert a[..] == t;
      evicted := EvictToolResults(a, budget, toolSpecTokens, SOFT_KEEP, HARD_KEEP, ratio);
      EnoughOnce(t, evicted, budget, toolSpecTokens, SOFT_KEEP, HARD_KEEP, ratio);
      out := a[..];
    }

    /** The goal is due every so many rounds; the spawn reminder from its round on, until the
        first spawn. */
    predicate GoalDue(turn: Turn) {
      cfg.goalReminderEvery > 0 && turn.round > 0 && turn.round % cfg.goalReminderEvery == 0
    }

    predicate SpawnDue(turn: Turn) {
      cfg.spawnForceEvery > 0 && cfg.spawnCapable && turn.lastSpawn == 0 && turn.round >= cfg.spawnForceEvery
    }

    /** `t` with one fresh reminder, when it is due. */
    function GoalShown(t: seq<ChatMessage>, turn: Turn): seq<ChatMessage> reads this`goalAnchor {
      if GoalDue(turn) && !Blank(goalAnchor) then Without(t, GOAL_MARKER) + [GoalReminder(goalAnchor)] else t
    }

    function SpawnShown(t: seq<ChatMessage>, turn: Turn): seq<ChatMessage> {
      if SpawnDue(turn) then Without(t, SPAWN_MARKER) + [SpawnReminder(turn.round)] else t
    }

    method RemindGoal(turn: Turn)
      requires Held([])
      modifies this`transcript
      ensures Held([]) && transcript == GoalShown(old(transcript), turn)
    {
      if cfg.goalReminderEvery > 0 && turn.round > 0 && turn.round % cfg.goalReminderEvery == 0 {
        if !Blank(goalAnchor) {
          RefreshedFormed(transcript, GOAL_MARKER, GoalReminder(goalAnchor));
          KeptGoalReminded(transcript, keep);
        }
        transcript := RefreshGoalReminder(transcript, goalAnchor);
      }
    }

    method RemindSpawn(turn: Turn)
      requires Held([])
      modifies this`transcript
      ensures Held([]) && transcript == SpawnShown(old(transcript), turn)
    {
      if cfg.spawnForceEvery > 0 && cfg.spawnCapable && turn.lastSpawn == 0 && turn.round >= cfg.spawnForceEvery {
        RefreshedFormed(transcript, SPAWN_MARKER, SpawnReminder(turn.round));
        KeptSpawnCleared(transcript, keep);
        KeptAppend(Without(transcript, SPAWN_MARKER), SpawnReminder(turn.round), keep);
        transcript := RefreshSpawnForce(transcript, turn.round);
      }
    }

    // ------------------------------------------------------- gate and audits

    /** The gate, and behind a green one the fake-green audit. */
    method Evaluate(r: Round) returns (green: bool)
      requires Recorded()
      modifies this`trace
      ensures Recorded() && Extends(old(trace), trace)
      ensures green <==> r.gateOk && !r.fakeGreen
      ensures green ==> Green(trace) && AuditPassed(trace)
    {
      Record(Gated(r.gateOk));
      if !r.gateOk { return false; }
      Record(Audited(r.fakeGreen));
      green := !r.fakeGreen;
    }

    /** The mid-flight or closing check of the current tree. */
    method OpportunisticGreen(r: Round, text: string) returns (done: bool, res: Result)
      requires Recorded()
      modifies this`trace
      ensures Recorded() && Extends(old(trace), trace)
      ensures done <==> (cfg.hasVerify || cfg.hasTerminalGreen) && r.gateOk && !r.fakeGreen
      ensures done ==> Green(trace) && AuditPassed(trace) && res == DONE.(text := text)
    {
      done, res := false, DONE;
      if !cfg.hasVerify && !cfg.hasTerminalGreen { return; }
      done := Evaluate(r);
      if done { res := DONE.(text := text); }
    }

    /** The throttled check after a round that wrote: green ends the run, red feedback
        not given before is progress. */
    method OpportunisticReconcile(r: Round, text: string) returns (done: bool, res: Result, told: bool)
      requires Ready()
      modifies this`transcript, this`trace, this`lastReconcile
      ensures Ready() && Extends(old(trace), trace)
      ensures done <==> cfg.hasVerify && r.gateOk && !r.fakeGreen
      ensures done ==> Green(trace) && AuditPassed(trace) && res == DONE.(text := text)
      ensures told <==> cfg.hasVerify && !r.gateOk && r.gateOut != "" && r.gateOut != old(lastReconcile)
      ensures transcript == if told then old(transcript) + [Checkpoint(r.gateOut)] else old(transcript)
    {
      done, res, told := false, DONE, false;
      if !cfg.hasVerify { return; }
      done := Evaluate(r);
      if done { return true, DONE.(text := text), false; }
      if !r.gateOk { told := FeedBack(r.gateOut); }
    }

    /** Red output that was not given before goes to the model. */
    method FeedBack(gateOut: string) returns (told: bool)
      requires Held([])
      modifies this`transcript, this`lastReconcile
      ensures Held([]) && lastReconcile == if told then gateOut else old(lastReconcile)
      ensures told <==> gateOut != "" && gateOut != old(lastReconcile)
      ensures transcript == if told then old(transcript) + [Checkpoint(gateOut)] else old(transcript)
    {
      if gateOut == "" || gateOut == lastReconcile { return false; }
      lastReconcile := gateOut;
      Append(Checkpoint(gateOut), [], []);
      told := true;
    }

    /** Both fault closers: the gate, evaluated right after the faulted call, decides. */
    method CloseOnFault(r: Round, fault: Fault, prefix: string) returns (handled: bool, res: Result)
      requires Recorded() && trace != [] && trace[|trace| - 1].Called? && trace[|trace| - 1].faulted
      requires prefix != ""
      modifies this`trace
      ensures Recorded() && Extends(old(trace), trace)
      ensures handled <==> cfg.hasVerify
      ensures handled ==> Earned(cfg, trace, Finished(res))
      ensures handled ==> (ExitCode(Finished(res)) == 0 <==> r.gateOk)
    {
      handled, res := cfg.hasVerify, DONE;
      if !handled { return; }
      Record(Gated(r.gateOk));
      if !r.gateOk {
        var stopped := prefix + FaultName(fault) + "; the verify gate is still failing";
        res := DONE.(modelFault := FaultName(fault), stopped := stopped,
                     escalate := EscalateVerdict(stopped + ": gate output: " + TrimSpace(r.gateOut)));
      }
    }

    /** The model claims done; the loop decides. */
    method OnDeclaredDone(turn: Turn, r: Round, text: string) returns (next: Next)
      requires Ready()
      modifies this`transcript, this`verifyRounds, this`fabricationRounds, this`edges, this`trace
      ensures Ready() && Extends(old(trace), trace)
      ensures !next.Break? && Left() <= old(Left()) && edges <= old(edges)
      ensures next.Return? ==> Earned(cfg, trace, Finished(next.result))
      ensures next.Continue? ==> Left() < old(Left()) && next.turn == NextCycle(turn)
      ensures next.Continue? <==>
        if r.fabricated != "" then old(fabricationRounds) < cfg.fabricationReprompts
        else cfg.hasVerify && !r.gateOk && old(verifyRounds) < cfg.verifyRounds
      ensures next.Return? ==>
        (ExitCode(Finished(next.result)) == 0 <==> r.fabricated == "" && (cfg.hasVerify ==> r.gateOk && !r.fakeGreen))
    {
      if r.fabricated != "" {
        next := OnFabrication(turn, r, text);
      } else if cfg.hasVerify {
        next := OnGate(turn, r, text);
      } else {
        next := Return(DONE.(text := text));
      }
    }

    /** The work audit rejects the claim: ask again while it may, else report it. */
    method OnFabrication(turn: Turn, r: Round, text: string) returns (next: Next)
      requires Ready() && r.fabricated != ""
      modifies this`transcript, this`fabricationRounds
      ensures Ready() && !next.Break? && Unspent() <= old(Unspent())
      ensures next.Continue? <==> old(fabricationRounds) < cfg.fabricationReprompts
      ensures next.Continue? ==> Unspent() < old(Unspent()) && next.turn == NextCycle(turn)
      ensures next.Continue? ==> transcript == old(transcript) + [Rejection(r.fabricated)]
      ensures next.Return? ==> next.result == DONE.(text := text, fabricated := r.fabricated)
    {
      if fabricationRounds < cfg.fabricationReprompts {
        fabricationRounds := fabricationRounds + 1;
        Append(Rejection(r.fabricated), [], []);
        return Continue(NextCycle(turn));
      }
      next := Return(DONE.(text := text, fabricated := r.fabricated));
    }

    /** The gate decides: revise while it may, or an honest verdict; a green gate still has
        to pass the fake-green audit. */
    method OnGate(turn: Turn, r: Round, text: string) returns (next: Next)
      requires Ready() && cfg.hasVerify
      modifies this`transcript, this`verifyRounds, this`edges, this`trace
      ensures Ready() && Extends(old(trace), trace) && !next.Break?
      ensures Unspent() <= old(Unspent()) && edges <= old(edges)
      ensures next.Continue? <==> !r.gateOk && old(verifyRounds) < cfg.verifyRounds
      ensures next.Continue? ==> Unspent() < old(Unspent()) && next.turn == NextCycle(turn)
      ensures next.Return? ==> Earned(cfg, trace, Finished(next.result))
      ensures next.Return? ==> (ExitCode(Finished(next.result)) == 0 <==> r.gateOk && !r.fakeGreen)
    {
      Record(Gated(r.gateOk));
      if r.gateOk {
        next := OnGreen(r, text);
      } else {
        next := OnRed(turn, r, text);
      }
    }

    method OnGreen(r: Round, text: string) returns (next: Next)
      requires Recorded() && Green(trace)
      modifies this`trace
      ensures Recorded() && Extends(old(trace), trace) && next.Return?
      ensures Earned(cfg, trace, Finished(next.result))
      ensures ExitCode(Finished(next.result)) == 0 <==> !r.fakeGreen
    {
      Record(Audited(r.fakeGreen));
      next := Return(if r.fakeGreen
                     then DONE.(text := text, verifyFailed := true, escalate := EscalateVerdict("fake green"))
                     else DONE.(text := text));
    }

    method OnRed(turn: Turn, r: Round, text: string) returns (next: Next)
      requires Held([])
      modifies this`transcript, this`verifyRounds, this`edges
      ensures Held([]) && !next.Break? && Unspent() <= old(Unspent()) && edges <= old(edges)
      ensures next.Continue? <==> old(verifyRounds) < cfg.verifyRounds
      ensures next.Continue? ==> Unspent() < old(Unspent()) && next.turn == NextCycle(turn)
      ensures next.Continue? ==> transcript == old(transcript) + [GateFeedback(r.gateOut)]
      ensures next.Return? ==> next.result.text == text && next.result.verifyFailed && next.result.escalate != ""
    {
      if verifyRounds < cfg.verifyRounds {
        verifyRounds := verifyRounds + 1;
        if cfg.stuckEvery > 0 && verifyRounds % cfg.stuckEvery == 0 { var _ := Ask(r.grants.stuck); }
        Append(GateFeedback(r.gateOut), [], []);
        return Continue(NextCycle(turn));
      }
      next := Return(DONE.(text := text, verifyFailed := true, escalate := EscalateVerdict("gate still failing")));
    }

    /** A fresh cycle of rounds from the next round on. */
    function NextCycle(turn: Turn): Turn { turn.(cycleStart := turn.round + 1, lastProgress := turn.round) }

    // ----------------------------------------------------------------- recovery

    method RecoverOverflow(r: Round, faults: Faults) returns (action: Recovery, faults': Faults)
      requires Ready()
      modifies this`transcript, this`summaryBody, this`goalAnchor, this`keep, this`fold, this`edges
      ensures Ready() && edges <= old(edges)
      ensures faults' == faults.(overflow := faults.overflow + 1) && !action.Graceful?
      ensures faults'.overflow > MAX_OVERFLOW ==> action.Abort?
      ensures faults'.overflow <= MAX_OVERFLOW ==>
        (action.Retry? <==> old(Forceable(faults.overflow + 1, r.recovery)) || (r.grants.fault && old(edges) > 0))
      ensures if faults'.overflow <= MAX_OVERFLOW && old(Forceable(faults.overflow + 1, r.recovery))
        then ForcedFrom(old(transcript), faults.overflow + 1, r.recovery) && edges == old(edges)
        else transcript == old(transcript)
    {
      faults' := faults.(overflow := faults.overflow + 1);
      if faults'.overflow > MAX_OVERFLOW { return Abort, faults'; }
      var did := ForceCompact(faults'.overflow, r.recovery);
      if did { return Retry, faults'; }
      var ok := Ask(r.grants.fault);
      action := if ok then Retry else Abort;
    }

    method RecoverMalformed(r: Round, faults: Faults) returns (action: Recovery, faults': Faults)
      requires Held([])
      modifies this`transcript, this`edges
      ensures Held([]) && edges <= old(edges)
      ensures faults' == faults.(malformed := faults.malformed + 1) && !action.Graceful?
      ensures faults'.malformed <= MAX_MALFORMED ==>
        action.Retry? && edges == old(edges) && transcript == old(transcript) + [UserMessage(REPROMPT)]
      ensures faults'.malformed > MAX_MALFORMED ==> transcript == old(transcript)
      ensures faults'.malformed > MAX_MALFORMED ==>
        (action.Retry? <==> r.grants.fault && old(edges) > 0) && (action.Retry? ==> edges < old(edges))
    {
      faults' := faults.(malformed := faults.malformed + 1);
      if faults'.malformed > MAX_MALFORMED {
        var ok := Ask(r.grants.fault);
        return if ok then Retry else Abort, faults';
      }
      Tell(REPROMPT);
      action := Retry;
    }

    method RecoverTimeout(r: Round, faults: Faults, spent: bool) returns (action: Recovery, faults': Faults)
      requires Ready()
      modifies this`transcript, this`summaryBody, this`goalAnchor, this`keep, this`fold, this`edges
      ensures Ready() && edges <= old(edges)
      ensures faults' == if spent then faults else faults.(timeout := faults.timeout + 1)
      ensures !action.Abort?
      ensures action.Retry? <==> !spent && (faults'.timeout <= MAX_TIMEOUT || (r.grants.fault && old(edges) > 0))
      ensures action.Retry? && faults'.timeout > MAX_TIMEOUT ==> edges < old(edges)
      ensures if !spent && faults'.timeout <= MAX_TIMEOUT && old(Forceable(faults.timeout + 1, r.recovery))
        then ForcedFrom(old(transcript), faults.timeout + 1, r.recovery) && edges == old(edges)
        else transcript == old(transcript)
    {
      if spent { return Graceful, faults; }
      faults' := faults.(timeout := faults.timeout + 1);
      if faults'.timeout > MAX_TIMEOUT {
        var ok := Ask(r.grants.fault);
        return if ok then Retry else Graceful, faults';
      }
      action := Retry;
      var did := ForceCompact(faults'.timeout, r.recovery);
      if !did { var _ := Ask(r.grants.fault); }
    }

    method RecoverRateLimit(r: Round, faults: Faults, waited: bool) returns (action: Recovery, faults': Faults)
      ensures faults' == faults.(rateLimit := faults.rateLimit + 1) && !action.Abort?
      ensures action.Retry? <==> if faults'.rateLimit > MAX_RATE_LIMIT then r.grants.drop else waited
    {
      faults' := faults.(rateLimit := faults.rateLimit + 1);
      if faults'.rateLimit > MAX_RATE_LIMIT { return if r.grants.drop then Retry else Graceful, faults'; }
      action := if waited then Retry else Graceful;
    }

    /** Each fault gets its own recovery; one that is not classified gets none. */
    method RecoverFromFault(r: Round, faults: Faults) returns (action: Recovery, faults': Faults)
      requires Ready() && r.call.Faulted?
      modifies this`transcript, this`summaryBody, this`goalAnchor, this`keep, this`fold, this`edges
      ensures Ready() && edges <= old(edges)
      ensures faults' ==
        match r.call.fault
        case ContextOverflow => faults.(overflow := faults.overflow + 1)
        case MalformedToolCall => faults.(malformed := faults.malformed + 1)
        case Timeout => if r.call.spent then faults else faults.(timeout := faults.timeout + 1)
        case RateLimit => faults.(rateLimit := faults.rateLimit + 1)
        case Unclassified => faults
      ensures action.Retry? <==>
        match r.call.fault
        case ContextOverflow =>
          && faults'.overflow <= MAX_OVERFLOW
          && (old(Forceable(faults.overflow + 1, r.recovery)) || (r.grants.fault && old(edges) > 0))
        case MalformedToolCall => faults'.malformed <= MAX_MALFORMED || (r.grants.fault && old(edges) > 0)
        case Timeout => !r.call.spent && (faults'.timeout <= MAX_TIMEOUT || (r.grants.fault && old(edges) > 0))
        case RateLimit => if faults'.rateLimit > MAX_RATE_LIMIT then r.grants.drop else r.call.waited
        case Unclassified => false
      ensures action.Graceful? ==> r.call.fault == Timeout || r.call.fault == RateLimit
      ensures action.Abort? ==> r.call.fault != Timeout && r.call.fault != RateLimit
      ensures !action.Retry? ==> transcript == old(transcript)
    {
      action, faults' := Abort, faults;
      match r.call.fault {
        case ContextOverflow => action, faults' := RecoverOverflow(r, faults);
        case MalformedToolCall => action, faults' := RecoverMalformed(r, faults);
        case Timeout => action, faults' := RecoverTimeout(r, faults, r.call.spent);
        case RateLimit => action, faults' := RecoverRateLimit(r, faults, r.call.waited);
        case Unclassified =>
      }
    }

    // ------------------------------------------------------ answers and tools

    /** `accountForCall`: calibrate the overhead once, then the token ratio. */
    method AccountForCall(inputTokens: nat, sentEstimate: nat)
      modifies this`toolSpecTokens, this`calibrated, this`ratio
      ensures inputTokens == 0 ==>
        toolSpecTokens == old(toolSpecTokens) && calibrated == old(calibrated) && ratio == old(ratio)
      ensures inputTokens > 0 && !old(calibrated) ==>
        && calibrated && ratio == old(ratio)
        && toolSpecTokens == if inputTokens > sentEstimate then inputTokens - sentEstimate else old(toolSpecTokens)
      ensures inputTokens > 0 && old(calibrated) ==>
        && calibrated && toolSpecTokens == old(toolSpecTokens)
        && ratio == if cfg.hasCompactor then Observed(old(ratio), inputTokens - toolSpecTokens, sentEstimate)
                    else old(ratio)
      ensures old(ratio) <= ratio && (ratio == old(ratio) || ratio <= MAX_TOKEN_RATIO)
    {
      ObservedGrows(ratio, inputTokens - toolSpecTokens, sentEstimate);
      if inputTokens == 0 { return; }
      if !calibrated {
        if inputTokens > sentEstimate { toolSpecTokens := inputTokens - sentEstimate; }
        calibrated := true;
      } else if cfg.hasCompactor && sentEstimate > 0 && inputTokens - toolSpecTokens > 0 {
        var seen := (inputTokens - toolSpecTokens) as real / sentEstimate as real;
        if seen > MAX_TOKEN_RATIO { seen := MAX_TOKEN_RATIO; }
        if seen > ratio { ratio := seen; }
      }
    }

    /** Calls narrated in the text get ids of their own. */
    method AdoptNarrated(narrated: seq<ToolCall>) returns (calls: seq<ToolCall>)
      modifies this`narratedSeq
      ensures |calls| == |narrated|
      ensures forall i :: 0 <= i < |calls| ==>
        calls[i] == narrated[i].(id := "narrated-" + Decimal(old(narratedSeq) + i + 1))
    {
      calls := [];
      for i := 0 to |narrated|
        invariant |calls| == i && narratedSeq == old(narratedSeq) + i
        invariant forall j :: 0 <= j < i ==>
          calls[j] == narrated[j].(id := "narrated-" + Decimal(old(narratedSeq) + j + 1))
      {
        narratedSeq := narratedSeq + 1;
        calls := calls + [narrated[i].(id := "narrated-" + Decimal(narratedSeq))];
      }
    }

    method DispatchOne(call: ToolCall, out: ToolOutcome, ghost ids: seq<string>)
      requires Held(ids) && ids != [] && ids[0] == call.id && Plain(out.content) && Recorded()
      modifies this`transcript, this`trace
      ensures Held(ids[1..]) && Recorded() && Extends(old(trace), trace)
      ensures !Green(trace)
      ensures var t := if IsSpawn(call) then Without(old(transcript), SPAWN_MARKER) else old(transcript);
        transcript == t + [ToolMessage(call, out.content)]
    {
      Record(Dispatched(call));
      if IsSpawn(call) {
        WithoutFormed(transcript, SPAWN_MARKER, ids);
        KeptSpawnCleared(transcript, keep);
        transcript := ClearSpawnForce(transcript);
      }
      Append(ToolMessage(call, out.content), ids, ids[1..]);
    }

    /** Call `k` is answered, behind the results of those before it. */
    method DispatchNext(calls: seq<ToolCall>, results: nat -> ToolOutcome, k: nat)
      requires k < |calls| && Held(Ids(calls[k..])) && Recorded() && forall j :: Plain(results(j).content)
      requires EndsWithResults(transcript, calls[..k], results)
      modifies this`transcript, this`trace
      ensures Held(Ids(calls[k + 1..])) && Recorded() && Extends(old(trace), trace)
      ensures EndsWithResults(transcript, calls[..k + 1], results)
    {
      assert Ids(calls[k..])[1..] == Ids(calls[k + 1..]);
      OneMoreResult(transcript, calls[..k], results, calls[k]);
      assert calls[..k] + [calls[k]] == calls[..k + 1];
      DispatchOne(calls[k], results(k), Ids(calls[k..]));
    }

    /** `dispatchRound`: every call is answered in its place, by what its tool gave. */
    method DispatchRound(turn: Turn, calls: seq<ToolCall>, results: nat -> ToolOutcome)
      returns (turn': Turn, mutated: bool)
      requires Held(Ids(calls)) && Recorded() && forall k :: Plain(results(k).content)
      modifies this`transcript, this`trace
      ensures Ready() && Extends(old(trace), trace)
      ensures Tallied(turn, turn', mutated, calls, results, |calls|)
      ensures EndsWithResults(transcript, calls, results)
    {
      turn', mutated := turn, false;
      assert calls[0..] == calls && calls[..0] == [];
      for k := 0 to |calls|
        invariant Held(Ids(calls[k..])) && Recorded() && Extends(old(trace), trace)
        invariant Tallied(turn, turn', mutated, calls, results, k)
        invariant EndsWithResults(transcript, calls[..k], results)
      {
        DispatchNext(calls, results, k);
        turn', mutated := Tally(turn, turn', mutated, calls, results, k);
      }
      assert Ids(calls[|calls|..]) == [] && calls[..|calls|] == calls;
    }

    /** What the first `k` calls moved: the progress baseline with a write that worked, the
        spawn baseline with a spawn. */
    ghost predicate Tallied(turn: Turn, turn': Turn, mutated: bool, calls: seq<ToolCall>, results: nat -> ToolOutcome,
                            k: nat)
      requires k <= |calls|
    {
      && turn' == turn.(lastProgress := turn'.lastProgress, lastSpawn := turn'.lastSpawn)
      && (mutated <==> exists j :: 0 <= j < k && Mutates(calls[j], results(j).ok))
      && turn'.lastProgress == (if mutated then turn.round else turn.lastProgress)
      && turn'.lastSpawn == if exists j :: 0 <= j < k && IsSpawn(calls[j]) then turn.round + 1 else turn.lastSpawn
    }

    method Tally(ghost turn: Turn, was: Turn, mutated: bool, calls: seq<ToolCall>, results: nat -> ToolOutcome, k: nat)
      returns (turn': Turn, mutated': bool)
      requires k < |calls| && Tallied(turn, was, mutated, calls, results, k)
      ensures Tallied(turn, turn', mutated', calls, results, k + 1)
    {
      turn', mutated' := was, mutated;
      if Mutates(calls[k], results(k).ok) { turn', mutated' := turn'.(lastProgress := was.round), true; }
      if IsSpawn(calls[k]) { turn' := turn'.(lastSpawn := was.round + 1); }
    }

    // ------------------------------------------------------------- one round

    /** The cycle has spent its rounds: capture a green tree, else lift the rung for a
        fresh cycle, else give up. */
    method AtCap(turn: Turn, r: Round) returns (next: Next)
      requires Ready()
      modifies this`trace, this`edges
      ensures Ready() && Extends(old(trace), trace) && edges <= old(edges)
      ensures next.Return? ==> Earned(cfg, trace, Finished(next.result))
      ensures next.Continue? ==> edges < old(edges)
      ensures next.Continue? ==> next.turn == turn.(cycleStart := turn.round, lastProgress := turn.round)
      ensures next.Return? <==> (cfg.hasVerify || cfg.hasTerminalGreen) && r.gateOk && !r.fakeGreen
      ensures next.Continue? <==> !next.Return? && r.grants.retry && old(edges) > 0
    {
      var done, res := OpportunisticGreen(r, "");
      if done { return Return(res); }
      var ok := Ask(r.grants.retry);
      if ok { return Continue(turn.(cycleStart := turn.round, lastProgress := turn.round)); }
      next := Break("exceeded max tool rounds (" + Decimal(cfg.maxRounds) + ")");
    }

    /** A verdict without an answer; with a gate it is never a silent done. */
    function Halt(verdict: string): Result {
      DONE.(stopped := verdict,
            escalate := if cfg.hasVerify then EscalateVerdict(verdict + ", with verification unsatisfied") else "")
    }

    /** The strong bound is spent: capture a green tree, else stop. */
    method OnStrongSpent(r: Round) returns (next: Option<Next>)
      requires Recorded()
      modifies this`trace
      ensures Recorded() && Extends(old(trace), trace)
      ensures next.Some? && next.value.Return? && Earned(cfg, trace, Finished(next.value.result))
    {
      var done, res := OpportunisticGreen(r, "");
      next := Some(Return(if done then res else Halt("circuit-breaker: strong-bound reached")));
    }

    /** The strong bound and the circuit breaker, checked before a call is spent. */
    method StopBefore(turn: Turn, r: Round) returns (next: Option<Next>)
      requires Ready()
      modifies this`trace, this`edges
      ensures Ready() && Extends(old(trace), trace) && edges <= old(edges)
      ensures next.Some? ==> !next.value.Break?
      ensures next.Some? && next.value.Return? ==> Earned(cfg, trace, Finished(next.value.result))
      ensures next.Some? && next.value.Continue? ==> next.value.turn == turn.(lastProgress := turn.round)
      ensures next.None? <==> !r.strongSpent && !r.ceiling && !Stalled(turn)
      ensures next.None? ==> trace == old(trace)
      ensures next.Some? && next.value.Continue? <==>
        !r.strongSpent && !r.ceiling && Stalled(turn) && r.grants.stall && old(edges) > 0
    {
      if r.strongSpent {
        next := OnStrongSpent(r);
        return;
      }
      if r.ceiling { return Some(Return(Halt("circuit-breaker: ceiling reached"))); }
      if Stalled(turn) {
        var ok := Ask(r.grants.stall);
        if ok { return Some(Continue(turn.(lastProgress := turn.round))); }
        return Some(Return(Halt("circuit-breaker: no file written or verify-state change")));
      }
      next := None;
    }

    predicate Stalled(turn: Turn) {
      cfg.noProgressRounds > 0 && turn.round - turn.lastProgress >= cfg.noProgressRounds
    }

    /** The round's transcript fits no floor rung. */
    predicate Crowded(t: seq<ChatMessage>, r: Round) reads this`toolSpecTokens, this`ratio {
      && cfg.floorWindow > 0 && r.servesFloor
      && !FloorFits(if cfg.hasCompactor then ContextSize(t, toolSpecTokens, ratio) else 0, cfg.floorWindow)
    }

    /** Bound the context and surface the reminders. */
    method Tidy(turn: Turn) returns (ghost bound: seq<ChatMessage>)
      requires Held([])
      modifies this`transcript
      ensures Held([]) && BoundTo(old(transcript), bound)
      ensures transcript == SpawnShown(GoalShown(bound, turn), turn)
    {
      var _ := BoundWithinTurn();
      bound := transcript;
      RemindGoal(turn);
      RemindSpawn(turn);
    }

    /** Keep a prompt that does not fit off the floor: compact it, else lift the rung. */
    method KeepOffFloor(r: Round) returns (lifted: bool)
      requires Ready()
      modifies this`transcript, this`summaryBody, this`goalAnchor, this`keep, this`fold, this`edges
      ensures Ready() && edges == old(edges) - if lifted then 1 else 0
      ensures old(!Crowded(transcript, r)) ==> transcript == old(transcript) && !lifted
      ensures old(Crowded(transcript, r)) ==>
        if old(Forceable(1, r.proactive)) then ForcedFrom(old(transcript), 1, r.proactive)
        else transcript == old(transcript)
      ensures old(Crowded(transcript, r)) ==>
        (lifted <==> Crowded(transcript, r) && r.grants.floor && old(edges) > 0)
    {
      lifted := false;
      if Crowded(transcript, r) {
        var did;
        did, lifted := LeaveFloor(r, 1);
      }
    }

    method LeaveFloor(r: Round, attempt: nat) returns (did: bool, lifted: bool)
      requires Ready()
      modifies this`transcript, this`summaryBody, this`goalAnchor, this`keep, this`fold, this`edges
      ensures Ready() && edges == old(edges) - if lifted then 1 else 0
      ensures did <==> old(Forceable(attempt, r.proactive))
      ensures did ==> ForcedFrom(old(transcript), attempt, r.proactive)
      ensures !did ==> transcript == old(transcript)
      ensures lifted <==> Crowded(transcript, r) && r.grants.floor && old(edges) > 0
    {
      did := ForceCompact(attempt, r.proactive);
      lifted := LiftIfCrowded(r);
    }

    method LiftIfCrowded(r: Round) returns (lifted: bool)
      modifies this`edges
      ensures edges == old(edges) - if lifted then 1 else 0
      ensures lifted <==> Crowded(transcript, r) && r.grants.floor && old(edges) > 0
      ensures unchanged(`transcript, `goalAnchor, `toolSpecTokens, `ratio, `budget)
    {
      lifted := false;
      if Crowded(transcript, r) { lifted := Ask(r.grants.floor); }
    }

    /** What a call is sent for the transcript `t`: `bound` is `t` within the budget, and the
        reminders due are on it, unless that is too much for the floor rung. */
    ghost predicate Sends(t: seq<ChatMessage>, bound: seq<ChatMessage>, sent: seq<ChatMessage>, turn: Turn, r: Round)
      reads this`goalAnchor, this`budget, this`toolSpecTokens, this`ratio
    {
      var shown := SpawnShown(GoalShown(bound, turn), turn);
      BoundTo(t, bound) && (sent == shown || Crowded(shown, r))
    }

    /** What a round does before its call. */
    method Prepare(turn: Turn, r: Round) returns (lifted: bool, ghost bound: seq<ChatMessage>)
      requires Ready()
      modifies this`transcript, this`summaryBody, this`goalAnchor, this`keep, this`fold, this`edges
      ensures Ready() && edges == old(edges) - if lifted then 1 else 0
      ensures BoundTo(old(transcript), bound)
      ensures var shown := SpawnShown(old(GoalShown(bound, turn)), turn);
        if transcript != shown then Crowded(shown, r) && ForcedFrom(shown, 1, r.proactive)
        else lifted ==> Crowded(shown, r)
    {
      bound := Tidy(turn);
      lifted := KeepOffFloor(r);
    }

    /** A faulted call: recover, or let the gate close the run. */
    method OnFault(turn: Turn, r: Round) returns (next: Next)
      requires Ready() && r.call.Faulted?
      requires trace != [] && trace[|trace| - 1].Called? && trace[|trace| - 1].faulted
      modifies this`transcript, this`summaryBody, this`goalAnchor, this`keep, this`fold, this`edges, this`trace
      ensures Ready() && Extends(old(trace), trace) && edges <= old(edges)
      ensures next.Return? ==> Earned(cfg, trace, Finished(next.result))
      ensures next.Continue? ==> next.turn == turn.(faults := next.turn.faults)
    {
      var action, faults := RecoverFromFault(r, turn.faults);
      if action.Retry? { return Continue(turn.(faults := faults)); }
      var prefix := if action.Graceful? then "turn ended on a recovered model fault " else "terminal model fault ";
      var handled, res := CloseOnFault(r, r.call.fault, prefix);
      if handled { return Return(res); }
      if action.Graceful? { return Return(DONE.(modelFault := FaultName(r.call.fault))); }
      next := Break("model turn: " + FaultName(r.call.fault));
    }

    predicate Repeats(turn: Turn, signature: string) {
      && signature != "" && signature == turn.signature
      && turn.round - turn.lastProgress >= MAX_REPEATED_CALL_ROUNDS
    }

    /** The same calls again without progress: lift the rung, capture a green tree, or
        stop. */
    method OnRepeat(turn: Turn, r: Round, text: string) returns (next: Next)
      requires Ready()
      modifies this`trace, this`edges
      ensures Ready() && Extends(old(trace), trace) && edges <= old(edges)
      ensures next.Return? ==> Earned(cfg, trace, Finished(next.result))
      ensures next.Continue? ==> edges < old(edges)
      ensures next.Continue? ==>
        next.turn == turn.(cycleStart := turn.round, lastProgress := turn.round, signature := "")
    {
      var ok := Ask(r.grants.repeated);
      if ok { return Continue(turn.(cycleStart := turn.round, lastProgress := turn.round, signature := "")); }
      var done, res := OpportunisticGreen(r, text);
      if done { return Return(res); }
      next := Break("stuck re-reading identical input");
    }

    /** The round's tool calls, and the throttled check behind them. */
    method OnCalls(turn: Turn, r: Round, text: string, calls: seq<ToolCall>) returns (next: Next)
      requires Held(Ids(calls)) && Recorded() && Clean(r)
      modifies this`transcript, this`trace, this`lastOpportunistic, this`lastReconcile
      ensures Ready() && Extends(old(trace), trace) && !next.Break?
      ensures next.Return? ==> Earned(cfg, trace, Finished(next.result))
      ensures next.Continue? ==>
        next.turn == turn.(lastProgress := next.turn.lastProgress, lastSpawn := next.turn.lastSpawn)
    {
      var turn', mutated := DispatchRound(turn, calls, r.results);
      if cfg.opportunisticEvery > 0 && mutated && turn.round - lastOpportunistic >= cfg.opportunisticEvery {
        lastOpportunistic := turn.round;
        var done, res, told := OpportunisticReconcile(r, text);
        if done { return Return(res); }
        if told { turn' := turn'.(lastProgress := turn.round); }
      }
      next := Continue(turn');
    }

    /** An answered call: break a loop of identical calls, hear a claim of done, or run
        the calls. */
    method OnAnswer(turn: Turn, r: Round) returns (next: Next)
      requires Ready() && r.call.Answered? && Clean(r)
      modifies this`transcript, this`verifyRounds, this`fabricationRounds, this`edges, this`trace, this`narratedSeq,
               this`lastOpportunistic, this`lastReconcile
      ensures Ready() && Extends(old(trace), trace) && Left() <= old(Left()) && edges <= old(edges)
      ensures next.Return? ==> Earned(cfg, trace, Finished(next.result))
      ensures next.Continue? ==> next.turn.round == turn.round
      ensures next.Continue? && next.turn.cycleStart != turn.cycleStart ==>
        Left() < old(Left()) && turn.round <= next.turn.cycleStart <= turn.round + 1
    {
      var calls := r.call.calls;
      if calls == [] { calls := AdoptNarrated(r.call.narrated); }
      if Repeats(turn, Signature(calls)) {
        next := OnRepeat(turn, r, r.call.text);
      } else {
        next := Converse(turn.(signature := Signature(calls)), r, r.call.text, calls);
      }
    }

    /** Record the answer, then act on it. */
    method Converse(turn: Turn, r: Round, text: string, calls: seq<ToolCall>) returns (next: Next)
      requires Ready() && Plain(text) && Clean(r)
      modifies this`transcript, this`verifyRounds, this`fabricationRounds, this`edges, this`trace,
               this`lastOpportunistic, this`lastReconcile
      ensures Ready() && Extends(old(trace), trace) && Left() <= old(Left()) && edges <= old(edges)
      ensures next.Return? ==> Earned(cfg, trace, Finished(next.result))
      ensures next.Continue? ==> next.turn.round == turn.round
      ensures next.Continue? && next.turn.cycleStart != turn.cycleStart ==>
        Left() < old(Left()) && next.turn.cycleStart == turn.round + 1
    {
      Append(AssistantMessage(text, calls), [], Ids(calls));
      if calls == [] {
        next := OnDeclaredDone(turn, r, text);
      } else {
        next := OnCalls(turn, r, text, calls);
      }
    }

    /** `syncBudgetToRung`. */
    method SyncBudget(tierBudget: Option<nat>)
      modifies this`budget
      ensures budget ==
        if cfg.hasCompactor && tierBudget.Some? && tierBudget.value > 0 then tierBudget.value else old(budget)
    {
      if cfg.hasCompactor && tierBudget.Some? && tierBudget.value > 0 { budget := tierBudget.value; }
    }

    /** The model call and what follows it. */
    method CallModel(turn: Turn, r: Round) returns (next: Next)
      requires Ready() && Clean(r)
      modifies this
      ensures Ready() && Left() <= old(Left()) && edges <= old(edges) && start == old(start)
      ensures MadeCall(old(trace), trace, old(transcript))
      ensures next.Return? ==> Earned(cfg, trace, Finished(next.result))
      ensures next.Continue? ==> next.turn.round == turn.round
      ensures next.Continue? && next.turn.cycleStart != turn.cycleStart ==>
        Left() < old(Left()) && turn.round <= next.turn.cycleStart <= turn.round + 1
    {
      ghost var was, call := trace, Called(transcript, r.call.Faulted?, keep);
      var sent := EstimateTokens(transcript);
      Record(call);
      if r.call.Faulted? {
        next := OnFault(turn, r);
      } else {
        AccountForCall(r.call.inputTokens, sent);
        next := OnAnswer(turn, r);
      }
      OneCall(was, call, trace);
    }

    /** The round's transcript, and the call with it unless the rung is lifted. */
    method PrepareAndCall(turn: Turn, r: Round)
      returns (next: Next, ghost bound: seq<ChatMessage>, ghost sent: seq<ChatMessage>)
      requires Ready() && Clean(r)
      modifies this
      ensures Ready() && Left() <= old(Left()) && edges <= old(edges) && start == old(start)
      ensures old(Sends(transcript, bound, sent, turn, r))
      ensures trace == old(trace) || MadeCall(old(trace), trace, sent)
      ensures next.Return? ==> Earned(cfg, trace, Finished(next.result))
      ensures next.Continue? ==> next.turn.round == turn.round
      ensures next.Continue? && next.turn.cycleStart != turn.cycleStart ==>
        Left() < old(Left()) && turn.round <= next.turn.cycleStart <= turn.round + 1
    {
      var raised;
      raised, bound := Prepare(turn, r);
      sent := transcript;
      if raised { return Continue(turn.(lastProgress := turn.round)), bound, sent; }
      next := CallModel(turn, r);
    }

    /** A round within its cycle: stop, or lift the rung, or make the call. */
    method Serve(turn: Turn, r: Round) returns (next: Next, ghost bound: seq<ChatMessage>, ghost sent: seq<ChatMessage>)
      requires Ready() && Clean(r)
      modifies this
      ensures Ready() && Left() <= old(Left()) && edges <= old(edges) && start == old(start)
      ensures
        || Extends(old(trace), trace)
        || (MadeCall(old(trace), trace, sent) && old(Sends(transcript, bound, sent, turn, r)))
      ensures next.Return? ==> Earned(cfg, trace, Finished(next.result))
      ensures next.Continue? ==> next.turn.round == turn.round
      ensures next.Continue? && next.turn.cycleStart != turn.cycleStart ==>
        Left() < old(Left()) && turn.round <= next.turn.cycleStart <= turn.round + 1
    {
      var stop := StopBefore(turn, r);
      if stop.Some? { return stop.value, transcript, transcript; }
      next, bound, sent := PrepareAndCall(turn, r);
    }

    /** One iteration of the loop. A call is made only within the cycle's rounds, and a
        new cycle is paid for by a revise, a re-prompt or an edge. */
    method OneRound(turn: Turn, r: Round) returns (next: Next)
      requires Valid() && Clean(r)
      modifies this
      ensures Valid() && Left() <= old(Left()) && edges <= old(edges) && start == old(start)
      ensures Calls(old(trace)) <= Calls(trace) <= Calls(old(trace)) + 1
      ensures turn.round - turn.cycleStart >= cfg.maxRounds ==> Calls(trace) == Calls(old(trace))
      ensures next.Return? ==> Earned(cfg, trace, Finished(next.result))
      ensures next.Continue? ==> next.turn.round == turn.round
      ensures next.Continue? && next.turn.cycleStart != turn.cycleStart ==>
        Left() < old(Left()) && turn.round <= next.turn.cycleStart <= turn.round + 1
      ensures next.Continue? && next.turn.cycleStart == turn.cycleStart ==>
        turn.round - turn.cycleStart < cfg.maxRounds
    {
      if turn.round - turn.cycleStart >= cfg.maxRounds {
        next := AtCap(turn, r);
        return;
      }
      var lifted := turn.rung != "" && r.rung != turn.rung;
      SyncBudget(r.tierBudget);
      var turn' := turn.(rung := r.rung, lastProgress := if lifted then turn.round else turn.lastProgress);
      ghost var bound, sent;
      next, bound, sent := Serve(turn', r);
    }

    // --------------------------------------------------------------- the run

    /** What a run of this prompt sets out to keep, given the transcript and anchor it finds. */
    ghost predicate SetsOut(t: seq<ChatMessage>, anchor: string, prompt: string) reads this`start {
      start == Keep(Head(t),
                    if anchor != "" then anchor
                    else if cfg.hasCompactor && FirstUser(t) != "" then FirstUser(t) else prompt,
                    Some(prompt))
    }

    /** A new run: what it keeps is counted from here. */
    ghost method Begin()
      requires Held([])
      modifies this`trace, this`keep, this`start, this`fold
      ensures Ready() && trace == [] && fold == None
      ensures keep == start == Keep(Head(transcript), goalAnchor, None)
    {
      trace, fold := [], None;
      keep := Keep(Head(transcript), goalAnchor, None);
      start := keep;
    }

    /** The prompt goes on, and is the goal if there is none yet. */
    method Prompt(prompt: string)
      requires Ready() && trace == [] && fold == None
      modifies this`transcript, this`goalAnchor, this`keep, this`start
      ensures Ready() && transcript == old(transcript) + [UserMessage(prompt)]
      ensures goalAnchor == if old(goalAnchor) == "" then prompt else old(goalAnchor)
      ensures keep == start == Keep(old(keep).head, goalAnchor, Some(prompt))
    {
      FormedAppend(transcript, [], UserMessage(prompt), []);
      KeptPrompt(transcript, prompt, keep);
      transcript := transcript + [UserMessage(prompt)];
      keep := keep.(prompt := Some(prompt));
      if goalAnchor == "" {
        KeptGoal(transcript, |transcript| - 1, keep);
        goalAnchor := prompt;
        keep := keep.(goal := prompt);
      }
      start := keep;
    }

    /** The prompt, behind what the hooks add to the system prompt, and that behind the
        transcript found, compacted if that is due. */
    method OpenTurn(prompt: string, additions: seq<string>, reply: Option<string>)
      returns (ghost base: seq<ChatMessage>)
      requires Valid()
      requires forall i :: 0 <= i < |additions| ==> Plain(additions[i]) && !(COMPACTION_MARKER <= additions[i])
      modifies this`transcript, this`summaryBody, this`goalAnchor, this`trace, this`keep, this`start, this`fold
      ensures Valid() && trace == [] && transcript == base + Systems(additions) + [UserMessage(prompt)]
      ensures fold == None && keep == start && SetsOut(old(transcript), old(goalAnchor), prompt)
      ensures !(cfg.hasCompactor && Compacts(old(transcript), toolSpecTokens, budget, cfg.recencyTurns, ratio, reply))
        ==> base == old(transcript)
      ensures cfg.hasCompactor && Compacts(old(transcript), toolSpecTokens, budget, cfg.recencyTurns, ratio, reply) ==>
        CompactedTo(old(transcript), base, Anchored(old(goalAnchor), old(transcript)), reply.value,
                    toolSpecTokens, budget, cfg.recencyTurns, ratio)
    {
      Begin();
      var _ := MaybeCompact(reply);
      base := transcript;
      AddSystems(additions);
      Prompt(prompt);
    }

    method AddSystems(additions: seq<string>)
      requires Ready()
      requires forall i :: 0 <= i < |additions| ==> Plain(additions[i]) && !(COMPACTION_MARKER <= additions[i])
      modifies this`transcript
      ensures Ready() && transcript == old(transcript) + Systems(additions)
    {
      for i := 0 to |additions|
        invariant Ready() && transcript == old(transcript) + Systems(additions[..i])
      {
        Append(SystemMessage(additions[i]), [], []);
        SystemsAppend(additions, i);
      }
      assert additions[..|additions|] == additions;
    }

    /** The cycle's counters are in range, and the calls so far are paid for. */
    ghost predicate Counted(turn: Turn, left: nat) reads this {
      && Valid() && Left() <= left && turn.cycleStart <= turn.round <= turn.cycleStart + cfg.maxRounds
      && Paid(cfg.maxRounds, left - Left(), Calls(trace), turn.round - turn.cycleStart)
    }

    /** One round, with its place in the accounts. */
    method CountedRound(turn: Turn, r: Round, ghost left: nat) returns (next: Next)
      requires Counted(turn, left) && Clean(r)
      modifies this
      ensures Valid() && edges <= old(edges) && Left() <= old(Left()) && start == old(start)
      ensures Calls(trace) <= cfg.maxRounds * (1 + left - Left())
      ensures next.Return? ==> Earned(cfg, trace, Finished(next.result))
      ensures next.Continue? ==> next.turn.round == turn.round && Counted(next.turn.(round := turn.round + 1), left)
      ensures next.Continue? ==> Left() < old(Left()) || next.turn.cycleStart == turn.cycleStart
    {
      ghost var spent, calls, rounds := left - Left(), Calls(trace), turn.round - turn.cycleStart;
      next := OneRound(turn, r);
      PaidStep(cfg.maxRounds, spent, calls, rounds, left - Left(), Calls(trace));
    }

    method Rounds(env: nat -> Round) returns (outcome: Outcome)
      requires Valid() && trace == [] && forall k :: Clean(env(k))
      modifies this
      ensures Valid() && Left() <= old(Left()) && edges <= old(edges) && start == old(start)
      ensures Calls(trace) <= cfg.maxRounds * (1 + old(Left()) - Left())
      ensures Earned(cfg, trace, outcome)
    {
      ghost var left := Left();
      var turn := Turn(0, 0, 0, 0, "", "", Faults(0, 0, 0, 0));
      while true
        invariant Counted(turn, left) && edges <= old(edges) && start == old(start)
        decreases Left(), cfg.maxRounds - (turn.round - turn.cycleStart)
      {
        var next := CountedRound(turn, env(turn.round), left);
        match next {
          case Return(result) => return Finished(result);
          case Break(detail) => return Errored(detail);
          case Continue(turn') => turn := turn'.(round := turn.round + 1);
        }
      }
    }

    /** `Run`: whatever the model, the tools, the gate, the router and the faults do,
        every transcript sent is well formed, begins with the system head the run found,
        carries the goal, and holds the prompt unless a compaction folded it away; the number
        of model calls is bounded, and an exit code of 0 with a gate configured is earned. */
    method Run(prompt: string, additions: seq<string>, reply: Option<string>, env: nat -> Round)
      returns (outcome: Outcome)
      requires Valid() && forall k :: Clean(env(k))
      requires forall i :: 0 <= i < |additions| ==> Plain(additions[i]) && !(COMPACTION_MARKER <= additions[i])
      modifies this
      ensures Valid() && Recorded() && SetsOut(old(transcript), old(goalAnchor), prompt)
      ensures Remembered(trace, start, prompt, fold.Some?)
      ensures fold.Some? ==> cfg.hasCompactor && FoldsAway(fold.value, prompt)
      ensures edges <= old(edges) && Calls(trace) <= cfg.maxRounds * (1 + old(Unspent()) + old(edges) - edges)
      ensures Earned(cfg, trace, outcome)
    {
      ghost var cycles := 1 + Left();
      ghost var base := OpenTurn(prompt, additions, reply);
      outcome := Rounds(env);
      SoundRemembers(trace, start, fold.Some?, prompt);
      ghost var paid, calls := cycles - Left(), Calls(trace);
      MoreCycles(cfg.maxRounds, calls, paid, paid + Unspent());
    }
  }

  /** System messages of these contents. */
  function Systems(contents: seq<string>): seq<ChatMessage> {
    seq(|contents|, i requires 0 <= i < |contents| => SystemMessage(contents[i]))
  }

  lemma {:induction false} SystemsAppend(contents: seq<string>, i: nat)
    requires i < |contents|
    ensures Systems(contents[..i + 1]) == Systems(contents[..i]) + [SystemMessage(contents[i])]
  {}

  function Rejection(reason: string): ChatMessage {
    UserMessage("Your previous turn claimed done but was REJECTED by the work audit: " + reason)
  }

  function GateFeedback(gateOut: string): ChatMessage { UserMessage("Automated verification failed:\n" + gateOut) }

  function Checkpoint(gateOut: string): ChatMessage {
    UserMessage("Checkpoint: the verification gate currently FAILS:\n" + gateOut)
  }

  /** The last messages are what the tools gave, in the order of the calls. */
  predicate EndsWithResults(t: seq<ChatMessage>, calls: seq<ToolCall>, results: nat -> ToolOutcome) {
    && |calls| <= |t|
    && forall k :: 0 <= k < |calls| ==> t[|t| - |calls| + k] == ToolMessage(calls[k], results(k).content)
  }

  /** One more, also when the spawn reminders are dropped before it. */
  lemma {:induction false} OneMoreResult(t: seq<ChatMessage>, calls: seq<ToolCall>, results: nat -> ToolOutcome,
                                         call: ToolCall)
    requires EndsWithResults(t, calls, results) && forall k :: Plain(results(k).content)
    ensures var m := ToolMessage(call, results(|calls|).content);
      && EndsWithResults(t + [m], calls + [call], results)
      && EndsWithResults(Without(t, SPAWN_MARKER) + [m], calls + [call], results)
  {
    ResultAppended(t, calls, results, call);
    var n := |t| - |calls|;
    assert t == t[..n] + t[n..];
    WithoutConcat(t[..n], t[n..], SPAWN_MARKER);
    forall i | 0 <= i < |t[n..]| ensures !(SPAWN_MARKER <= t[n..][i].content) {
      assert t[n..][i] == ToolMessage(calls[i], results(i).content) && Plain(results(i).content);
    }
    WithoutNone(t[n..], SPAWN_MARKER);
    SameEnd(Without(t[..n], SPAWN_MARKER), t[..n], t[n..], calls, results);
    ResultAppended(Without(t, SPAWN_MARKER), calls, results, call);
  }

  lemma {:induction false} ResultAppended(t: seq<ChatMessage>, calls: seq<ToolCall>, results: nat -> ToolOutcome,
                                          call: ToolCall)
    requires EndsWithResults(t, calls, results)
    ensures EndsWithResults(t + [ToolMessage(call, results(|calls|).content)], calls + [call], results)
  {}

  lemma {:induction false} SameEnd(a: seq<ChatMessage>, b: seq<ChatMessage>, tail: seq<ChatMessage>,
                                   calls: seq<ToolCall>, results: nat -> ToolOutcome)
    requires |tail| == |calls| && EndsWithResults(b + tail, calls, results)
    ensures EndsWithResults(a + tail, calls, results)
  {
    forall k | 0 <= k < |calls| ensures (a + tail)[|a| + k] == ToolMessage(calls[k], results(k).content) {
      assert (b + tail)[|b| + k] == tail[k];
    }
  }

  /** `observeTokenRatio`: the ratio of measured to sent tokens, capped, when it is larger. */
  function Observed(ratio: real, measured: int, sent: nat): real {
    if sent == 0 || measured <= 0 then ratio
    else
      var seen := measured as real / sent as real;
      var capped := if seen > MAX_TOKEN_RATIO then MAX_TOKEN_RATIO else seen;
      if capped > ratio then capped else ratio
  }

  /** It never falls, and rises to the cap at most. */
  lemma {:induction false} ObservedGrows(ratio: real, measured: int, sent: nat)
    ensures ratio <= Observed(ratio, measured, sent)
    ensures Observed(ratio, measured, sent) == ratio || Observed(ratio, measured, sent) <= MAX_TOKEN_RATIO
  {}

  /** `calls` model calls over `spent` finished cycles and `rounds` rounds of the current one. */
  ghost predicate Paid(maxRounds: nat, spent: nat, calls: nat, rounds: nat) {
    calls <= maxRounds * spent + rounds
  }

  lemma {:induction false} PaidStep(maxRounds: nat, spent: nat, calls: nat, rounds: nat, spent': nat, calls': nat)
    requires Paid(maxRounds, spent, calls, rounds) && rounds <= maxRounds && spent <= spent'
    requires calls' <= calls + (if rounds < maxRounds then 1 else 0)
    ensures calls' <= maxRounds * (1 + spent')
    ensures rounds < maxRounds ==> Paid(maxRounds, spent', calls', rounds + 1)
    ensures spent < spent' ==> Paid(maxRounds, spent', calls', 0) && Paid(maxRounds, spent', calls', 1)
  {
    var d := spent' - spent;
    Distribute(maxRounds, spent, d);
    Distribute(maxRounds, 1, spent');
    if d >= 1 { Distribute(maxRounds, d - 1, 1); }
  }

  lemma {:induction false} MoreCycles(maxRounds: nat, calls: nat, cycles: nat, cycles': nat)
    requires calls <= maxRounds * cycles && cycles <= cycles'
    ensures calls <= maxRounds * cycles'
  {
    Distribute(maxRounds, cycles, cycles' - cycles);
  }

  lemma {:induction false} Distribute(a: nat, b: nat, c: nat)
    ensures a * (b + c) == a * b + a * c
  {}
}
