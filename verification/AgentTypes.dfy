/** What one agent run meets and leaves behind: its configuration, the outcomes of the
    model, the tools, the router and the gate in each round, and the run's trace
    (internal/agent/loop.go, recovery.go). */
module AgentTypes {
  import opened Text
  import opened Transcript
  import opened Retention

  /** `verifyRounds` is the gate's revise ceiling. Zero switches a periodic or bounded
      feature off. */
  datatype Config = Config(
    maxRounds: nat, hasVerify: bool, hasTerminalGreen: bool, verifyRounds: nat, stuckEvery: nat,
    fabricationReprompts: nat, noProgressRounds: nat, goalReminderEvery: nat, spawnForceEvery: nat,
    spawnCapable: bool, floorWindow: int, opportunisticEvery: nat,
    hasCompactor: bool, recencyTurns: int)

  datatype Fault = ContextOverflow | MalformedToolCall | Timeout | RateLimit | Unclassified

  function FaultName(f: Fault): string {
    match f
    case ContextOverflow => "context_overflow"
    case MalformedToolCall => "malformed_tool_call"
    case Timeout => "timeout"
    case RateLimit => "rate_limit"
    case Unclassified => ""
  }

  /** A model call answers or faults; with a fault, `spent` says that the turn's deadline
      is over and `waited` that a back-off ran its full time. `narrated` are the calls
      recovered from the text when there are no structured ones. */
  datatype CallOutcome =
    | Answered(text: string, calls: seq<ToolCall>, narrated: seq<ToolCall>, inputTokens: nat)
    | Faulted(fault: Fault, spent: bool, waited: bool)

  datatype ToolOutcome = ToolOutcome(ok: bool, content: string)

  /** Whether the router grants the edge asked for, per place that asks. */
  datatype Grants = Grants(retry: bool, stall: bool, floor: bool, fault: bool, repeated: bool, stuck: bool, drop: bool)

  /** Everything one round of the loop meets. `fabricated` is the fabrication audit's
      reason, empty when sound; `fakeGreen` the refusal of a green gate. */
  datatype Round = Round(
    rung: string, tierBudget: Option<nat>, strongSpent: bool, ceiling: bool, servesFloor: bool,
    grants: Grants, proactive: Option<string>, recovery: Option<string>,
    call: CallOutcome, results: nat -> ToolOutcome,
    gateOk: bool, gateOut: string, fabricated: string, fakeGreen: bool)

  /** No text the model or a tool produces starts with one of the loop's markers. */
  ghost predicate Clean(r: Round) {
    (r.call.Answered? ==> Plain(r.call.text)) && forall k :: Plain(r.results(k).content)
  }

  datatype Result = Result(text: string, verifyFailed: bool, modelFault: string, stopped: string,
                           fabricated: string, escalate: string)

  const DONE := Result("", false, "", "", "", "")

  datatype Outcome = Finished(result: Result) | Errored(message: string)

  function EscalateVerdict(reason: string): string { "unverified/escalate: " + reason }

  const EXIT_INCOMPLETE := 3

  /** `runOutcomeCode`, and 1 for an error. */
  function ExitCode(o: Outcome): nat {
    match o
    case Errored(_) => 1
    case Finished(r) =>
      if r.escalate != "" || r.fabricated != "" || r.verifyFailed || r.modelFault != "" then EXIT_INCOMPLETE
      else if r.stopped != "" && Blank(r.text) then EXIT_INCOMPLETE
      else 0
  }

  // -------------------------------------------------------------------- trace

  /** What a run did, in order: calls to the model with the transcript sent and what it was
      to keep, tool calls, evaluations of the gate, and fake-green audits. */
  datatype Act =
    | Called(transcript: seq<ChatMessage>, faulted: bool, keep: Keep)
    | Dispatched(call: ToolCall)
    | Gated(ok: bool)
    | Audited(refused: bool)

  function Calls(trace: seq<Act>): nat {
    if trace == [] then 0
    else Calls(trace[..|trace| - 1]) + if trace[|trace| - 1].Called? then 1 else 0
  }

  /** More acts, but no more model calls. */
  predicate Extends(was: seq<Act>, now: seq<Act>) { was <= now && Calls(now) == Calls(was) }

  /** Next comes one model call, with the transcript `sent`, and no other. */
  predicate MadeCall(was: seq<Act>, now: seq<Act>, sent: seq<ChatMessage>) {
    && was < now && Calls(now) == Calls(was) + 1
    && now[|was|].Called? && now[|was|].transcript == sent
  }

  lemma {:induction false} OneCall(was: seq<Act>, call: Act, now: seq<Act>)
    requires call.Called? && Extends(was + [call], now)
    ensures MadeCall(was, now, call.transcript)
  {
    assert (was + [call])[..|was|] == was;
    assert now[|was|] == (was + [call])[|was|];
  }

  /** Well formed, with no result outstanding, and with all that was to be kept. */
  ghost predicate Sendable(a: Act) { a.Called? ==> Formed(a.transcript, []) && Kept(a.transcript, a.keep) }

  /** What was to be kept is what the run set out with: the head, the goal, and the prompt as
      long as no compaction has folded it away. */
  predicate Since(start: Keep, k: Keep, folded: bool) {
    && k.head == start.head && (start.goal != "" ==> k.goal == start.goal)
    && (k.prompt == start.prompt || (folded && k.prompt.None?))
  }

  /** A transcript begins with the head, carries the goal, and holds the prompt unless that
      has been folded away. */
  ghost predicate Remembers(t: seq<ChatMessage>, head: seq<ChatMessage>, goal: string, prompt: string, folded: bool) {
    && head <= t && (Pinned(goal) ==> Carries(t, goal))
    && (Plain(prompt) && !folded ==> UserMessage(prompt) in t)
  }

  /** Every transcript sent to the model was that. */
  ghost predicate Sound(trace: seq<Act>, start: Keep, folded: bool) {
    forall i :: 0 <= i < |trace| && trace[i].Called? ==> Sendable(trace[i]) && Since(start, trace[i].keep, folded)
  }

  /** Every transcript sent remembers; one has forgotten the prompt only when that was folded. */
  ghost predicate Remembered(trace: seq<Act>, start: Keep, prompt: string, folded: bool) {
    forall i :: 0 <= i < |trace| && trace[i].Called? ==>
      && Remembers(trace[i].transcript, start.head, start.goal, prompt, trace[i].keep.prompt.None?)
      && (trace[i].keep.prompt.None? ==> folded)
  }

  lemma {:induction false} SoundRemembers(trace: seq<Act>, start: Keep, folded: bool, prompt: string)
    requires Sound(trace, start, folded) && start.prompt == Some(prompt)
    ensures Remembered(trace, start, prompt, folded)
  {
    forall i | 0 <= i < |trace| && trace[i].Called?
      ensures Remembers(trace[i].transcript, start.head, start.goal, prompt, trace[i].keep.prompt.None?)
      ensures trace[i].keep.prompt.None? ==> folded
    {
      assert Sendable(trace[i]) && Since(start, trace[i].keep, folded);
    }
  }

  /** The gate's last evaluation was green, and no tool ran after it. */
  predicate Green(trace: seq<Act>) {
    trace != [] &&
    match trace[|trace| - 1]
    case Gated(ok) => ok
    case Dispatched(_) => false
    case _ => Green(trace[..|trace| - 1])
  }

  /** The last thing audited was that evaluation, and it passed. */
  predicate AuditPassed(trace: seq<Act>) {
    trace != [] && trace[|trace| - 1] == Audited(false)
  }

  /** The run was closed by the gate right after a model fault. */
  predicate ClosedOnFault(trace: seq<Act>) {
    |trace| >= 2 && trace[|trace| - 1].Gated? && trace[|trace| - 2].Called? && trace[|trace| - 2].faulted
  }

  /** A run may exit with 0 only on a green gate that passed the fake-green audit, or
      that closed it after a fault. */
  predicate Earned(cfg: Config, trace: seq<Act>, o: Outcome) {
    cfg.hasVerify && ExitCode(o) == 0 ==> Green(trace) && (AuditPassed(trace) || ClosedOnFault(trace))
  }

  lemma {:induction false} TraceAppend(trace: seq<Act>, a: Act, start: Keep, folded: bool)
    requires Sound(trace, start, folded) && (a.Called? ==> Sendable(a) && Since(start, a.keep, folded))
    ensures Sound(trace + [a], start, folded)
    ensures Calls(trace + [a]) == Calls(trace) + if a.Called? then 1 else 0
    ensures Green(trace + [a]) <==> if a.Gated? then a.ok else !a.Dispatched? && Green(trace)
  {
    assert (trace + [a])[..|trace|] == trace;
  }

  // ------------------------------------------------------------- repeated calls

  /** `toolCallSignature`: the calls without their ids. */
  function Signature(calls: seq<ToolCall>): string {
    if calls == [] then ""
    else Signature(calls[..|calls| - 1]) + Spelled(calls[|calls| - 1]) + "\n"
  }

  function Spelled(c: ToolCall): string { c.surface + "." + c.action + c.params }

  predicate Same(c: ToolCall, d: ToolCall) { c.surface == d.surface && c.action == d.action && c.params == d.params }

  /** Encoded parameters are an object on one line; a surface has no dot in it, and an action
      no brace. */
  predicate Regular(c: ToolCall) {
    && '.' !in c.surface && '{' !in c.action
    && (c.params != "" ==> c.params[0] == '{') && '\n' !in Spelled(c)
  }

  lemma {:induction false} StartsWithin(a: string, p: string, b: string, q: string)
    requires a + p == b + q
    ensures |a| < |b| ==> p != "" && p[0] in b
    ensures |a| < |b| ==> b[|b| - 1] in p
  {
    if |a| < |b| {
      assert (a + p)[|a|] == p[0] && (b + q)[|a|] == b[|a|];
      assert (a + p)[|b| - 1] == p[|b| - 1 - |a|] && (b + q)[|b| - 1] == b[|b| - 1];
    }
  }

  lemma {:induction false} SameCut(a: string, p: string, b: string, q: string)
    requires a + p == b + q && |a| == |b|
    ensures a == b && p == q
  {
    assert (a + p)[..|a|] == a && (b + q)[..|b|] == b && (a + p)[|a|..] == p && (b + q)[|b|..] == q;
  }

  lemma {:induction false} SpelledTells(c: ToolCall, d: ToolCall)
    requires Regular(c) && Regular(d) && Spelled(c) == Spelled(d)
    ensures Same(c, d)
  {
    var p, q := "." + c.action + c.params, "." + d.action + d.params;
    assert Spelled(c) == c.surface + p && Spelled(d) == d.surface + q;
    StartsWithin(c.surface, p, d.surface, q);
    StartsWithin(d.surface, q, c.surface, p);
    SameCut(c.surface, p, d.surface, q);
    assert p[1..] == c.action + c.params && q[1..] == d.action + d.params;
    StartsWithin(c.action, c.params, d.action, d.params);
    StartsWithin(d.action, d.params, c.action, c.params);
    SameCut(c.action, c.params, d.action, d.params);
  }

  lemma {:induction false} LastLine(p: string, l: string, q: string, m: string)
    requires p + l + "\n" == q + m + "\n" && '\n' !in l && '\n' !in m
    requires (p != "" ==> p[|p| - 1] == '\n') && (q != "" ==> q[|q| - 1] == '\n')
    ensures p == q && l == m
  {
    SameCut(p + l, "\n", q + m, "\n");
    StartsWithin(p, l, q, m);
    StartsWithin(q, m, p, l);
    SameCut(p, l, q, m);
  }

  /** The signatures of two rounds are the same exactly when the calls are, ids apart. */
  lemma {:induction false} SignatureTells(a: seq<ToolCall>, b: seq<ToolCall>)
    requires forall i :: 0 <= i < |a| ==> Regular(a[i])
    requires forall i :: 0 <= i < |b| ==> Regular(b[i])
    ensures Signature(a) == Signature(b) <==> |a| == |b| && forall i :: 0 <= i < |a| ==> Same(a[i], b[i])
    decreases |a|
  {
    if a != [] && b != [] {
      var m, n := |a| - 1, |b| - 1;
      SignatureTells(a[..m], b[..n]);
      if Signature(a) == Signature(b) {
        LastLine(Signature(a[..m]), Spelled(a[m]), Signature(b[..n]), Spelled(b[n]));
        SpelledTells(a[m], b[n]);
      }
      assert forall i :: 0 <= i < m ==> a[i] == a[..m][i];
      assert forall i :: 0 <= i < n ==> b[i] == b[..n][i];
    }
  }

  predicate IsSpawn(c: ToolCall) { c.surface == "agent" && c.action == "spawn" }

  predicate Mutates(c: ToolCall, ok: bool) {
    ok && c.surface == "fs" && c.action in ["write", "edit", "move", "remove"]
  }

  /** `floorFits`: below four fifths of the window; no window is no limit. */
  predicate FloorFits(tokens: int, window: int) { window <= 0 || tokens < window * 4 / 5 }
}
