/** What the loop's rewrites of a transcript never lose: the system head, the goal, and the
    prompt until a compaction folds it (internal/agent/compaction.go, loop.go). */
module Retention {
  import opened Text
  import opened Transcript
  import opened Reminders
  import opened Eviction
  import opened Compactor

  /** What is to be kept: the system prompts a run finds, the goal anchor, and the prompt,
      None once it is folded away. */
  datatype Keep = Keep(head: seq<ChatMessage>, goal: string, prompt: Option<string>)

  predicate Leading(head: seq<ChatMessage>) {
    forall i :: 0 <= i < |head| ==> head[i].role.System? && !IsSummary(head[i])
  }

  /** The message holds the goal word for word. */
  ghost predicate Bearer(m: ChatMessage, goal: string) {
    (m.role.User? || IsSummary(m)) && !(SPAWN_MARKER <= m.content) && Contains(m.content, goal)
  }

  ghost predicate Carries(t: seq<ChatMessage>, goal: string) { exists i :: 0 <= i < |t| && Bearer(t[i], goal) }

  /** A goal that cannot be taken for one of the loop's spawn reminders. */
  predicate Pinned(goal: string) { goal != "" && !(SPAWN_MARKER <= goal) }

  ghost predicate Kept(t: seq<ChatMessage>, k: Keep) {
    && Leading(k.head) && k.head <= t
    && (Pinned(k.goal) ==> Carries(t, k.goal))
    && (k.prompt.Some? && Plain(k.prompt.value) ==> UserMessage(k.prompt.value) in t)
  }

  lemma {:induction false} WholeContains(s: string)
    ensures Contains(s, s)
  {
    assert StandsAt(s, s, 0);
  }

  lemma {:induction false} EndContains(s: string, part: string)
    requires EndsIn(s, part)
    ensures Contains(s, part)
  {
    assert StandsAt(s, part, |s| - |part|);
  }

  /** `firstUserContent`. */
  function FirstUser(t: seq<ChatMessage>): string {
    if t == [] then "" else if t[0].role.User? then t[0].content else FirstUser(t[1..])
  }

  /** The anchor is set once, to the first user message there is. */
  function Anchored(goal: string, t: seq<ChatMessage>): string { if goal != "" then goal else FirstUser(t) }

  lemma {:induction false} FirstUserIs(t: seq<ChatMessage>, i: nat)
    requires i < |t| && t[i].role.User? && forall j :: 0 <= j < i ==> !t[j].role.User?
    ensures FirstUser(t) == t[i].content
  {
    if i > 0 { FirstUserIs(t[1..], i - 1); }
  }

  // ---------------------------------------------------------- append, eviction

  lemma {:induction false} KeptAppend(t: seq<ChatMessage>, m: ChatMessage, k: Keep)
    requires Kept(t, k)
    ensures Kept(t + [m], k)
  {
    if Pinned(k.goal) {
      var i :| 0 <= i < |t| && Bearer(t[i], k.goal);
      assert Bearer((t + [m])[i], k.goal);
    }
  }

  /** A new prompt is held from now on. */
  lemma {:induction false} KeptPrompt(t: seq<ChatMessage>, prompt: string, k: Keep)
    requires Kept(t, k)
    ensures Kept(t + [UserMessage(prompt)], k.(prompt := Some(prompt)))
  {
    KeptAppend(t, UserMessage(prompt), k);
    assert (t + [UserMessage(prompt)])[|t|] == UserMessage(prompt);
  }

  /** A goal anchored in a user message is held from now on. */
  lemma {:induction false} KeptGoal(t: seq<ChatMessage>, i: nat, k: Keep)
    requires Kept(t, k) && i < |t| && t[i].role.User?
    ensures Kept(t, k.(goal := t[i].content))
  {
    WholeContains(t[i].content);
    if Pinned(t[i].content) { assert Bearer(t[i], t[i].content); }
  }

  /** Only tool results changed. */
  lemma {:induction false} KeptSame(t: seq<ChatMessage>, r: seq<ChatMessage>, k: Keep)
    requires Kept(t, k) && |r| == |t| && forall i :: 0 <= i < |t| ==> t[i].role.ToolRole? || r[i] == t[i]
    ensures Kept(r, k)
  {
    assert forall i :: 0 <= i < |k.head| ==> r[i] == t[i];
    if Pinned(k.goal) {
      var i :| 0 <= i < |t| && Bearer(t[i], k.goal);
      assert Bearer(r[i], k.goal);
    }
    if k.prompt.Some? && Plain(k.prompt.value) {
      var i :| 0 <= i < |t| && t[i] == UserMessage(k.prompt.value);
      assert r[i] == t[i];
    }
  }

  lemma {:induction false} KeptElide(t: seq<ChatMessage>, n: nat, k: Keep)
    requires Kept(t, k)
    ensures Kept(ElideOldest(t, n), k)
  {
    KeptSame(t, ElideOldest(t, n), k);
  }

  // ----------------------------------------------------------------- reminders

  lemma {:induction false} HeadStays(t: seq<ChatMessage>, marker: string, head: seq<ChatMessage>)
    requires Leading(head) && head <= t && OwnMarkers(t) && (marker == GOAL_MARKER || marker == SPAWN_MARKER)
    ensures head <= Without(t, marker)
  {
    assert t == head + t[|head|..];
    WithoutConcat(head, t[|head|..], marker);
    forall i | 0 <= i < |head| ensures !(marker <= head[i].content) {
      assert head[i] == t[i];
      if marker <= head[i].content { assert IsReminder(t[i]); }
    }
    WithoutNone(head, marker);
  }

  lemma {:induction false} PromptStays(t: seq<ChatMessage>, marker: string, prompt: string)
    requires UserMessage(prompt) in t && Plain(prompt) && (marker == GOAL_MARKER || marker == SPAWN_MARKER)
    ensures UserMessage(prompt) in Without(t, marker)
  {
    WithoutMembers(t, marker);
  }

  lemma {:induction false} KeptSpawnCleared(t: seq<ChatMessage>, k: Keep)
    requires Kept(t, k) && OwnMarkers(t)
    ensures Kept(Without(t, SPAWN_MARKER), k)
  {
    var r := Without(t, SPAWN_MARKER);
    HeadStays(t, SPAWN_MARKER, k.head);
    if k.prompt.Some? && Plain(k.prompt.value) { PromptStays(t, SPAWN_MARKER, k.prompt.value); }
    if Pinned(k.goal) {
      var i :| 0 <= i < |t| && Bearer(t[i], k.goal);
      WithoutMembers(t, SPAWN_MARKER);
      assert t[i] in r;
      var j :| 0 <= j < |r| && r[j] == t[i];
    }
  }

  /** A stale goal reminder goes, and the fresh one bears the goal. */
  lemma {:induction false} KeptGoalReminded(t: seq<ChatMessage>, k: Keep)
    requires Kept(t, k) && OwnMarkers(t)
    ensures Kept(Without(t, GOAL_MARKER) + [GoalReminder(k.goal)], k)
  {
    var r, m := Without(t, GOAL_MARKER), GoalReminder(k.goal);
    HeadStays(t, GOAL_MARKER, k.head);
    if k.prompt.Some? && Plain(k.prompt.value) { PromptStays(t, GOAL_MARKER, k.prompt.value); }
    ReminderBears(k.goal);
    assert (r + [m])[|r|] == m;
  }

  lemma {:induction false} ReminderBears(goal: string)
    ensures Bearer(GoalReminder(goal), goal)
  {
    var c := GoalReminder(goal).content;
    GoalReminderSays(goal);
    assert EndsIn(c, goal) by { assert ("\n" + goal)[1..] == goal; }
    EndContains(c, goal);
    assert c[8] == GOAL_MARKER[8] == 'g' && SPAWN_MARKER[8] == 's';
  }

  // ---------------------------------------------------------------- compaction

  /** One compaction: before and after. */
  datatype Fold = Fold(was: seq<ChatMessage>, now: seq<ChatMessage>)

  /** It was a compaction, and it folded the prompt away. */
  ghost predicate FoldsAway(f: Fold, prompt: string) {
    && UserMessage(prompt) in f.was && UserMessage(prompt) !in f.now
    && exists msg, cap, tail, evicted :: Compacted(f.was, f.now, msg, cap, tail, evicted)
  }

  /** What is still to be kept after a compaction to `out`. */
  function KeepAfter(k: Keep, out: seq<ChatMessage>): Keep {
    if k.prompt.Some? && Plain(k.prompt.value) && UserMessage(k.prompt.value) !in out then k.(prompt := None) else k
  }

  lemma {:induction false} HeadWithin(t: seq<ChatMessage>, head: seq<ChatMessage>)
    requires Leading(head) && head <= t
    ensures head <= Head(t)
  {
    assert forall i :: 0 <= i < |head| ==> t[i] == head[i];
  }

  lemma {:induction false} KeptCompacted(t: seq<ChatMessage>, out: seq<ChatMessage>, summary: string, cap: int,
                                         tail: int, evicted: nat, k: Keep)
    requires Kept(t, k) && Compacted(t, out, SummaryMessage(k.goal, summary), cap, tail, evicted)
    ensures Kept(out, KeepAfter(k, out))
  {
    var m := SummaryMessage(k.goal, summary);
    HeadWithin(t, k.head);
    assert Head(t) <= out;
    SummarySays(k.goal, summary);
    SummaryPlain(k.goal, summary);
    assert out[|Head(t)|] == m && Bearer(m, k.goal);
  }

  /** A turn-group the compaction keeps: its user message is still there. */
  lemma {:induction false} GroupKept(t: seq<ChatMessage>, out: seq<ChatMessage>, msg: ChatMessage, cap: int, tail: int,
                                     evicted: nat, g: nat)
    requires Compacted(t, out, msg, cap, tail, evicted) && evicted <= g < |Groups(Body(t))|
    ensures Body(t)[Groups(Body(t))[g]] in out
  {
    var body, at := Body(t), Groups(Body(t));
    assert body[at[evicted]..][at[g] - at[evicted]] == body[at[g]];
  }

  /** A prompt need not survive the run it opens: with one group to keep, what the loop tells
      the model later, here `told`, takes its place. */
  lemma {:induction false} PromptFolded(first: string, prompt: string, answer: string, told: string,
                                        out: seq<ChatMessage>, msg: ChatMessage, tail: int, evicted: nat)
    requires told != prompt && msg.role.System?
    requires Compacted([UserMessage(first), UserMessage(prompt), AssistantMessage(answer, []), UserMessage(told)],
                       out, msg, 1, tail, evicted)
    ensures UserMessage(prompt) !in out
  {
    var t := [UserMessage(first), UserMessage(prompt), AssistantMessage(answer, []), UserMessage(told)];
    HeadLengthUnique(t, 0);
    assert Body(t) == t;
    FourGroups(t);
    assert Keepable(t, Groups(t), 1, tail, |Groups(t)| - evicted);
    assert out == [msg] + t[3..];
  }

  lemma {:induction false} FourGroups(t: seq<ChatMessage>)
    requires |t| == 4 && t[0].role.User? && t[1].role.User? && !t[2].role.User? && t[3].role.User?
    ensures Groups(t) == [0, 1, 3]
  {
    assert t[..3][..2] == t[..2] && t[..2][..1] == t[..1] && t[..1][..0] == [];
    assert Groups(t[..0]) == [] && Groups(t[..1]) == [0] && Groups(t[..2]) == [0, 1] && Groups(t[..3]) == [0, 1];
  }
}
