/** The loop's goal and spawn reminders: one of each at most, at the tail
    (internal/agent/compaction.go). */
module Reminders {
  import opened Text
  import opened Transcript

  /** `t` without the messages that start with `marker`. */
  function Without(t: seq<ChatMessage>, marker: string): seq<ChatMessage> {
    if t == [] then []
    else
      var m := t[|t| - 1];
      Without(t[..|t| - 1], marker) + if marker <= m.content then [] else [m]
  }

  lemma {:induction false} WithoutMembers(t: seq<ChatMessage>, marker: string)
    ensures forall m :: m in Without(t, marker) <==> m in t && !(marker <= m.content)
  {
    if t != [] {
      WithoutMembers(t[..|t| - 1], marker);
      assert t == t[..|t| - 1] + [t[|t| - 1]];
    }
  }

  /** Message by message, in order. */
  lemma {:induction false} WithoutConcat(a: seq<ChatMessage>, b: seq<ChatMessage>, marker: string)
    ensures Without(a + b, marker) == Without(a, marker) + Without(b, marker)
  {
    if b == [] {
      assert a + b == a;
    } else {
      WithoutConcat(a, b[..|b| - 1], marker);
      assert (a + b)[..|a + b| - 1] == a + b[..|b| - 1];
    }
  }

  lemma {:induction false} WithoutNone(t: seq<ChatMessage>, marker: string)
    requires forall i :: 0 <= i < |t| ==> !(marker <= t[i].content)
    ensures Without(t, marker) == t
  {
    if t != [] { WithoutNone(t[..|t| - 1], marker); }
  }

  method Drop(t: seq<ChatMessage>, marker: string) returns (out: seq<ChatMessage>)
    ensures out == Without(t, marker)
  {
    out := [];
    for k := 0 to |t|
      invariant out == Without(t[..k], marker)
    {
      assert t[..k + 1][..k] == t[..k];
      if !(marker <= t[k].content) { out := out + [t[k]]; }
    }
    assert t[..|t|] == t;
  }

  function GoalReminder(goal: string): ChatMessage {
    UserMessage(GOAL_MARKER + " Reminder: stay on the ACTIVE GOAL and do not substitute a different target:\n" + goal)
  }

  function SpawnReminder(rounds: nat): ChatMessage {
    UserMessage(SPAWN_MARKER + " You have spent " + Decimal(rounds) + " tool round(s) and have NOT called agent.spawn.")
  }

  /** What the reminders say: the goal in full, and the rounds spent. */
  lemma {:induction false} GoalReminderSays(goal: string)
    ensures GoalReminder(goal).role.User? && GOAL_MARKER <= GoalReminder(goal).content
    ensures EndsIn(GoalReminder(goal).content, "\n" + goal)
  {}

  lemma {:induction false} SpawnReminderSays(rounds: nat)
    ensures SpawnReminder(rounds).role.User? && SPAWN_MARKER <= SpawnReminder(rounds).content
    ensures Contains(SpawnReminder(rounds).content, Decimal(rounds))
  {
    ContainsMiddle(SPAWN_MARKER + " You have spent ", Decimal(rounds),
                   " tool round(s) and have NOT called agent.spawn.");
  }

  method ClearSpawnForce(t: seq<ChatMessage>) returns (out: seq<ChatMessage>)
    ensures out == Without(t, SPAWN_MARKER)
  {
    out := Drop(t, SPAWN_MARKER);
  }

  method RefreshSpawnForce(t: seq<ChatMessage>, rounds: nat) returns (out: seq<ChatMessage>)
    ensures out == Without(t, SPAWN_MARKER) + [SpawnReminder(rounds)]
  {
    out := ClearSpawnForce(t);
    out := out + [SpawnReminder(rounds)];
  }

  method RefreshGoalReminder(t: seq<ChatMessage>, goal: string) returns (out: seq<ChatMessage>)
    ensures out == if Blank(goal) then t else Without(t, GOAL_MARKER) + [GoalReminder(goal)]
  {
    if Blank(goal) { return t; }
    out := Drop(t, GOAL_MARKER);
    out := out + [GoalReminder(goal)];
  }

  lemma {:induction false} WithoutAwaiting(t: seq<ChatMessage>, marker: string)
    requires Awaiting(t).Some?
    requires forall i :: 0 <= i < |t| && marker <= t[i].content ==> t[i].role.User?
    ensures Awaiting(Without(t, marker)) == Awaiting(t)
  {
    if t != [] {
      var before, m := t[..|t| - 1], t[|t| - 1];
      WithoutAwaiting(before, marker);
      if marker <= m.content {
        assert Without(t, marker) == Without(before, marker);
      } else {
        AwaitingAppend(Without(before, marker), m);
      }
    }
  }

  lemma {:induction false} WithoutSummary(t: seq<ChatMessage>, marker: string)
    requires OneSummary(t)
    ensures OneSummary(Without(t, marker))
  {
    if t != [] {
      var before, m := t[..|t| - 1], t[|t| - 1];
      assert t == before + [m];
      WithoutSummary(before, marker);
      WithoutMembers(before, marker);
      if marker <= m.content {
        assert Without(t, marker) == Without(before, marker);
      } else {
        SummaryStays(before, m, Without(before, marker));
      }
    }
  }

  lemma {:induction false} SummaryStays(t: seq<ChatMessage>, m: ChatMessage, r: seq<ChatMessage>)
    requires OneSummary(t + [m]) && OneSummary(r) && forall x :: x in r ==> x in t
    ensures OneSummary(r + [m])
  {
    if IsSummary(m) {
      forall j | 0 <= j < |r| ensures r[j].role.System? && !IsSummary(r[j]) {
        assert r[j] in r;
        var i :| 0 <= i < |t| && t[i] == r[j];
        assert (t + [m])[i] == r[j] && IsSummary((t + [m])[|t|]);
      }
    }
  }

  /** Dropping the loop's own reminders keeps a transcript well formed, also between a
      call and its result. */
  lemma {:induction false} WithoutFormed(t: seq<ChatMessage>, marker: string, ids: seq<string>)
    requires Formed(t, ids) && (marker == GOAL_MARKER || marker == SPAWN_MARKER)
    ensures Formed(Without(t, marker), ids)
  {
    forall i | 0 <= i < |t| && marker <= t[i].content ensures t[i].role.User? {
      assert IsReminder(t[i]);
    }
    WithoutAwaiting(t, marker);
    WithoutSummary(t, marker);
    var r := Without(t, marker);
    WithoutMembers(t, marker);
    forall i | 0 <= i < |r| && IsReminder(r[i]) ensures r[i].role.User? {
      assert r[i] in r;
      var j :| 0 <= j < |t| && t[j] == r[i];
      assert IsReminder(t[j]);
    }
  }

  /** A refresh leaves exactly one reminder of its kind, the last message. */
  lemma {:induction false} RefreshedOnce(t: seq<ChatMessage>, marker: string, m: ChatMessage, i: nat)
    requires marker <= m.content && i < |Without(t, marker) + [m]|
    ensures marker <= (Without(t, marker) + [m])[i].content <==> i == |Without(t, marker)|
  {
    var r := Without(t, marker);
    WithoutMembers(t, marker);
    if i < |r| { assert r[i] in r; }
  }

  lemma {:induction false} RefreshedFormed(t: seq<ChatMessage>, marker: string, m: ChatMessage)
    requires Formed(t, []) && m.role.User? && (marker == GOAL_MARKER || marker == SPAWN_MARKER)
    ensures Formed(Without(t, marker) + [m], [])
  {
    WithoutFormed(t, marker, []);
    FormedAppend(Without(t, marker), [], m, []);
  }
}
