/** The agent's transcript: its messages, its token estimate, and what makes it
    acceptable to a model provider (internal/agent/compaction.go, loop.go). */
module Transcript {
  import opened Text

  datatype Role = System | User | Assistant | ToolRole

  /** `params` is the call's encoded parameters, empty when there are none. */
  datatype ToolCall = ToolCall(id: string, surface: string, action: string, params: string)

  datatype ChatMessage = ChatMessage(
    role: Role, content: string, calls: seq<ToolCall>, callId: string, name: string)

  function SystemMessage(content: string): ChatMessage { ChatMessage(System, content, [], "", "") }
  function UserMessage(content: string): ChatMessage { ChatMessage(User, content, [], "", "") }
  function AssistantMessage(content: string, calls: seq<ToolCall>): ChatMessage {
    ChatMessage(Assistant, content, calls, "", "")
  }
  function ToolMessage(call: ToolCall, content: string): ChatMessage {
    ChatMessage(ToolRole, content, [], call.id, call.surface)
  }

  const COMPACTION_MARKER := "[corpos:compacted-context]"
  const GOAL_MARKER := "[corpos:goal-reminder]"
  const SPAWN_MARKER := "[corpos:spawn-now]"
  const EVICTED_MARKER := "[corpos:evicted-tool-result]"

  // ----------------------------------------------------------------- estimate

  function CallTokens(calls: seq<ToolCall>): nat {
    if calls == [] then 0
    else
      var c := calls[|calls| - 1];
      CallTokens(calls[..|calls| - 1]) + (|c.surface| + |c.action|) / 4 + |c.params| / 4 + 8
  }

  function MessageTokens(m: ChatMessage): nat { |m.content| / 4 + 4 + CallTokens(m.calls) }

  /** `estimateTokens`. */
  function EstimateTokens(t: seq<ChatMessage>): nat {
    if t == [] then 0
    else EstimateTokens(t[..|t| - 1]) + MessageTokens(t[|t| - 1])
  }

  lemma {:induction false} EstimateConcat(a: seq<ChatMessage>, b: seq<ChatMessage>)
    ensures EstimateTokens(a + b) == EstimateTokens(a) + EstimateTokens(b)
  {
    if b == [] {
      assert a + b == a;
    } else {
      EstimateConcat(a, b[..|b| - 1]);
      assert (a + b)[..|a + b| - 1] == a + b[..|b| - 1];
    }
  }

  lemma {:induction false} EstimateOne(m: ChatMessage)
    ensures EstimateTokens([m]) == MessageTokens(m)
  {
    assert [m][..0] == [];
  }

  function CallCharacters(calls: seq<ToolCall>): nat {
    if calls == [] then 0
    else
      var c := calls[|calls| - 1];
      CallCharacters(calls[..|calls| - 1]) + |c.surface| + |c.action| + |c.params|
  }

  /** All the characters a transcript holds, and how many calls. */
  function Characters(t: seq<ChatMessage>): nat {
    if t == [] then 0
    else Characters(t[..|t| - 1]) + |t[|t| - 1].content| + CallCharacters(t[|t| - 1].calls)
  }

  function CallCount(t: seq<ChatMessage>): nat {
    if t == [] then 0 else CallCount(t[..|t| - 1]) + |t[|t| - 1].calls|
  }

  lemma {:induction false} CallEstimate(calls: seq<ToolCall>)
    ensures CallCharacters(calls) + 26 * |calls| <= 4 * CallTokens(calls) <= CallCharacters(calls) + 32 * |calls|
  {
    if calls != [] { CallEstimate(calls[..|calls| - 1]); }
  }

  /** The estimate is four characters a token, with up to four tokens for a message and
      eight for a call on top; it never falls short of the characters. */
  lemma {:induction false} EstimateCovers(t: seq<ChatMessage>)
    ensures Characters(t) + 13 * |t| + 26 * CallCount(t) <= 4 * EstimateTokens(t)
    ensures 4 * EstimateTokens(t) <= Characters(t) + 16 * |t| + 32 * CallCount(t)
  {
    if t != [] {
      EstimateCovers(t[..|t| - 1]);
      CallEstimate(t[|t| - 1].calls);
    }
  }

  function AtLeastOne(ratio: real): real { if ratio < 1.0 then 1.0 else ratio }

  /** Go's conversion of a float to an int: toward zero. */
  function Trunc(x: real): int { if x < 0.0 then -((-x).Floor) else x.Floor }

  /** `currentSize`: the fixed overhead plus the corrected estimate; a ratio below one
      corrects nothing. */
  function ContextSize(t: seq<ChatMessage>, overhead: int, ratio: real): int {
    overhead + Trunc(EstimateTokens(t) as real * AtLeastOne(ratio))
  }

  // ------------------------------------------------------------------ pairing

  function Ids(calls: seq<ToolCall>): (ids: seq<string>)
    ensures |ids| == |calls|
    ensures forall i :: 0 <= i < |calls| ==> ids[i] == calls[i].id
  {
    seq(|calls|, i requires 0 <= i < |calls| => calls[i].id)
  }

  /** The effect of one message on the call ids still waiting for their result. */
  function Await(ids: Option<seq<string>>, m: ChatMessage): Option<seq<string>> {
    if ids.None? then None
    else if m.role.ToolRole? then
      if ids.value != [] && m.callId == ids.value[0] then Some(ids.value[1..]) else None
    else if ids.value != [] then None
    else if m.role.Assistant? then Some(Ids(m.calls))
    else Some([])
  }

  /** The call ids still waiting after `t`, in order; None when `t` broke the pairing. */
  function Awaiting(t: seq<ChatMessage>): Option<seq<string>> {
    if t == [] then Some([]) else Await(Awaiting(t[..|t| - 1]), t[|t| - 1])
  }

  /** Each assistant message is followed at once by exactly the results of its calls, in
      order, and no result stands anywhere else. */
  predicate WellPaired(t: seq<ChatMessage>) { Awaiting(t) == Some([]) }

  function AwaitingFrom(ids: Option<seq<string>>, t: seq<ChatMessage>): Option<seq<string>> {
    if t == [] then ids else Await(AwaitingFrom(ids, t[..|t| - 1]), t[|t| - 1])
  }

  lemma {:induction false} AwaitingConcat(a: seq<ChatMessage>, b: seq<ChatMessage>)
    ensures Awaiting(a + b) == AwaitingFrom(Awaiting(a), b)
  {
    if b == [] {
      assert a + b == a;
    } else {
      AwaitingConcat(a, b[..|b| - 1]);
      assert (a + b)[..|a + b| - 1] == a + b[..|b| - 1];
    }
  }

  lemma {:induction false} AwaitingAppend(t: seq<ChatMessage>, m: ChatMessage)
    ensures Awaiting(t + [m]) == Await(Awaiting(t), m)
  {
    assert (t + [m])[..|t|] == t;
  }

  lemma {:induction false} BrokenStays(t: seq<ChatMessage>)
    ensures AwaitingFrom(None, t) == None
  {
    if t != [] { BrokenStays(t[..|t| - 1]); }
  }

  /** While calls wait, the next messages are their results. */
  lemma {:induction false} ResultsFollow(ids: seq<string>, t: seq<ChatMessage>, k: nat)
    requires AwaitingFrom(Some(ids), t) == Some([]) && k < |ids|
    ensures |ids| <= |t| && t[k].role.ToolRole? && t[k].callId == ids[k]
  {
    if t != [] {
      assert t == [t[0]] + t[1..];
      FromConcat(Some(ids), [t[0]], t[1..]);
      assert [t[0]][..0] == [];
      assert AwaitingFrom(Some(ids), [t[0]]) == Await(Some(ids), t[0]);
      BrokenStays(t[1..]);
      if |ids| > 1 {
        ResultsFollow(ids[1..], t[1..], if k == 0 then 0 else k - 1);
      }
    }
  }

  lemma {:induction false} FromConcat(ids: Option<seq<string>>, a: seq<ChatMessage>, b: seq<ChatMessage>)
    ensures AwaitingFrom(ids, a + b) == AwaitingFrom(AwaitingFrom(ids, a), b)
  {
    if b == [] {
      assert a + b == a;
    } else {
      FromConcat(ids, a, b[..|b| - 1]);
      assert (a + b)[..|a + b| - 1] == a + b[..|b| - 1];
    }
  }

  lemma {:induction false} StartsOpen(t: seq<ChatMessage>, i: nat)
    requires Awaiting(t).Some? && i < |t| && !t[i].role.ToolRole?
    ensures Awaiting(t[..i]) == Some([])
    ensures AwaitingFrom(Await(Some([]), t[i]), t[i + 1..]) == Awaiting(t)
  {
    assert t == t[..i] + ([t[i]] + t[i + 1..]);
    AwaitingConcat(t[..i], [t[i]] + t[i + 1..]);
    FromConcat(Awaiting(t[..i]), [t[i]], t[i + 1..]);
    assert [t[i]][..0] == [];
    assert AwaitingFrom(Awaiting(t[..i]), [t[i]]) == Await(Awaiting(t[..i]), t[i]);
    BrokenStays(t[i + 1..]);
  }

  /** What pairing means for one assistant message: its calls' results come right
      behind it, each in the place of its call. */
  lemma {:induction false} PairedResults(t: seq<ChatMessage>, i: nat, k: nat)
    requires WellPaired(t) && i < |t| && t[i].role.Assistant? && k < |t[i].calls|
    ensures i + 1 + k < |t|
    ensures t[i + 1 + k].role.ToolRole? && t[i + 1 + k].callId == t[i].calls[k].id
  {
    StartsOpen(t, i);
    ResultsFollow(Ids(t[i].calls), t[i + 1..], k);
  }

  lemma {:induction false} CallerOfWaiting(t: seq<ChatMessage>) returns (i: nat)
    requires Awaiting(t).Some? && Awaiting(t).value != []
    ensures i < |t| && t[i].role.Assistant?
    ensures var ids := Ids(t[i].calls);
      |t| - i - 1 <= |ids| && Awaiting(t).value == ids[|t| - i - 1..]
  {
    var n := |t| - 1;
    if t[n].role.ToolRole? {
      i := CallerOfWaiting(t[..n]);
    } else {
      i := n;
    }
  }

  /** And no result stands anywhere else: each one answers the call in its place. */
  lemma {:induction false} ResultHasCall(t: seq<ChatMessage>, j: nat) returns (i: nat, k: nat)
    requires Awaiting(t).Some? && j < |t| && t[j].role.ToolRole?
    ensures i < j && t[i].role.Assistant? && k < |t[i].calls| && j == i + 1 + k
    ensures t[j].callId == t[i].calls[k].id
  {
    assert t == (t[..j] + [t[j]]) + t[j + 1..];
    AwaitingConcat(t[..j] + [t[j]], t[j + 1..]);
    AwaitingAppend(t[..j], t[j]);
    BrokenStays(t[j + 1..]);
    i := CallerOfWaiting(t[..j]);
    k := j - i - 1;
  }

  // -------------------------------------------------------------- the markers

  /** A text that does not start like one of the loop's reminders. */
  predicate Plain(text: string) { !(GOAL_MARKER <= text) && !(SPAWN_MARKER <= text) }

  predicate IsSummary(m: ChatMessage) { m.role.System? && COMPACTION_MARKER <= m.content }

  predicate IsReminder(m: ChatMessage) { GOAL_MARKER <= m.content || SPAWN_MARKER <= m.content }

  /** A rolling summary stands directly after the system head, so there is at most one. */
  predicate OneSummary(t: seq<ChatMessage>) {
    forall i :: 0 <= i < |t| && IsSummary(t[i]) ==> forall j :: 0 <= j < i ==> t[j].role.System? && !IsSummary(t[j])
  }

  /** Only the loop's own user messages start with a reminder marker. */
  predicate OwnMarkers(t: seq<ChatMessage>) {
    forall i :: 0 <= i < |t| && IsReminder(t[i]) ==> t[i].role.User?
  }

  /** A transcript under construction, `ids` still waiting for their results. */
  predicate Formed(t: seq<ChatMessage>, ids: seq<string>) {
    Awaiting(t) == Some(ids) && OneSummary(t) && OwnMarkers(t)
  }

  /** A message that may come next, leaving `ids'` waiting. */
  predicate Fits(ids: seq<string>, m: ChatMessage, ids': seq<string>) {
    && Await(Some(ids), m) == Some(ids')
    && !IsSummary(m)
    && (IsReminder(m) ==> m.role.User?)
  }

  lemma {:induction false} FormedAppend(t: seq<ChatMessage>, ids: seq<string>, m: ChatMessage, ids': seq<string>)
    requires Formed(t, ids) && Fits(ids, m, ids')
    ensures Formed(t + [m], ids')
  {
    AwaitingAppend(t, m);
  }
}
