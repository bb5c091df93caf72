/** Folding old turn-groups into one rolling summary against a token budget
    (internal/agent/compaction.go). */
module Compactor {
  import opened Text
  import opened Transcript

  const SUMMARY_RESERVE := 1024
  const MIN_TAIL := 512

  // ------------------------------------------------------------ head and body

  /** The length of the leading run of system prompts, up to a rolling summary. */
  function HeadLength(t: seq<ChatMessage>): (n: nat)
    ensures n <= |t|
    ensures forall i :: 0 <= i < n ==> t[i].role.System? && !IsSummary(t[i])
    ensures n < |t| ==> !t[n].role.System? || IsSummary(t[n])
  {
    if t == [] || !t[0].role.System? || IsSummary(t[0]) then 0 else 1 + HeadLength(t[1..])
  }

  /** Where the body starts: behind the head and a rolling summary. */
  function BodyStart(t: seq<ChatMessage>): (n: nat)
    ensures HeadLength(t) <= n <= |t|
  {
    var h := HeadLength(t);
    if h < |t| && IsSummary(t[h]) then h + 1 else h
  }

  lemma {:induction false} HeadLengthUnique(t: seq<ChatMessage>, n: nat)
    requires n <= |t| && forall i :: 0 <= i < n ==> t[i].role.System? && !IsSummary(t[i])
    requires n < |t| ==> !t[n].role.System? || IsSummary(t[n])
    ensures HeadLength(t) == n
  {
    if n > 0 { HeadLengthUnique(t[1..], n - 1); }
  }

  method SplitForCompaction(t: seq<ChatMessage>) returns (head: seq<ChatMessage>, body: seq<ChatMessage>)
    ensures head == t[..HeadLength(t)] && body == t[BodyStart(t)..]
  {
    var i := 0;
    while i < |t| && t[i].role.System? && !(COMPACTION_MARKER <= t[i].content)
      invariant i <= |t|
      invariant forall j :: 0 <= j < i ==> t[j].role.System? && !IsSummary(t[j])
    {
      i := i + 1;
    }
    HeadLengthUnique(t, i);
    head := t[..i];
    if i < |t| && t[i].role.System? && COMPACTION_MARKER <= t[i].content { i := i + 1; }
    body := t[i..];
  }

  // -------------------------------------------------------------- turn-groups

  /** The indices of the user messages: each starts a turn-group. */
  function Groups(body: seq<ChatMessage>): (at: seq<nat>)
    ensures forall j :: 0 <= j < |at| ==> at[j] < |body| && body[at[j]].role.User?
    ensures forall i, j :: 0 <= i < j < |at| ==> at[i] < at[j]
  {
    if body == [] then []
    else Groups(body[..|body| - 1]) + if body[|body| - 1].role.User? then [|body| - 1] else []
  }

  /** All of them. */
  lemma {:induction false} GroupsComplete(body: seq<ChatMessage>, i: nat)
    requires i < |body| && body[i].role.User?
    ensures i in Groups(body)
  {
    if i < |body| - 1 { GroupsComplete(body[..|body| - 1], i); }
  }

  method UserMessageIndices(body: seq<ChatMessage>) returns (at: seq<nat>)
    ensures at == Groups(body)
  {
    at := [];
    for i := 0 to |body|
      invariant at == Groups(body[..i])
    {
      assert body[..i + 1][..i] == body[..i];
      if body[i].role.User? { at := at + [i]; }
    }
    assert body[..|body|] == body;
  }

  /** The latest `k` turn-groups. */
  function Latest(body: seq<ChatMessage>, at: seq<nat>, k: nat): seq<ChatMessage>
    requires 1 <= k <= |at| && at[|at| - k] <= |body|
  {
    body[at[|at| - k]..]
  }

  /** `k` groups may be kept: no more than the cap, and within the token budget; one
      group is always kept. */
  predicate Keepable(body: seq<ChatMessage>, at: seq<nat>, maxGroups: int, tailBudget: int, k: nat)
    requires 1 <= k <= |at| && at[|at| - k] <= |body|
  {
    k == 1 || (k <= maxGroups && EstimateTokens(Latest(body, at, k)) <= tailBudget)
  }

  /** Exactly the runs of up to `kept` latest groups are keepable. */
  ghost predicate Longest(body: seq<ChatMessage>, at: seq<nat>, maxGroups: int, tailBudget: int, kept: nat)
    requires at == Groups(body)
  {
    forall k :: 1 <= k <= |at| ==> (Keepable(body, at, maxGroups, tailBudget, k) <==> k <= kept)
  }

  lemma {:induction false} SuffixShorter(t: seq<ChatMessage>, i: nat, j: nat)
    requires i <= j <= |t|
    ensures EstimateTokens(t[j..]) <= EstimateTokens(t[i..])
  {
    assert t[i..] == t[i..j] + t[j..];
    EstimateConcat(t[i..j], t[j..]);
  }

  lemma {:induction false} FewerKeepable(body: seq<ChatMessage>, at: seq<nat>, maxGroups: int, tailBudget: int,
                                         j: nat, k: nat)
    requires at == Groups(body) && 1 <= j <= k <= |at| && Keepable(body, at, maxGroups, tailBudget, k)
    ensures Keepable(body, at, maxGroups, tailBudget, j)
  {
    if j < k { SuffixShorter(body, at[|at| - k], at[|at| - j]); }
  }

  /** A keepable run that cannot be extended is the longest one. */
  lemma {:induction false} LongestExactly(body: seq<ChatMessage>, at: seq<nat>, maxGroups: int, tailBudget: int,
                                          kept: nat)
    requires at == Groups(body) && 1 <= kept <= |at| && Keepable(body, at, maxGroups, tailBudget, kept)
    requires kept < |at| ==> !Keepable(body, at, maxGroups, tailBudget, kept + 1)
    ensures Longest(body, at, maxGroups, tailBudget, kept)
  {
    forall k | 1 <= k <= |at| ensures Keepable(body, at, maxGroups, tailBudget, k) <==> k <= kept {
      if k <= kept {
        FewerKeepable(body, at, maxGroups, tailBudget, k, kept);
      } else if Keepable(body, at, maxGroups, tailBudget, k) {
        FewerKeepable(body, at, maxGroups, tailBudget, kept + 1, k);
      }
    }
  }

  /** `recencyStartForBudget`: the kept tail is the longest keepable run of latest
      groups. */
  method RecencyStart(body: seq<ChatMessage>, at: seq<nat>, maxGroups: int, tailBudget: int)
    returns (start: nat, kept: nat)
    requires at == Groups(body) && at != []
    ensures 1 <= kept <= |at| && start == at[|at| - kept]
    ensures Longest(body, at, maxGroups, tailBudget, kept)
  {
    var n := |at|;
    start, kept := at[n - 1], 1;
    var i := n - 2;
    var open := true;
    while open && i >= 0 && kept < maxGroups
      invariant -1 <= i <= n - 2 && kept == n - 1 - i && start == at[n - kept]
      invariant Keepable(body, at, maxGroups, tailBudget, kept)
      invariant !open ==> kept < n && !Keepable(body, at, maxGroups, tailBudget, kept + 1)
      decreases open, i
    {
      var cand := at[i];
      if EstimateTokens(body[cand..]) > tailBudget {
        open := false;
      } else {
        start, kept, i := cand, kept + 1, i - 1;
      }
    }
    LongestExactly(body, at, maxGroups, tailBudget, kept);
  }

  // --------------------------------------------------------------- compaction

  function SummaryText(goal: string, summary: string): string {
    COMPACTION_MARKER + ("\nThis session's context was compacted to stay within budget.\n\n"
      + (if goal != "" then "ACTIVE GOAL (verbatim first user prompt):\n" + goal + "\n\n" else "")
      + "## Summary of earlier turns\n" + summary)
  }

  function SummaryMessage(goal: string, summary: string): ChatMessage {
    SystemMessage(SummaryText(goal, summary))
  }

  /** What a summary message says: the goal in full, if there is one, and at its end the
      summary. */
  lemma {:induction false} SummarySays(goal: string, summary: string)
    ensures SummaryMessage(goal, summary).role.System? && IsSummary(SummaryMessage(goal, summary))
    ensures EndsIn(SummaryMessage(goal, summary).content, summary)
    ensures Contains(SummaryMessage(goal, summary).content, goal)
  {
    var opening := "\nThis session's context was compacted to stay within budget.\n\n";
    var title := "## Summary of earlier turns\n";
    if goal != "" {
      var intro := "ACTIVE GOAL (verbatim first user prompt):\n";
      GoalInside(COMPACTION_MARKER, opening, intro, goal, "\n\n", title, summary);
    } else {
      assert StandsAt(SummaryText(goal, summary), goal, 0);
      EndsThere(COMPACTION_MARKER, opening, "", title, summary);
    }
  }

  lemma {:induction false} EndsThere(mark: string, opening: string, middle: string, title: string, summary: string)
    ensures EndsIn(mark + (opening + middle + title + summary), summary)
  {}

  lemma {:induction false} GoalInside(mark: string, opening: string, intro: string, goal: string, gap: string,
                                      title: string, summary: string)
    ensures Contains(mark + (opening + (intro + goal + gap) + title + summary), goal)
    ensures EndsIn(mark + (opening + (intro + goal + gap) + title + summary), summary)
  {
    var whole := mark + (opening + (intro + goal + gap) + title + summary);
    assert whole == (mark + opening + intro) + goal + (gap + title + summary);
    ContainsMiddle(mark + opening + intro, goal, gap + title + summary);
    EndsThere(mark, opening, intro + goal + gap, title, summary);
  }

  datatype CompactionEvent = CompactionEvent(before: int, after: int, groupsEvicted: nat, budget: int, overhead: int)

  /** What the tail may take before the floor applies. */
  function TailRoom(head: seq<ChatMessage>, budget: int, overhead: int, ratio: real): int {
    Trunc((budget - overhead) as real / AtLeastOne(ratio)) - EstimateTokens(head) - SUMMARY_RESERVE
  }

  function TailBudget(head: seq<ChatMessage>, budget: int, overhead: int, ratio: real): int {
    var room := TailRoom(head, budget, overhead, ratio);
    if room < MIN_TAIL then MIN_TAIL else room
  }

  /** `out` has the head, the summary and the `kept` latest groups of the body, and
      `kept` is as large as the limits let it be. */
  ghost predicate Rewritten(head: seq<ChatMessage>, body: seq<ChatMessage>, out: seq<ChatMessage>, summary: ChatMessage,
                            kept: nat, cap: int, tailBudget: int) {
    var at := Groups(body);
    && 1 <= kept <= |at| && at[|at| - kept] > 0
    && out == head + [summary] + Latest(body, at, kept)
    && Longest(body, at, cap, tailBudget, kept)
  }

  /** There is something to fold away besides the kept tail. */
  ghost predicate Foldable(body: seq<ChatMessage>, cap: int, tailBudget: int) {
    var at := Groups(body);
    |at| >= 2 && (at[0] > 0 || !Keepable(body, at, cap, tailBudget, |at|))
  }

  method FoldGroups(head: seq<ChatMessage>, body: seq<ChatMessage>, goal: string, cap: int, tail: int,
                    reply: Option<string>)
    returns (out: seq<ChatMessage>, evicted: nat, folded: bool)
    ensures folded <==> Foldable(body, cap, tail) && reply.Some?
    ensures folded ==> evicted < |Groups(body)|
    ensures folded ==>
      Rewritten(head, body, out, SummaryMessage(goal, reply.value), |Groups(body)| - evicted, cap, tail)
  {
    out, evicted, folded := [], 0, false;
    var at := UserMessageIndices(body);
    if |at| < 2 { return; }
    var start, kept := RecencyStart(body, at, cap, tail);
    if start == 0 || reply.None? { return; }
    out := head + [SummaryMessage(goal, reply.value)] + body[start..];
    evicted, folded := |at| - kept, true;
  }

  function AtLeastOneGroup(recencyTurns: int): int { if recencyTurns < 1 then 1 else recencyTurns }

  function Head(t: seq<ChatMessage>): seq<ChatMessage> { t[..HeadLength(t)] }

  function Body(t: seq<ChatMessage>): seq<ChatMessage> { t[BodyStart(t)..] }

  /** `out` is `t` compacted to a tail within `tail` tokens and `cap` groups. */
  ghost predicate Compacted(t: seq<ChatMessage>, out: seq<ChatMessage>, msg: ChatMessage, cap: int, tail: int,
                            evicted: nat) {
    && evicted < |Groups(Body(t))|
    && Rewritten(Head(t), Body(t), out, msg, |Groups(Body(t))| - evicted, cap, tail)
  }

  /** A compaction fires: over the budget, with something to fold and a reply. */
  ghost predicate Compacts(t: seq<ChatMessage>, overhead: int, budget: int, recencyTurns: int, ratio: real,
                           reply: Option<string>) {
    && ContextSize(t, overhead, ratio) > budget && reply.Some?
    && Foldable(Body(t), AtLeastOneGroup(recencyTurns), TailBudget(Head(t), budget, overhead, ratio))
  }

  /** The limits leave `evicted` of the turn-groups to be folded. */
  ghost predicate Evicts(t: seq<ChatMessage>, cap: int, tail: int, evicted: nat) {
    var at := Groups(Body(t));
    evicted < |at| && Longest(Body(t), at, cap, tail, |at| - evicted)
  }

  /** And then it leaves `out`, with as many groups evicted as the limits say. */
  ghost predicate CompactedTo(t: seq<ChatMessage>, out: seq<ChatMessage>, goal: string, summary: string, overhead: int,
                              budget: int, recencyTurns: int, ratio: real) {
    forall evicted: nat ::
      Evicts(t, AtLeastOneGroup(recencyTurns), TailBudget(Head(t), budget, overhead, ratio), evicted) ==>
      Compacted(t, out, SummaryMessage(goal, summary), AtLeastOneGroup(recencyTurns),
                TailBudget(Head(t), budget, overhead, ratio), evicted)
  }

  /** The limits say one number. */
  lemma {:induction false} EvictsOnce(t: seq<ChatMessage>, cap: int, tail: int, m: nat, n: nat)
    requires Evicts(t, cap, tail, m) && Evicts(t, cap, tail, n)
    ensures m == n
  {
    var body, at := Body(t), Groups(Body(t));
    assert Keepable(body, at, cap, tail, |at| - m) && Keepable(body, at, cap, tail, |at| - n);
  }

  /** And one there is. */
  lemma {:induction false} EvictsSome(body: seq<ChatMessage>, at: seq<nat>, cap: int, tail: int, kept: nat)
    returns (longest: nat)
    requires at == Groups(body) && 1 <= kept <= |at| && Keepable(body, at, cap, tail, kept)
    ensures 1 <= longest <= |at| && Longest(body, at, cap, tail, longest)
    decreases |at| - kept
  {
    if kept < |at| && Keepable(body, at, cap, tail, kept + 1) {
      longest := EvictsSome(body, at, cap, tail, kept + 1);
    } else {
      LongestExactly(body, at, cap, tail, kept);
      longest := kept;
    }
  }

  /** So a compaction that evicted that many is what `CompactedTo` says. */
  lemma {:induction false} CompactedOnce(t: seq<ChatMessage>, out: seq<ChatMessage>, goal: string, summary: string,
                                         overhead: int, budget: int, recencyTurns: int, ratio: real, tail: int,
                                         evicted: nat)
    requires tail == TailBudget(Head(t), budget, overhead, ratio)
    requires Compacted(t, out, SummaryMessage(goal, summary), AtLeastOneGroup(recencyTurns), tail, evicted)
    ensures CompactedTo(t, out, goal, summary, overhead, budget, recencyTurns, ratio)
  {
    forall n: nat | Evicts(t, AtLeastOneGroup(recencyTurns), tail, n) ensures n == evicted {
      EvictsOnce(t, AtLeastOneGroup(recencyTurns), tail, n, evicted);
    }
  }

  /** And it says there was one. */
  lemma {:induction false} CompactedToMeans(t: seq<ChatMessage>, out: seq<ChatMessage>, goal: string, summary: string,
                                            overhead: int, budget: int, recencyTurns: int, ratio: real)
    returns (tail: int, evicted: nat)
    requires Compacts(t, overhead, budget, recencyTurns, ratio, Some(summary))
    requires CompactedTo(t, out, goal, summary, overhead, budget, recencyTurns, ratio)
    ensures Compacted(t, out, SummaryMessage(goal, summary), AtLeastOneGroup(recencyTurns), tail, evicted)
    ensures tail == TailBudget(Head(t), budget, overhead, ratio)
  {
    tail := TailBudget(Head(t), budget, overhead, ratio);
    var longest := EvictsSome(Body(t), Groups(Body(t)), AtLeastOneGroup(recencyTurns), tail, 1);
    evicted := |Groups(Body(t))| - longest;
    assert Evicts(t, AtLeastOneGroup(recencyTurns), tail, evicted);
  }

  /** The target after `attempts` cuts by a quarter, but no lower than the floor. */
  function Quartered(target: int, floor: int, attempts: nat): int
    decreases attempts
  {
    if attempts > 0 then Quartered(target * 3 / 4, floor, attempts - 1)
    else if target < floor then floor else target
  }

  /** What a forced compaction leaves for the overhead and a bit. */
  const FORCED_ROOM := 256

  method SplitAndFold(t: seq<ChatMessage>, head: seq<ChatMessage>, body: seq<ChatMessage>, goal: string, cap: int,
                      tail: int,
                      reply: Option<string>)
    returns (out: seq<ChatMessage>, evicted: nat, folded: bool)
    requires head == Head(t) && body == Body(t)
    ensures folded <==> Foldable(Body(t), cap, tail) && reply.Some?
    ensures if folded then Compacted(t, out, SummaryMessage(goal, reply.value), cap, tail, evicted) else out == t
  {
    out, evicted, folded := FoldGroups(head, body, goal, cap, tail, reply);
    if !folded { out := t; }
  }

  method TailLimit(head: seq<ChatMessage>, budget: int, overhead: int, ratio: real) returns (tail: int)
    ensures tail == TailBudget(head, budget, overhead, ratio)
  {
    tail := TailRoom(head, budget, overhead, ratio);
    if tail < MIN_TAIL { tail := MIN_TAIL; }
  }

  /** `compactToBudget`: it fires when the transcript is over budget, there is something
      to fold, and the summarizer answers (`reply`, None when it failed). */
  method CompactToBudget(t: seq<ChatMessage>, goal: string, prevSummary: string, overhead: int, budget: int,
                         recencyTurns: int, ratio: real, reply: Option<string>)
    returns (out: seq<ChatMessage>, summary: string, ev: Option<CompactionEvent>, ghost tail: int)
    ensures tail == TailBudget(Head(t), budget, overhead, ratio)
    ensures ev.Some? <==>
      ContextSize(t, overhead, ratio) > budget && Foldable(Body(t), AtLeastOneGroup(recencyTurns), tail) && reply.Some?
    ensures ev.None? ==> out == t && summary == prevSummary
    ensures ev.Some? ==> summary == reply.value
    ensures ev.Some? ==>
      Compacted(t, out, SummaryMessage(goal, summary), AtLeastOneGroup(recencyTurns), tail, ev.value.groupsEvicted)
    ensures ev.Some? ==> CompactedTo(t, out, goal, summary, overhead, budget, recencyTurns, ratio)
    ensures ev.Some? ==> ev.value.before == ContextSize(t, overhead, ratio)
    ensures ev.Some? ==> ev.value.after == ContextSize(out, overhead, ratio)
    ensures ev.Some? ==> ev.value.budget == budget && ev.value.overhead == overhead
  {
    out, summary, ev := t, prevSummary, None;
    var head, body := SplitForCompaction(t);
    var limit := TailLimit(head, budget, overhead, ratio);
    tail := limit;
    var before := ContextSize(t, overhead, ratio);
    if before <= budget { return; }
    var evicted, folded;
    out, evicted, folded := SplitAndFold(t, head, body, goal, AtLeastOneGroup(recencyTurns), limit, reply);
    if folded {
      summary := reply.value;
      CompactedOnce(t, out, goal, summary, overhead, budget, recencyTurns, ratio, tail, evicted);
      ev := Some(CompactionEvent(before, ContextSize(out, overhead, ratio), evicted, budget, overhead));
    }
  }

  // -------------------------------------------------------- meeting the budget

  lemma {:induction false} RatioFits(room: real, ratio: real, fit: int, used: int)
    requires ratio >= 1.0 && 0 <= used <= fit && fit as real <= room / ratio
    ensures used as real * ratio <= room
  {
    assert used as real * ratio <= fit as real * ratio;
    assert fit as real * ratio <= room / ratio * ratio == room;
  }

  /** What is within the corrected room is within the budget. */
  lemma {:induction false} WithinFit(t: seq<ChatMessage>, budget: int, overhead: int, ratio: real, fit: int)
    requires fit == Trunc((budget - overhead) as real / AtLeastOne(ratio)) && EstimateTokens(t) <= fit && fit > 0
    ensures ContextSize(t, overhead, ratio) <= budget
  {
    SizeFits(EstimateTokens(t), budget, overhead, AtLeastOne(ratio), fit);
  }

  lemma {:induction false} SizeFits(used: nat, budget: int, overhead: int, ratio: real, fit: int)
    requires ratio >= 1.0 && fit == Trunc((budget - overhead) as real / ratio) && used <= fit && fit > 0
    ensures overhead + Trunc(used as real * ratio) <= budget
  {
    RatioFits((budget - overhead) as real, ratio, fit, used);
  }

  /** Compaction meets its budget when the tail budget is not floored, the latest group
      fits it and the summary fits the reserve. */
  lemma {:induction false} CompactionMeetsBudget(t: seq<ChatMessage>, out: seq<ChatMessage>, msg: ChatMessage,
                                                 overhead: int,
                                                 budget: int, ratio: real, cap: int, tail: int, evicted: nat)
    requires Compacted(t, out, msg, cap, tail, evicted)
    requires tail == TailRoom(Head(t), budget, overhead, ratio) >= MIN_TAIL
    requires EstimateTokens(Latest(Body(t), Groups(Body(t)), 1)) <= tail && MessageTokens(msg) <= SUMMARY_RESERVE
    ensures ContextSize(out, overhead, ratio) <= budget
  {
    TailEstimate(Head(t), Body(t), out, msg, |Groups(Body(t))| - evicted, cap, tail);
    WithinFit(out, budget, overhead, ratio, tail + EstimateTokens(Head(t)) + SUMMARY_RESERVE);
  }

  lemma {:induction false} TailEstimate(head: seq<ChatMessage>, body: seq<ChatMessage>, out: seq<ChatMessage>,
                                        msg: ChatMessage,
                                        kept: nat, cap: int, tail: int)
    requires Rewritten(head, body, out, msg, kept, cap, tail)
    requires EstimateTokens(Latest(body, Groups(body), 1)) <= tail && MessageTokens(msg) <= SUMMARY_RESERVE
    ensures EstimateTokens(out) <= EstimateTokens(head) + SUMMARY_RESERVE + tail
  {
    var at := Groups(body);
    TailFits(body, at, cap, tail, kept);
    TailSum(head, msg, Latest(body, at, kept));
  }

  lemma {:induction false} TailFits(body: seq<ChatMessage>, at: seq<nat>, cap: int, tail: int, kept: nat)
    requires at == Groups(body) && 1 <= kept <= |at| && Longest(body, at, cap, tail, kept)
    requires EstimateTokens(Latest(body, at, 1)) <= tail
    ensures EstimateTokens(Latest(body, at, kept)) <= tail
  {
    assert Keepable(body, at, cap, tail, kept);
  }

  lemma {:induction false} TailSum(head: seq<ChatMessage>, msg: ChatMessage, tail: seq<ChatMessage>)
    ensures EstimateTokens(head + [msg] + tail) == EstimateTokens(head) + MessageTokens(msg) + EstimateTokens(tail)
  {
    EstimateConcat(head + [msg], tail);
    EstimateConcat(head, [msg]);
    EstimateOne(msg);
  }

  // ------------------------------------------------------------- what is kept

  lemma {:induction false} SystemsPaired(head: seq<ChatMessage>)
    requires forall i :: 0 <= i < |head| ==> head[i].role.System?
    ensures Awaiting(head) == Some([])
  {
    if head != [] { SystemsPaired(head[..|head| - 1]); }
  }

  lemma {:induction false} CutPaired(t: seq<ChatMessage>, head: seq<ChatMessage>, c: nat, ids: seq<string>)
    requires Awaiting(t) == Some(ids) && c < |t| && t[c].role.User?
    requires forall i :: 0 <= i < |head| ==> head[i].role.System?
    ensures Awaiting(head + t[c..]) == Some(ids)
  {
    StartsOpen(t, c);
    SystemsPaired(head);
    assert t[c..] == [t[c]] + t[c + 1..];
    AwaitingConcat(head, t[c..]);
    FromConcat(Some([]), [t[c]], t[c + 1..]);
    assert [t[c]][..0] == [];
    assert AwaitingFrom(Some([]), [t[c]]) == Await(Some([]), t[c]);
  }

  lemma {:induction false} SummaryBetween(a: seq<ChatMessage>, msg: ChatMessage, b: seq<ChatMessage>)
    requires forall i :: 0 <= i < |a| ==> a[i].role.System? && !IsSummary(a[i])
    requires forall i :: 0 <= i < |b| ==> !IsSummary(b[i])
    ensures OneSummary(a + [msg] + b)
  {
    var out := a + [msg] + b;
    assert forall i :: |a| < i < |out| ==> out[i] == b[i - |a| - 1];
  }

  lemma {:induction false} NoSummaryBehind(t: seq<ChatMessage>, c: nat)
    requires OneSummary(t) && c < |t| && t[c].role.User?
    ensures forall i :: 0 <= i < |t[c..]| ==> !IsSummary(t[c..][i])
  {
    forall i | 0 <= i < |t[c..]| ensures !IsSummary(t[c..][i]) {
      assert t[c..][i] == t[c + i];
    }
  }

  lemma {:induction false} OwnConcat(a: seq<ChatMessage>, b: seq<ChatMessage>)
    requires OwnMarkers(a) && OwnMarkers(b)
    ensures OwnMarkers(a + b)
  {}

  lemma {:induction false} OwnSlice(t: seq<ChatMessage>, i: nat, j: nat)
    requires OwnMarkers(t) && i <= j <= |t|
    ensures OwnMarkers(t[i..j])
  {
    forall k | 0 <= k < j - i && IsReminder(t[i..j][k]) ensures t[i..j][k].role.User? {
      assert t[i..j][k] == t[i + k];
    }
  }

  lemma {:induction false} SummaryPlain(goal: string, summary: string)
    ensures IsSummary(SummaryMessage(goal, summary)) && !IsReminder(SummaryMessage(goal, summary))
  {
    var c := SummaryText(goal, summary);
    assert COMPACTION_MARKER <= c;
    assert c[8] == COMPACTION_MARKER[8] == 'c';
    assert GOAL_MARKER[8] == 'g' && SPAWN_MARKER[8] == 's';
  }

  /** Cutting on a user message keeps the pairing and the markers, and leaves one summary. */
  lemma {:induction false} CutFormed(t: seq<ChatMessage>, h: nat, c: nat, msg: ChatMessage, ids: seq<string>)
    requires Formed(t, ids) && h <= c < |t| && t[c].role.User?
    requires forall i :: 0 <= i < h ==> t[i].role.System? && !IsSummary(t[i])
    requires msg.role.System? && !IsReminder(msg)
    ensures Formed(t[..h] + [msg] + t[c..], ids)
  {
    CutPaired(t, t[..h] + [msg], c, ids);
    NoSummaryBehind(t, c);
    SummaryBetween(t[..h], msg, t[c..]);
    OwnSlice(t, 0, h);
    OwnSlice(t, c, |t|);
    assert t[..h] == t[0..h] && t[c..] == t[c..|t|];
    OwnConcat(t[..h], [msg]);
    OwnConcat(t[..h] + [msg], t[c..]);
  }

  lemma {:induction false} CompactedFormed(t: seq<ChatMessage>, out: seq<ChatMessage>, goal: string, summary: string,
                                           cap: int, tail: int, evicted: nat, ids: seq<string>)
    requires Formed(t, ids) && Compacted(t, out, SummaryMessage(goal, summary), cap, tail, evicted)
    ensures Formed(out, ids)
  {
    SummaryPlain(goal, summary);
    RewrittenFormed(t, HeadLength(t), BodyStart(t), out, SummaryMessage(goal, summary), Groups(Body(t))[evicted], ids);
  }

  lemma {:induction false} RewrittenFormed(t: seq<ChatMessage>, h: nat, b: nat, out: seq<ChatMessage>, msg: ChatMessage,
                                           cut: nat, ids: seq<string>)
    requires Formed(t, ids) && h <= b <= b + cut < |t| && t[b..][cut].role.User?
    requires forall i :: 0 <= i < h ==> t[i].role.System? && !IsSummary(t[i])
    requires msg.role.System? && !IsReminder(msg) && out == t[..h] + [msg] + t[b..][cut..]
    ensures Formed(out, ids)
  {
    assert t[b..][cut..] == t[b + cut..];
    CutFormed(t, h, b + cut, msg, ids);
  }

  /** A well-formed transcript's summary stands right after its head, and nowhere else. */
  lemma {:induction false} SummaryAfterHead(t: seq<ChatMessage>, i: nat)
    requires OneSummary(t) && i < |t| && IsSummary(t[i])
    ensures i == HeadLength(t) && forall j :: 0 <= j < |t| && IsSummary(t[j]) ==> j == i
  {
    HeadLengthUnique(t, i);
  }

  /** A compaction leaves its summary behind the unchanged head and no other, so the next
      one takes in the whole body and drops just that summary. */
  lemma {:induction false} SummaryRolls(t: seq<ChatMessage>, out: seq<ChatMessage>, goal: string, summary: string,
                                        cap: int, tail: int, evicted: nat, ids: seq<string>)
    requires Formed(t, ids) && Compacted(t, out, SummaryMessage(goal, summary), cap, tail, evicted)
    ensures var h := HeadLength(out);
      && Head(out) == Head(t) && h < |out| && out[h] == SummaryMessage(goal, summary) && BodyStart(out) == h + 1
      && forall j :: 0 <= j < |out| && IsSummary(out[j]) ==> j == h
  {
    SummaryPlain(goal, summary);
    CompactedFormed(t, out, goal, summary, cap, tail, evicted, ids);
    assert out[HeadLength(t)] == SummaryMessage(goal, summary);
    SummaryAfterHead(out, HeadLength(t));
  }
}
