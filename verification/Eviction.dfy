/** Eliding the bodies of old tool results within a turn (internal/agent/compaction.go). */
module Eviction {
  import opened Text
  import opened Transcript

  const SOFT_KEEP := 3
  const HARD_KEEP := 1

  /** A tool result that still has its body. */
  predicate Whole(m: ChatMessage) { m.role.ToolRole? && !(EVICTED_MARKER <= m.content) }

  function Elided(m: ChatMessage): ChatMessage {
    m.(content := EVICTED_MARKER + " " + (if m.name == "" then "tool" else m.name)
         + " result elided (" + Decimal(|m.content|) + " chars) to stay within the context budget; "
         + "re-run the tool (prefer fs.read with an outline/symbol view or a line range) "
         + "if you still need this data.")
  }

  /** The indices of the whole tool results, oldest first. */
  function WholeAt(t: seq<ChatMessage>): (at: seq<nat>)
    ensures forall j :: 0 <= j < |at| ==> at[j] < |t|
  {
    if t == [] then []
    else WholeAt(t[..|t| - 1]) + if Whole(t[|t| - 1]) then [|t| - 1] else []
  }

  /** How many whole tool results are older than the message at `i`. */
  function Older(t: seq<ChatMessage>, i: nat): nat
    requires i <= |t|
  {
    |WholeAt(t[..i])|
  }

  /** `t` with the `k` oldest whole tool results elided. */
  function ElideOldest(t: seq<ChatMessage>, k: nat): (r: seq<ChatMessage>)
    ensures |r| == |t|
    ensures forall i :: 0 <= i < |t| ==> r[i] == if Whole(t[i]) && Older(t, i) < k then Elided(t[i]) else t[i]
  {
    seq(|t|, i requires 0 <= i < |t| => if Whole(t[i]) && Older(t, i) < k then Elided(t[i]) else t[i])
  }

  function AtLeast(a: int, floor: nat): nat { if a < floor then floor else a }

  /** The hard floor, which never exceeds the soft one. */
  function HardFloor(keep: int, hardMin: int): nat {
    if hardMin > AtLeast(keep, 0) then AtLeast(keep, 0) else AtLeast(hardMin, 0)
  }

  /** The most results that may go. */
  function Evictable(whole: nat, keep: int, hardMin: int): nat {
    AtLeast(whole - HardFloor(keep, hardMin), 0)
  }

  // ------------------------------------------------------------- ranks

  lemma {:induction false} WholeAtRank(t: seq<ChatMessage>, j: nat)
    requires j < |WholeAt(t)|
    ensures Whole(t[WholeAt(t)[j]]) && Older(t, WholeAt(t)[j]) == j
  {
    var n := |t| - 1;
    if j < |WholeAt(t[..n])| {
      WholeAtRank(t[..n], j);
      var i := WholeAt(t[..n])[j];
      assert t[..n][..i] == t[..i];
    }
  }

  lemma {:induction false} OlderGrows(t: seq<ChatMessage>, i: nat, j: nat)
    requires i < j <= |t|
    ensures Older(t, j) >= Older(t, i) + if Whole(t[i]) then 1 else 0
    decreases j
  {
    assert t[..j][..j - 1] == t[..j - 1];
    if i < j - 1 { OlderGrows(t, i, j - 1); }
  }

  lemma {:induction false} ElideNext(t: seq<ChatMessage>, k: nat)
    requires k < |WholeAt(t)|
    ensures var i := WholeAt(t)[k];
      && ElideOldest(t, k)[i] == t[i]
      && ElideOldest(t, k + 1) == ElideOldest(t, k)[i := Elided(t[i])]
  {
    var i := WholeAt(t)[k];
    WholeAtRank(t, k);
    forall j | 0 <= j < |t| && j != i && Whole(t[j]) ensures Older(t, j) != k {
      if j < i { OlderGrows(t, j, i); } else { OlderGrows(t, i, j); }
    }
  }

  lemma {:induction false} ElideNone(t: seq<ChatMessage>)
    ensures ElideOldest(t, 0) == t
  {}

  // ------------------------------------------------------------ the eviction

  method CollectWhole(t: array<ChatMessage>) returns (at: seq<nat>)
    ensures at == WholeAt(t[..])
  {
    at := [];
    for i := 0 to t.Length
      invariant at == WholeAt(t[..i])
    {
      assert t[..i + 1][..i] == t[..i];
      if t[i].role.ToolRole? && !(EVICTED_MARKER <= t[i].content) { at := at + [i]; }
    }
    assert t[..t.Length] == t[..];
  }

  /** The transcripts met while eliding the results at `at` one after the other. */
  ghost predicate Stages(stages: seq<seq<ChatMessage>>, at: seq<nat>) {
    && |stages| == |at| + 1
    && forall k :: 0 <= k < |at| ==>
         at[k] < |stages[k]| && stages[k + 1] == stages[k][at[k] := Elided(stages[k][at[k]])]
  }

  ghost function ElideStages(t: seq<ChatMessage>): (stages: seq<seq<ChatMessage>>)
    ensures |stages| == |WholeAt(t)| + 1
    ensures forall k :: 0 <= k < |stages| ==> stages[k] == ElideOldest(t, k)
  {
    seq(|WholeAt(t)| + 1, k requires 0 <= k <= |WholeAt(t)| => ElideOldest(t, k))
  }

  lemma {:induction false} StagesElide(t: seq<ChatMessage>)
    ensures Stages(ElideStages(t), WholeAt(t)) && ElideStages(t)[0] == t
  {
    ElideNone(t);
    var at, stages := WholeAt(t), ElideStages(t);
    forall k | 0 <= k < |at|
      ensures at[k] < |stages[k]| && stages[k + 1] == stages[k][at[k] := Elided(stages[k][at[k]])]
    {
      ElideNext(t, k);
    }
  }

  /** One pass, oldest first, down to the `lo` newest results. */
  method EvictPass(t: array<ChatMessage>, at: seq<nat>, start: nat, lo: nat, budget: int,
                   size: seq<ChatMessage> -> int, ghost stages: seq<seq<ChatMessage>>)
    returns (evicted: nat)
    requires Stages(stages, at) && start <= |at| && t[..] == stages[start]
    modifies t
    ensures start <= evicted <= |at| && (evicted == start || evicted <= |at| - lo)
    ensures t[..] == stages[evicted]
    ensures forall j :: start <= j < evicted ==> size(stages[j]) > budget
    ensures size(t[..]) <= budget || evicted >= |at| - lo
  {
    evicted := start;
    while evicted < |at| - lo
      invariant start <= evicted <= |at| && (evicted == start || evicted <= |at| - lo)
      invariant t[..] == stages[evicted]
      invariant forall j :: start <= j < evicted ==> size(stages[j]) > budget
    {
      if size(t[..]) <= budget { return; }
      var i := at[evicted];
      assert t[i] == t[..][i];
      t[i] := Elided(t[i]);
      assert t[..] == stages[evicted + 1];
      evicted := evicted + 1;
    }
  }

  /** Both passes: the soft window first, then the hard floor. */
  method EvictPasses(t: array<ChatMessage>, at: seq<nat>, budget: int, keep: int, hardMin: int,
                     size: seq<ChatMessage> -> int, ghost stages: seq<seq<ChatMessage>>)
    returns (evicted: nat)
    requires Stages(stages, at) && t[..] == stages[0]
    modifies t
    ensures evicted <= Evictable(|at|, keep, hardMin) <= |at|
    ensures t[..] == stages[evicted]
    ensures forall j :: 0 <= j < evicted ==> size(stages[j]) > budget
    ensures size(t[..]) <= budget || evicted == Evictable(|at|, keep, hardMin)
  {
    var soft := if keep < 0 then 0 else keep;
    var hard := if hardMin < 0 then 0 else hardMin;
    if hard > soft { hard := soft; }
    evicted := EvictPass(t, at, 0, soft, budget, size, stages);
    if size(t[..]) <= budget { return; }
    evicted := EvictPass(t, at, evicted, hard, budget, size, stages);
  }

  /** Every shorter eviction was still over budget. */
  ghost predicate OverBefore(t: seq<ChatMessage>, k: nat, budget: int, overhead: int, ratio: real) {
    forall j :: 0 <= j < k ==> ContextSize(ElideOldest(t, j), overhead, ratio) > budget
  }

  /** Eliding the `k` oldest is enough, and no fewer are: the size is within budget, or all
      above the hard floor are gone. */
  ghost predicate Enough(t: seq<ChatMessage>, k: nat, budget: int, overhead: int, keep: int, hardMin: int,
                         ratio: real) {
    && k <= Evictable(|WholeAt(t)|, keep, hardMin) && OverBefore(t, k, budget, overhead, ratio)
    && (ContextSize(ElideOldest(t, k), overhead, ratio) <= budget || k == Evictable(|WholeAt(t)|, keep, hardMin))
  }

  /** There is one such number. */
  lemma {:induction false} EnoughOnce(t: seq<ChatMessage>, m: nat, budget: int, overhead: int, keep: int, hardMin: int,
                                      ratio: real)
    requires Enough(t, m, budget, overhead, keep, hardMin, ratio)
    ensures forall n: nat :: Enough(t, n, budget, overhead, keep, hardMin, ratio) ==> n == m
  {
    forall n: nat | Enough(t, n, budget, overhead, keep, hardMin, ratio) ensures n == m {
      assert m < n ==> ContextSize(ElideOldest(t, m), overhead, ratio) > budget;
      assert n < m ==> ContextSize(ElideOldest(t, n), overhead, ratio) > budget;
    }
  }

  /** `evictToolResults`: elide the fewest oldest results that bring the size within
      budget, or all above the hard floor. */
  method EvictToolResults(t: array<ChatMessage>, budget: int, overhead: int, keep: int, hardMin: int, ratio: real)
    returns (evicted: nat)
    modifies t
    ensures t[..] == ElideOldest(old(t[..]), evicted)
    ensures evicted <= Evictable(|WholeAt(old(t[..]))|, keep, hardMin)
    ensures OverBefore(old(t[..]), evicted, budget, overhead, ratio)
    ensures ContextSize(t[..], overhead, ratio) <= budget
         || evicted == Evictable(|WholeAt(old(t[..]))|, keep, hardMin)
  {
    var size := (m: seq<ChatMessage>) => ContextSize(m, overhead, ratio);
    ghost var was := t[..];
    ElideNone(was);
    if size(t[..]) <= budget { return 0; }
    var at := CollectWhole(t);
    StagesElide(was);
    evicted := EvictPasses(t, at, budget, keep, hardMin, size, ElideStages(was));
  }

  // -------------------------------------------------------- what it guarantees

  /** A result is touched only if it is among the `k` oldest whole ones; with at most
      `Evictable` of them gone, the newest results above the hard floor keep their bodies. */
  lemma {:induction false} NewestKept(t: seq<ChatMessage>, k: nat, keep: int, hardMin: int, j: nat)
    requires k <= Evictable(|WholeAt(t)|, keep, hardMin) && j < |WholeAt(t)|
    requires j >= |WholeAt(t)| - HardFloor(keep, hardMin)
    ensures ElideOldest(t, k)[WholeAt(t)[j]] == t[WholeAt(t)[j]]
  {
    WholeAtRank(t, j);
  }

  /** The soft window is entered only when the transcript is over budget with that
      window intact. */
  lemma {:induction false} SoftWindow(t: seq<ChatMessage>, k: nat, keep: nat, budget: int, overhead: int, ratio: real)
    requires OverBefore(t, k, budget, overhead, ratio) && keep <= |WholeAt(t)| && k > |WholeAt(t)| - keep
    ensures ContextSize(ElideOldest(t, |WholeAt(t)| - keep), overhead, ratio) > budget
  {}

  /** So while eliding all but the newest `keep` results is enough, those keep their bodies. */
  lemma {:induction false} SoftKept(t: seq<ChatMessage>, k: nat, keep: nat, budget: int, overhead: int, ratio: real,
                                    j: nat)
    requires OverBefore(t, k, budget, overhead, ratio)
    requires keep <= |WholeAt(t)| && |WholeAt(t)| - keep <= j < |WholeAt(t)|
    requires ContextSize(ElideOldest(t, |WholeAt(t)| - keep), overhead, ratio) <= budget
    ensures ElideOldest(t, k)[WholeAt(t)[j]] == t[WholeAt(t)[j]]
  {
    if k > |WholeAt(t)| - keep { SoftWindow(t, k, keep, budget, overhead, ratio); }
    WholeAtRank(t, j);
  }

  lemma {:induction false} SameSkeleton(a: seq<ChatMessage>, b: seq<ChatMessage>)
    requires |a| == |b|
    requires forall i :: 0 <= i < |a| ==>
      a[i].role == b[i].role && a[i].calls == b[i].calls && a[i].callId == b[i].callId
    ensures Awaiting(a) == Awaiting(b)
  {
    if a != [] { SameSkeleton(a[..|a| - 1], b[..|b| - 1]); }
  }

  lemma {:induction false} ElidedPlain(m: ChatMessage)
    ensures !IsReminder(Elided(m)) && !Whole(Elided(m))
  {
    var c := Elided(m).content;
    assert EVICTED_MARKER <= c;
    assert c[8] == EVICTED_MARKER[8] == 'e';
    assert GOAL_MARKER[8] == 'g' && SPAWN_MARKER[8] == 's';
  }

  /** How long an elided result is, whatever its old body was. */
  function ElidedLength(name: string, was: nat): nat {
    EVICTION_NOTE + |if name == "" then "tool" else name| + |Decimal(was)|
  }

  /** What the note takes besides the tool's name and the old length. */
  const EVICTION_NOTE := 193

  /** The old body is gone: the new one says only which tool it was and how long, so two
      results alike in that are elided alike; and a result longer than its note shrinks. */
  lemma {:induction false} ElidedForgets(m: ChatMessage, other: ChatMessage)
    ensures Elided(m).role == m.role && Elided(m).callId == m.callId && Elided(m).name == m.name
    ensures EVICTED_MARKER <= Elided(m).content && |Elided(m).content| == ElidedLength(m.name, |m.content|)
    ensures other.name == m.name && |other.content| == |m.content| ==> Elided(other).content == Elided(m).content
    ensures |m.content| > ElidedLength(m.name, |m.content|) ==> |Elided(m).content| < |m.content|
  {}

  /** Eviction never breaks the pairing, the summary or the markers. */
  lemma {:induction false} ElideFormed(t: seq<ChatMessage>, k: nat, ids: seq<string>)
    requires Formed(t, ids)
    ensures Formed(ElideOldest(t, k), ids)
  {
    var r := ElideOldest(t, k);
    SameSkeleton(t, r);
    forall i | 0 <= i < |t|
      ensures IsReminder(r[i]) ==> r[i].role.User?
      ensures IsSummary(r[i]) == IsSummary(t[i])
    {
      ElidedPlain(t[i]);
    }
  }
}
