/** The append-only event log of a coding chain, its projection `Fold` and its
    shrinking `Compact` (internal/coding/events.go). */
module EventLog {
  import opened Text
  import opened CodingTypes

  datatype Event =
    | ChainStarted(meta: RunMeta, seeds: seq<ATRecord>)
    | ATStatusChanged(at: ATRecord)
    | ATInserted(at: ATRecord)
    | ChainStatusChanged(status: ChainStatus, failedSlug: string, position: int)

  // -------------------------------------------------------------------- Fold

  /** An out-of-range insert position appends. */
  function Clamp(pos: int, len: nat): (p: nat)
    ensures p <= len
    ensures 0 <= pos <= len ==> p == pos
  {
    if pos < 0 || pos > len then len else pos
  }

  function FoldStep(s: RunState, e: Event): RunState {
    match e
    case ChainStarted(meta, seeds) =>
      s.(meta := meta, status := ChainPending, ats := seeds)
    case ATStatusChanged(at) =>
      var i := FindAT(s.ats, at.slug);
      if i < |s.ats| then s.(ats := s.ats[i := at]) else s
    case ATInserted(at) =>
      s.(ats := Renumber(InsertAt(s.ats, Clamp(at.position, |s.ats|), at)))
    case ChainStatusChanged(status, failed, position) =>
      s.(status := status, failedSlug := failed, position := position)
  }

  function FoldFrom(s: RunState, events: seq<Event>): RunState {
    if events == [] then s
    else FoldStep(FoldFrom(s, events[..|events| - 1]), events[|events| - 1])
  }

  function FoldLog(events: seq<Event>): RunState { FoldFrom(EMPTY_RUN, events) }

  lemma {:induction false} FoldAppend(s: RunState, events: seq<Event>, e: Event)
    ensures FoldFrom(s, events + [e]) == FoldStep(FoldFrom(s, events), e)
  {
    assert (events + [e])[..|events|] == events;
  }

  lemma {:induction false} FoldConcat(s: RunState, a: seq<Event>, b: seq<Event>)
    ensures FoldFrom(s, a + b) == FoldFrom(FoldFrom(s, a), b)
  {
    if b == [] {
      assert a + b == a;
    } else {
      var n := |b| - 1;
      FoldConcat(s, a, b[..n]);
      assert (a + b)[..|a + b| - 1] == a + b[..n];
    }
  }

  /** The switch of `Fold`: one event applied to the state. */
  method FoldOne(s: RunState, e: Event) returns (s': RunState)
    ensures s' == FoldStep(s, e)
  {
    s' := s;
    match e {
      case ChainStarted(meta, seeds) =>
        s' := s.(meta := meta, status := ChainPending, ats := seeds);
      case ATStatusChanged(at) =>
        var i := FindAT(s.ats, at.slug);
        if i < |s.ats| { s' := s.(ats := s.ats[i := at]); }
      case ATInserted(at) =>
        var pos := at.position;
        if pos < 0 || pos > |s.ats| { pos := |s.ats|; }
        s' := s.(ats := Renumber(s.ats[..pos] + ([at] + s.ats[pos..])));
        assert s.ats[..pos] + ([at] + s.ats[pos..]) == InsertAt(s.ats, pos, at);
      case ChainStatusChanged(status, failed, position) =>
        s' := s.(status := status, failedSlug := failed, position := position);
    }
  }

  method Fold(events: seq<Event>) returns (s: RunState)
    ensures s == FoldLog(events)
  {
    s := EMPTY_RUN;
    for k := 0 to |events|
      invariant s == FoldLog(events[..k])
    {
      FoldAppend(EMPTY_RUN, events[..k], events[k]);
      assert events[..k] + [events[k]] == events[..k + 1];
      s := FoldOne(s, events[k]);
    }
    assert events[..|events|] == events;
  }

  // ----------------------------------------------------------------- Compact

  /** The locals of `Compact`: `lastAT` maps a slug to its slot in `out`. */
  datatype Compaction = Compaction(
    started: Option<Event>, out: seq<Event>, lastAT: map<string, nat>,
    inserted: set<string>, lastChain: Option<Event>)
  {
    /** Each slot holds a record event, and `lastAT` indexes exactly the slots. */
    ghost predicate Valid() {
      && (forall i :: 0 <= i < |out| ==> IsRecord(out[i]))
      && (forall i :: 0 <= i < |out| ==>
            out[i].at.slug in lastAT && lastAT[out[i].at.slug] == i)
      && (forall slug :: slug in lastAT ==>
            lastAT[slug] < |out| && out[lastAT[slug]].at.slug == slug)
    }
  }

  predicate IsRecord(e: Event) { e.ATStatusChanged? || e.ATInserted? }

  const COMPACTION_START := Compaction(None, [], map[], {}, None)

  /** Overwrite the slug's slot, or append one. */
  function Put(c: Compaction, e: Event): (r: Compaction)
    requires c.Valid() && IsRecord(e)
    ensures r.Valid()
  {
    if e.at.slug in c.lastAT
    then c.(out := c.out[c.lastAT[e.at.slug] := e])
    else c.(out := c.out + [e], lastAT := c.lastAT[e.at.slug := |c.out|])
  }

  function CompactStep(c: Compaction, e: Event): (r: Compaction)
    requires c.Valid()
    ensures r.Valid()
  {
    match e
    case ChainStarted(_, _) => c.(started := Some(e))
    case ATInserted(at) => Put(c.(inserted := c.inserted + {at.slug}), e)
    case ATStatusChanged(at) =>
      Put(c, if at.slug in c.inserted then ATInserted(at) else e)
    case ChainStatusChanged(_, _, _) => c.(lastChain := Some(e))
  }

  function CompactFold(events: seq<Event>): (c: Compaction)
    ensures c.Valid()
  {
    if events == [] then COMPACTION_START
    else CompactStep(CompactFold(events[..|events| - 1]), events[|events| - 1])
  }

  function Optional(o: Option<Event>): seq<Event> {
    if o.Some? then [o.value] else []
  }

  function CompactLog(events: seq<Event>): seq<Event> {
    var c := CompactFold(events);
    Optional(c.started) + c.out + Optional(c.lastChain)
  }

  lemma {:induction false} CompactAppend(events: seq<Event>, k: nat)
    requires k < |events|
    ensures CompactFold(events[..k + 1]) == CompactStep(CompactFold(events[..k]), events[k])
  {
    assert events[..k + 1][..k] == events[..k];
  }

  method PutSlot(out: seq<Event>, lastAT: map<string, nat>, e: Event, ghost c: Compaction)
    returns (out': seq<Event>, lastAT': map<string, nat>)
    requires c.Valid() && IsRecord(e) && out == c.out && lastAT == c.lastAT
    ensures c.(out := out', lastAT := lastAT') == Put(c, e)
  {
    out', lastAT' := out, lastAT;
    if e.at.slug in lastAT {
      out' := out'[lastAT[e.at.slug] := e];
    } else {
      out' := out' + [e];
      lastAT' := lastAT'[e.at.slug := |out'| - 1];
    }
  }

  /** The switch of `Compact`: one event worked into the locals. */
  method CompactOne(c: Compaction, e: Event) returns (c': Compaction)
    requires c.Valid()
    ensures c' == CompactStep(c, e)
  {
    c' := c;
    match e {
      case ChainStarted(_, _) => c' := c.(started := Some(e));
      case ATInserted(at) =>
        var marked := c.(inserted := c.inserted + {at.slug});
        var out, lastAT := PutSlot(c.out, c.lastAT, e, marked);
        c' := marked.(out := out, lastAT := lastAT);
      case ATStatusChanged(at) =>
        var rec := if at.slug in c.inserted then ATInserted(at) else e;
        var out, lastAT := PutSlot(c.out, c.lastAT, rec, c);
        c' := c.(out := out, lastAT := lastAT);
      case ChainStatusChanged(_, _, _) => c' := c.(lastChain := Some(e));
    }
  }

  method Compact(events: seq<Event>) returns (compacted: seq<Event>)
    ensures compacted == CompactLog(events)
  {
    var c := COMPACTION_START;
    for k := 0 to |events|
      invariant c == CompactFold(events[..k])
    {
      CompactAppend(events, k);
      c := CompactOne(c, events[k]);
    }
    assert events[..|events|] == events;
    compacted := [];
    if c.started.Some? { compacted := compacted + [c.started.value]; }
    compacted := compacted + c.out;
    if c.lastChain.Some? { compacted := compacted + [c.lastChain.value]; }
  }

  // ------------------------------------------------------- well-formed logs

  /** The order of the slugs after replaying `events` over `slugs`. */
  function Order(slugs: seq<string>, events: seq<Event>): (r: seq<string>) {
    if events == [] then slugs
    else
      var r := Order(slugs, events[..|events| - 1]);
      var e := events[|events| - 1];
      if e.ATInserted? then InsertAt(r, Clamp(e.at.position, |r|), e.at.slug) else r
  }

  function SlugSet(ats: seq<ATRecord>): set<string> { set r | r in ats :: r.slug }

  function InsertedSlugs(events: seq<Event>): set<string> {
    if events == [] then {}
    else
      var e := events[|events| - 1];
      InsertedSlugs(events[..|events| - 1]) + if e.ATInserted? then {e.at.slug} else {}
  }

  /** Record events name known slugs, inserts bring fresh ones, nothing restarts. */
  predicate Coherent(base: set<string>, events: seq<Event>) {
    events != [] ==>
      var before := events[..|events| - 1];
      && Coherent(base, before)
      && match events[|events| - 1]
         case ChainStarted(_, _) => false
         case ATStatusChanged(at) => at.slug in base + InsertedSlugs(before)
         case ATInserted(at) => at.slug !in base + InsertedSlugs(before)
         case ChainStatusChanged(_, _, _) => true
  }

  /** A record event carries the index its record has when it is emitted. */
  predicate Positioned(slugs: seq<string>, events: seq<Event>) {
    events != [] ==>
      var before := events[..|events| - 1];
      var order := Order(slugs, before);
      && Positioned(slugs, before)
      && match events[|events| - 1]
         case ATStatusChanged(at) => at.position == IndexOf(order, at.slug)
         case ATInserted(at) => 0 <= at.position <= |order|
         case _ => true
  }

  /** What the orchestrator emits: one start event with distinct, numbered seeds,
      then coherent, correctly positioned deltas. */
  predicate WellFormed(log: seq<Event>) {
    && log != []
    && log[0].ChainStarted?
    && Distinct(Slugs(log[0].seeds))
    && Numbered(log[0].seeds)
    && Coherent(SlugSet(log[0].seeds), log[1..])
    && Positioned(Slugs(log[0].seeds), log[1..])
  }
}
