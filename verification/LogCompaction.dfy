/** When `Fold(Compact(log)) == Fold(log)`: exactly when every inserted record was last
    recorded where it was inserted (internal/coding/events.go). */
module LogCompaction {
  import opened Text
  import opened CodingTypes
  import opened EventLog

  /** One insertion: which slug, at which recorded position. */
  datatype Insertion = Insertion(slug: string, position: int)

  function Inserts(events: seq<Event>): seq<Insertion> {
    if events == [] then []
    else
      var e := events[|events| - 1];
      Inserts(events[..|events| - 1]) +
      if e.ATInserted? then [Insertion(e.at.slug, e.at.position)] else []
  }

  function Seed(seeds: seq<ATRecord>, slug: string): Option<ATRecord> {
    var i := FindAT(seeds, slug);
    if i < |seeds| then Some(seeds[i]) else None
  }

  /** The last record the log carries for a slug; its seed when the log has none. */
  function LastRecord(seeds: seq<ATRecord>, events: seq<Event>, slug: string): Option<ATRecord> {
    if events == [] then Seed(seeds, slug)
    else
      var e := events[|events| - 1];
      if IsRecord(e) && e.at.slug == slug then Some(e.at)
      else LastRecord(seeds, events[..|events| - 1], slug)
  }

  function LastChain(events: seq<Event>): Option<Event> {
    if events == [] then None
    else if events[|events| - 1].ChainStatusChanged? then Some(events[|events| - 1])
    else LastChain(events[..|events| - 1])
  }

  /** The `i`-th insertion over `n` seeds lands where the slug was last recorded. */
  predicate Lands(seeds: seq<ATRecord>, events: seq<Event>, i: nat, ins: Insertion) {
    var last := LastRecord(seeds, events, ins.slug);
    last.Some? && Clamp(last.value.position, |seeds| + i) == Clamp(ins.position, |seeds| + i)
  }

  /** The caller-checkable condition: each inserted slug's last recorded position
      lands on the index it was inserted at. */
  predicate StableInserts(log: seq<Event>)
    requires WellFormed(log)
  {
    var ins := Inserts(log[1..]);
    forall i :: 0 <= i < |ins| ==> Lands(log[0].seeds, log[1..], i, ins[i])
  }

  // ------------------------------------------- what a replay leaves behind

  lemma {:induction false} DistinctInsert<T>(s: seq<T>, i: nat, x: T)
    requires i <= |s| && Distinct(s) && x !in s
    ensures Distinct(InsertAt(s, i, x))
  {
    var r := InsertAt(s, i, x);
    forall a, b | 0 <= a < b < |r| ensures r[a] != r[b] {
      if b > i { assert r[b] == s[b - 1]; }
      if a > i { assert r[a] == s[a - 1]; }
    }
  }

  lemma {:induction false} InsertMembers<T>(s: seq<T>, i: nat, x: T)
    requires i <= |s|
    ensures forall y :: y in InsertAt(s, i, x) <==> y in s || y == x
  {
    assert s == s[..i] + s[i..];
  }

  /** Replaying coherent events leaves the slugs, distinct, in `Order`. */
  lemma {:induction false} OrderMembers(slugs: seq<string>, base: set<string>, events: seq<Event>)
    requires Distinct(slugs) && (forall x :: x in slugs <==> x in base)
    requires Coherent(base, events)
    ensures Distinct(Order(slugs, events))
    ensures forall x :: x in Order(slugs, events) <==> x in base + InsertedSlugs(events)
  {
    if events != [] {
      var before, e := events[..|events| - 1], events[|events| - 1];
      OrderMembers(slugs, base, before);
      if e.ATInserted? {
        var r := Order(slugs, before);
        DistinctInsert(r, Clamp(e.at.position, |r|), e.at.slug);
        InsertMembers(r, Clamp(e.at.position, |r|), e.at.slug);
      }
    }
  }

  lemma {:induction false} SeedMembers(seeds: seq<ATRecord>)
    ensures forall x :: x in Slugs(seeds) <==> x in SlugSet(seeds)
  {
    forall x | x in SlugSet(seeds) ensures x in Slugs(seeds) {
      var r :| r in seeds && r.slug == x;
      var i :| 0 <= i < |seeds| && seeds[i] == r;
      assert Slugs(seeds)[i] == x;
    }
    forall x | x in Slugs(seeds) ensures x in SlugSet(seeds) {
      var i :| 0 <= i < |seeds| && Slugs(seeds)[i] == x;
      assert seeds[i] in seeds;
    }
  }

  lemma {:induction false} SlugsInsert(ats: seq<ATRecord>, i: nat, at: ATRecord)
    requires i <= |ats|
    ensures Slugs(Renumber(InsertAt(ats, i, at))) == InsertAt(Slugs(ats), i, at.slug)
  {}

  lemma {:induction false} FoldSlugs(s: RunState, events: seq<Event>)
    requires Coherent(SlugSet(s.ats), events)
    ensures Slugs(FoldFrom(s, events).ats) == Order(Slugs(s.ats), events)
  {
    if events != [] {
      var before, e := events[..|events| - 1], events[|events| - 1];
      FoldSlugs(s, before);
      var f := FoldFrom(s, before);
      if e.ATStatusChanged? {
        var i := FindAT(f.ats, e.at.slug);
        if i < |f.ats| { assert Slugs(f.ats[i := e.at]) == Slugs(f.ats); }
      } else if e.ATInserted? {
        SlugsInsert(f.ats, Clamp(e.at.position, |f.ats|), e.at);
      }
    }
  }

  predicate SameButPosition(a: ATRecord, b: ATRecord) {
    a.slug == b.slug && a == b.(position := a.position)
  }

  /** A record of `FoldStep(f, e)` is the one `e` carries or comes from `f`. */
  predicate Origin(f: RunState, e: Event, r: ATRecord) {
    if IsRecord(e) && e.at.slug == r.slug then SameButPosition(r, e.at)
    else exists j :: 0 <= j < |f.ats| && SameButPosition(r, f.ats[j])
  }

  lemma {:induction false} StatusOrigin(f: RunState, at: ATRecord, k: nat)
    requires Distinct(Slugs(f.ats)) && k < |f.ats|
    ensures Origin(f, ATStatusChanged(at), FoldStep(f, ATStatusChanged(at)).ats[k])
  {
    assert SameButPosition(f.ats[k], f.ats[k]);
    if f.ats[k].slug == at.slug { FindATUnique(f.ats, k); }
  }

  lemma {:induction false} InsertOrigin(f: RunState, at: ATRecord, k: nat)
    requires at.slug !in Slugs(f.ats) && k <= |f.ats|
    ensures Origin(f, ATInserted(at), FoldStep(f, ATInserted(at)).ats[k])
  {
    var p := Clamp(at.position, |f.ats|);
    var r := Renumber(InsertAt(f.ats, p, at))[k];
    if k != p {
      var j := if k < p then k else k - 1;
      assert Slugs(f.ats)[j] != at.slug;
      assert r == f.ats[j].(position := k);
      assert SameButPosition(r, f.ats[j]);
    }
  }

  lemma {:induction false} SlugsKnown(s: RunState, events: seq<Event>)
    requires Distinct(Slugs(s.ats)) && Coherent(SlugSet(s.ats), events)
    ensures Distinct(Slugs(FoldFrom(s, events).ats))
    ensures forall x :: x in Slugs(FoldFrom(s, events).ats) <==>
                        x in SlugSet(s.ats) + InsertedSlugs(events)
  {
    SeedMembers(s.ats);
    OrderMembers(Slugs(s.ats), SlugSet(s.ats), events);
    FoldSlugs(s, events);
  }

  /** Each slug keeps the last record recorded for it. */
  lemma {:induction false} FoldLast(s: RunState, events: seq<Event>, r: ATRecord)
    requires Distinct(Slugs(s.ats)) && Coherent(SlugSet(s.ats), events)
    requires r in FoldFrom(s, events).ats
    ensures var last := LastRecord(s.ats, events, r.slug);
      last.Some? && SameButPosition(r, last.value)
  {
    var k :| 0 <= k < |FoldFrom(s, events).ats| && FoldFrom(s, events).ats[k] == r;
    if events == [] {
      FindATUnique(s.ats, k);
    } else {
      var before, e := events[..|events| - 1], events[|events| - 1];
      var f := FoldFrom(s, before);
      SlugsKnown(s, before);
      match e {
        case ATStatusChanged(at) => StatusOrigin(f, at, k);
        case ATInserted(at) => InsertOrigin(f, at, k);
        case ChainStatusChanged(_, _, _) => assert SameButPosition(f.ats[k], f.ats[k]);
      }
      assert Origin(f, e, r);
      if !(IsRecord(e) && e.at.slug == r.slug) {
        var j :| 0 <= j < |f.ats| && SameButPosition(r, f.ats[j]);
        FoldLast(s, before, f.ats[j]);
        assert LastRecord(s.ats, events, r.slug) == LastRecord(s.ats, before, f.ats[j].slug);
      }
    }
  }

  /** Correctly positioned events keep `Position` equal to the index. */
  lemma {:induction false} FoldNumbered(s: RunState, events: seq<Event>)
    requires Numbered(s.ats)
    requires Coherent(SlugSet(s.ats), events) && Positioned(Slugs(s.ats), events)
    ensures Numbered(FoldFrom(s, events).ats)
  {
    if events != [] {
      FoldNumbered(s, events[..|events| - 1]);
      FoldSlugs(s, events[..|events| - 1]);
    }
  }

  lemma {:induction false} FoldChainFields(s: RunState, events: seq<Event>)
    requires Coherent(SlugSet(s.ats), events)
    ensures var f := FoldFrom(s, events);
      f == FoldFrom(s, Optional(LastChain(events))).(ats := f.ats)
  {
    if events == [] {
      assert FoldFrom(s, Optional(LastChain(events))) == s;
    } else {
      var before, e := events[..|events| - 1], events[|events| - 1];
      FoldChainFields(s, before);
      FoldOptional(s, LastChain(events));
      FoldOptional(s, LastChain(before));
      LastChainKind(before);
    }
  }

  lemma {:induction false} LastChainKind(events: seq<Event>)
    ensures LastChain(events).Some? ==> LastChain(events).value.ChainStatusChanged?
  {
    if events != [] { LastChainKind(events[..|events| - 1]); }
  }

  lemma {:induction false} FoldOptional(s: RunState, o: Option<Event>)
    ensures FoldFrom(s, Optional(o)) == if o.Some? then FoldStep(s, o.value) else s
  {
    if o.Some? { assert Optional(o)[..0] == []; }
  }

  // -------------------------------------------------- arranging insertions

  /** The list obtained by performing the insertions one after the other. */
  function Arrange(slugs: seq<string>, ins: seq<Insertion>): (r: seq<string>)
    ensures |r| == |slugs| + |ins|
  {
    if ins == [] then slugs
    else
      var r := Arrange(slugs, ins[..|ins| - 1]);
      InsertAt(r, Clamp(ins[|ins| - 1].position, |r|), ins[|ins| - 1].slug)
  }

  lemma {:induction false} OrderIsArrange(slugs: seq<string>, events: seq<Event>)
    ensures Order(slugs, events) == Arrange(slugs, Inserts(events))
  {
    if events != [] {
      var before := events[..|events| - 1];
      OrderIsArrange(slugs, before);
      var ins := Inserts(events);
      if events[|events| - 1].ATInserted? {
        assert ins[..|ins| - 1] == Inserts(before);
      } else {
        assert ins == Inserts(before);
      }
    }
  }

  predicate Fresh(slugs: seq<string>, ins: seq<Insertion>) {
    ins != [] ==>
      && Fresh(slugs, ins[..|ins| - 1])
      && ins[|ins| - 1].slug !in Arrange(slugs, ins[..|ins| - 1])
  }

  predicate SameSlugs(a: seq<Insertion>, b: seq<Insertion>) {
    |a| == |b| && forall i :: 0 <= i < |a| ==> a[i].slug == b[i].slug
  }

  predicate SameLanding(n: nat, a: seq<Insertion>, b: seq<Insertion>)
    requires |a| == |b|
  {
    forall i :: 0 <= i < |a| ==> Clamp(a[i].position, n + i) == Clamp(b[i].position, n + i)
  }

  lemma {:induction false} InsertExact<T>(r: seq<T>, i: nat, q: seq<T>, j: nat, x: T)
    requires |r| == |q| && i <= |r| && j <= |q| && x !in r && x !in q
    ensures InsertAt(r, i, x) == InsertAt(q, j, x) <==> r == q && i == j
  {
    var m := InsertAt(r, i, x);
    if m == InsertAt(q, j, x) {
      assert m[i] == x && m[j] == x;
      assert forall k :: 0 <= k < |r| ==> r[k] != x && q[k] != x;
      forall k | 0 <= k < |r| ensures r[k] == q[k] {
        assert m[if k < i then k else k + 1] == r[k];
      }
    }
  }

  /** Two insertion lists over the same fresh slugs give the same arrangement
      exactly when each insertion lands on the same index. */
  lemma {:induction false} ArrangeExact(slugs: seq<string>, a: seq<Insertion>, b: seq<Insertion>)
    requires SameSlugs(a, b) && Fresh(slugs, a) && Fresh(slugs, b)
    ensures Arrange(slugs, a) == Arrange(slugs, b) <==> SameLanding(|slugs|, a, b)
  {
    if a != [] {
      var n := |a| - 1;
      ArrangeExact(slugs, a[..n], b[..n]);
      LandingLast(|slugs|, a, b);
      InsertExact(Arrange(slugs, a[..n]), Clamp(a[n].position, |slugs| + n),
                  Arrange(slugs, b[..n]), Clamp(b[n].position, |slugs| + n), a[n].slug);
    }
  }

  lemma {:induction false} LandingLast(n: nat, a: seq<Insertion>, b: seq<Insertion>)
    requires |a| == |b| > 0
    ensures var k := |a| - 1;
      SameLanding(n, a, b) <==>
      (SameLanding(n, a[..k], b[..k]) &&
       Clamp(a[k].position, n + k) == Clamp(b[k].position, n + k))
  {
    var k := |a| - 1;
    if SameLanding(n, a[..k], b[..k]) && Clamp(a[k].position, n + k) == Clamp(b[k].position, n + k) {
      forall i | 0 <= i < |a| ensures Clamp(a[i].position, n + i) == Clamp(b[i].position, n + i) {
        if i < k { assert a[..k][i] == a[i] && b[..k][i] == b[i]; }
      }
    }
  }

  /** Coherent events insert only fresh slugs. */
  lemma {:induction false} InsertsFresh(slugs: seq<string>, base: set<string>, events: seq<Event>)
    requires Distinct(slugs) && (forall x :: x in slugs <==> x in base)
    requires Coherent(base, events)
    ensures Fresh(slugs, Inserts(events))
  {
    if events != [] {
      var before, ins := events[..|events| - 1], Inserts(events);
      InsertsFresh(slugs, base, before);
      OrderIsArrange(slugs, before);
      OrderMembers(slugs, base, before);
      if events[|events| - 1].ATInserted? {
        assert ins[..|ins| - 1] == Inserts(before);
      } else {
        assert ins == Inserts(before);
      }
    }
  }

  // ----------------------------------------------- the slots `Compact` keeps

  /** Distinct slugs, and a slot is an insert exactly when its slug is not a seed. */
  predicate Slots(base: set<string>, out: seq<Event>) {
    && (forall i :: 0 <= i < |out| ==> IsRecord(out[i]))
    && (forall i, j :: 0 <= i < j < |out| ==> out[i].at.slug != out[j].at.slug)
    && (forall i :: 0 <= i < |out| ==> (out[i].ATInserted? <==> out[i].at.slug !in base))
  }

  lemma {:induction false} InsertedAreSlots(out: seq<Event>, x: string)
    requires x in InsertedSlugs(out)
    ensures exists i :: 0 <= i < |out| && out[i].ATInserted? && out[i].at.slug == x
  {
    var n := |out| - 1;
    if x in InsertedSlugs(out[..n]) {
      InsertedAreSlots(out[..n], x);
      var i :| 0 <= i < n && out[..n][i].ATInserted? && out[..n][i].at.slug == x;
      assert out[i].at.slug == x;
    } else {
      assert out[n].at.slug == x;
    }
  }

  lemma {:induction false} SlotsCoherent(base: set<string>, out: seq<Event>)
    requires Slots(base, out)
    ensures Coherent(base, out)
  {
    if out != [] {
      var before, e := out[..|out| - 1], out[|out| - 1];
      SlotsCoherent(base, before);
      if e.ATInserted? && e.at.slug in InsertedSlugs(before) {
        InsertedAreSlots(before, e.at.slug);
      }
    }
  }

  lemma {:induction false} SlotsLast(seeds: seq<ATRecord>, out: seq<Event>, i: nat)
    requires Slots(SlugSet(seeds), out) && i < |out|
    ensures LastRecord(seeds, out, out[i].at.slug) == Some(out[i].at)
  {
    var n := |out| - 1;
    if i < n { SlotsLast(seeds, out[..n], i); }
  }

  lemma {:induction false} SlotsMiss(seeds: seq<ATRecord>, out: seq<Event>, slug: string)
    requires forall i :: 0 <= i < |out| ==> IsRecord(out[i]) && out[i].at.slug != slug
    ensures LastRecord(seeds, out, slug) == Seed(seeds, slug)
  {
    if out != [] { SlotsMiss(seeds, out[..|out| - 1], slug); }
  }

  /** Overwriting a slot by an event of the same kind keeps the insertion order. */
  lemma {:induction false} OverwriteInserts(out: seq<Event>, k: nat, e: Event)
    requires k < |out| && IsRecord(out[k]) && IsRecord(e)
    requires e.at.slug == out[k].at.slug && (e.ATInserted? <==> out[k].ATInserted?)
    ensures SameSlugs(Inserts(out[k := e]), Inserts(out))
  {
    var n := |out| - 1;
    if k < n {
      OverwriteInserts(out[..n], k, e);
      assert out[k := e][..n] == out[..n][k := e];
    } else {
      assert out[k := e][..n] == out[..n];
    }
  }

  predicate NoInsertFrom(out: seq<Event>, j: int) {
    forall i :: 0 <= j <= i < |out| ==> !out[i].ATInserted?
  }

  /** Slots behind the last insert carry the index their slug has in `order`. */
  predicate TailPositioned(out: seq<Event>, order: seq<string>) {
    forall j :: 0 <= j < |out| && IsRecord(out[j]) && NoInsertFrom(out, j) ==>
      out[j].at.position == IndexOf(order, out[j].at.slug)
  }

  /** The last insert renumbers everything, and what follows it is already right. */
  lemma {:induction false} SlotsNumbered(s: RunState, out: seq<Event>)
    requires Numbered(s.ats) && Slots(SlugSet(s.ats), out)
    requires TailPositioned(out, Order(Slugs(s.ats), out))
    ensures Numbered(FoldFrom(s, out).ats)
  {
    if out != [] && out[|out| - 1].ATStatusChanged? {
      var before := out[..|out| - 1];
      SlotsCoherent(SlugSet(s.ats), before);
      forall j | 0 <= j < |before| && IsRecord(before[j]) && NoInsertFrom(before, j)
        ensures before[j].at.position == IndexOf(Order(Slugs(s.ats), before), before[j].at.slug)
      {
        NoInsertExtend(before, out[|out| - 1], j);
        assert out == before + [out[|out| - 1]];
        assert out[j] == before[j];
      }
      SlotsNumbered(s, before);
      FoldSlugs(s, before);
      assert NoInsertFrom(out, |out| - 1);
    }
  }

  lemma {:induction false} NoInsertExtend(out: seq<Event>, e: Event, j: nat)
    ensures j < |out| && !e.ATInserted? ==> (NoInsertFrom(out + [e], j) <==> NoInsertFrom(out, j))
    ensures j <= |out| && e.ATInserted? ==> !NoInsertFrom(out + [e], j)
  {
    assert (out + [e])[|out|] == e;
    if NoInsertFrom(out + [e], j) {
      forall i | j <= i < |out| ensures !out[i].ATInserted? {
        assert (out + [e])[i] == out[i];
      }
    }
  }

  // ------------------------------------------ what `Compact` tracks on a log

  function SlotRecord(c: Compaction, x: string): Option<ATRecord>
    requires c.Valid()
  {
    if x in c.lastAT then Some(c.out[c.lastAT[x]].at) else None
  }

  lemma {:induction false} StepSlot(c: Compaction, e: Event, x: string)
    requires c.Valid()
    ensures SlotRecord(CompactStep(c, e), x) ==
            if IsRecord(e) && e.at.slug == x then Some(e.at) else SlotRecord(c, x)
  {}

  /** The last slot written for a slug is the last record logged for it. */
  lemma {:induction false} CompactLast(log: seq<Event>, x: string)
    requires log != [] && log[0].ChainStarted?
    ensures var slot := SlotRecord(CompactFold(log), x);
      LastRecord(log[0].seeds, log[1..], x) == if slot.Some? then slot else Seed(log[0].seeds, x)
  {
    var n := |log| - 1;
    var c := CompactFold(log[..n]);
    StepSlot(c, log[n], x);
    assert CompactFold(log) == CompactStep(c, log[n]);
    if n == 0 {
      assert log[..0] == [];
    } else {
      CompactLast(log[..n], x);
      assert log[1..][..n - 1] == log[..n][1..];
    }
  }

  lemma {:induction false} CompactStarted(log: seq<Event>)
    requires log != [] && log[0].ChainStarted? && Coherent(SlugSet(log[0].seeds), log[1..])
    ensures CompactFold(log).started == Some(log[0])
    ensures CompactFold(log).lastChain == LastChain(log[1..])
    ensures CompactFold(log).inserted == InsertedSlugs(log[1..])
  {
    var n := |log| - 1;
    if n == 0 {
      assert log[..0] == [];
    } else {
      assert log[1..][..n - 1] == log[..n][1..];
      CompactStarted(log[..n]);
    }
  }

  /** The slots: known slugs, inserts exactly for the inserted slugs. */
  ghost predicate Kinds(base: set<string>, c: Compaction) {
    && c.Valid() && c.inserted !! base
    && c.lastAT.Keys <= base + c.inserted
    && (forall i :: 0 <= i < |c.out| ==> (c.out[i].ATInserted? <==> c.out[i].at.slug in c.inserted))
  }

  /** ... in the order in which they were first inserted. */
  ghost predicate Tracks(base: set<string>, events: seq<Event>, c: Compaction) {
    && Kinds(base, c)
    && c.inserted == InsertedSlugs(events)
    && SameSlugs(Inserts(c.out), Inserts(events))
  }

  lemma {:induction false} TracksOverwrite(base: set<string>, events: seq<Event>, c: Compaction, at: ATRecord)
    requires Tracks(base, events, c) && at.slug in c.lastAT
    ensures Tracks(base, events + [ATStatusChanged(at)], CompactStep(c, ATStatusChanged(at)))
  {
    var e := ATStatusChanged(at);
    var rec := if at.slug in c.inserted then ATInserted(at) else e;
    var k := c.lastAT[at.slug];
    assert CompactStep(c, e).out == c.out[k := rec];
    OverwriteInserts(c.out, k, rec);
    InsertsAppend(events, e);
  }

  lemma {:induction false} InsertsAppend(events: seq<Event>, e: Event)
    ensures Inserts(events + [e]) ==
            Inserts(events) + if e.ATInserted? then [Insertion(e.at.slug, e.at.position)] else []
    ensures InsertedSlugs(events + [e]) ==
            InsertedSlugs(events) + if e.ATInserted? then {e.at.slug} else {}
  {
    assert (events + [e])[..|events|] == events;
  }

  lemma {:induction false} KindsAppend(base: set<string>, c: Compaction, e: Event)
    requires Kinds(base, c) && IsRecord(e) && e.at.slug !in c.lastAT
    requires e.at.slug !in c.inserted && (e.ATInserted? <==> e.at.slug !in base)
    ensures Kinds(base, CompactStep(c, e))
  {
    var c' := CompactStep(c, e);
    assert c'.out == c.out + [e];
    forall i | 0 <= i < |c'.out|
      ensures c'.out[i].ATInserted? <==> c'.out[i].at.slug in c'.inserted
    {
      if i < |c.out| { assert c'.out[i] == c.out[i] && c.out[i].at.slug in c.lastAT; }
    }
  }

  lemma {:induction false} TracksAppend(base: set<string>, events: seq<Event>, c: Compaction, e: Event)
    requires Tracks(base, events, c) && IsRecord(e) && e.at.slug !in c.lastAT
    requires e.at.slug !in c.inserted && (e.ATInserted? <==> e.at.slug !in base)
    ensures Tracks(base, events + [e], CompactStep(c, e))
  {
    KindsAppend(base, c, e);
    InsertsAppend(events, e);
    InsertsAppend(c.out, e);
    assert CompactStep(c, e).out == c.out + [e];
    SameSlugsAppend(Inserts(c.out), Inserts(events),
      if e.ATInserted? then [Insertion(e.at.slug, e.at.position)] else []);
  }

  lemma {:induction false} SameSlugsAppend(a: seq<Insertion>, b: seq<Insertion>, c: seq<Insertion>)
    requires SameSlugs(a, b)
    ensures SameSlugs(a + c, b + c)
  {}

  lemma {:induction false} TracksPut(base: set<string>, events: seq<Event>, c: Compaction, e: Event)
    requires Tracks(base, events, c) && IsRecord(e)
    requires e.ATInserted? ==> e.at.slug !in base + c.inserted
    requires e.ATStatusChanged? ==> e.at.slug in base + c.inserted
    ensures Tracks(base, events + [e], CompactStep(c, e))
  {
    if e.at.slug in c.lastAT {
      TracksOverwrite(base, events, c, e.at);
    } else {
      if e.at.slug in c.inserted { InsertedInSlots(events, c, e.at.slug); }
      TracksAppend(base, events, c, e);
    }
  }

  lemma {:induction false} InsertOfSlug(events: seq<Event>, x: string)
    requires x in InsertedSlugs(events)
    ensures exists i :: 0 <= i < |Inserts(events)| && Inserts(events)[i].slug == x
  {
    var before := events[..|events| - 1];
    if x in InsertedSlugs(before) {
      InsertOfSlug(before, x);
      var i :| 0 <= i < |Inserts(before)| && Inserts(before)[i].slug == x;
      assert Inserts(events)[i].slug == x;
    } else {
      assert Inserts(events)[|Inserts(before)|].slug == x;
    }
  }

  lemma {:induction false} SlotOfInsert(out: seq<Event>, i: nat)
    requires i < |Inserts(out)|
    ensures exists k :: 0 <= k < |out| && out[k].ATInserted? &&
              Insertion(out[k].at.slug, out[k].at.position) == Inserts(out)[i]
  {
    var before := out[..|out| - 1];
    if i < |Inserts(before)| {
      SlotOfInsert(before, i);
      var k :| 0 <= k < |before| && before[k].ATInserted? &&
        Insertion(before[k].at.slug, before[k].at.position) == Inserts(before)[i];
      assert out[k] == before[k];
    } else {
      assert out[|out| - 1].ATInserted?;
    }
  }

  lemma {:induction false} InsertedInSlots(events: seq<Event>, c: Compaction, x: string)
    requires c.Valid() && SameSlugs(Inserts(c.out), Inserts(events))
    requires x in InsertedSlugs(events)
    ensures x in c.lastAT
  {
    InsertOfSlug(events, x);
    var i :| 0 <= i < |Inserts(events)| && Inserts(events)[i].slug == x;
    SlotOfInsert(c.out, i);
  }

  lemma {:induction false} TracksStep(base: set<string>, events: seq<Event>, c: Compaction, e: Event)
    requires Tracks(base, events, c) && Coherent(base, events + [e])
    ensures Tracks(base, events + [e], CompactStep(c, e))
  {
    assert (events + [e])[..|events|] == events;
    if IsRecord(e) {
      TracksPut(base, events, c, e);
    } else {
      InsertsAppend(events, e);
      assert Inserts(events + [e]) == Inserts(events);
    }
  }

  lemma {:induction false} CompactTracks(log: seq<Event>)
    requires log != [] && log[0].ChainStarted? && Coherent(SlugSet(log[0].seeds), log[1..])
    ensures Tracks(SlugSet(log[0].seeds), log[1..], CompactFold(log))
  {
    var n := |log| - 1;
    if n == 0 {
      assert log[..0] == [];
    } else {
      var before := log[..n];
      assert log[1..][..n - 1] == before[1..] && before[1..] + [log[n]] == log[1..];
      CompactTracks(before);
      TracksStep(SlugSet(log[0].seeds), before[1..], CompactFold(before), log[n]);
    }
  }

  lemma {:induction false} TailPut(slugs: seq<string>, events: seq<Event>, c: Compaction, at: ATRecord)
    requires c.Valid() && TailPositioned(c.out, Order(slugs, events))
    requires forall i :: 0 <= i < |c.out| ==> (c.out[i].ATInserted? <==> c.out[i].at.slug in c.inserted)
    requires at.slug in c.inserted ==> at.slug in c.lastAT
    requires at.position == IndexOf(Order(slugs, events), at.slug)
    ensures TailPositioned(CompactStep(c, ATStatusChanged(at)).out, Order(slugs, events))
  {
    var rec := if at.slug in c.inserted then ATInserted(at) else ATStatusChanged(at);
    var out' := CompactStep(c, ATStatusChanged(at)).out;
    forall j | 0 <= j < |out'| && IsRecord(out'[j]) && NoInsertFrom(out', j)
      ensures out'[j].at.position == IndexOf(Order(slugs, events), out'[j].at.slug)
    {
      if at.slug in c.lastAT {
        forall i | j <= i < |c.out| ensures !c.out[i].ATInserted? {
          assert !out'[i].ATInserted?;
        }
        assert NoInsertFrom(c.out, j);
      } else {
        NoInsertExtend(c.out, rec, j);
      }
    }
  }

  lemma {:induction false} CompactTail(log: seq<Event>)
    requires WellFormed(log)
    ensures TailPositioned(CompactFold(log).out, Order(Slugs(log[0].seeds), log[1..]))
  {
    var n := |log| - 1;
    if n == 0 {
      assert log[..0] == [];
    } else {
      var before, e := log[..n], log[n];
      var slugs, c := Slugs(log[0].seeds), CompactFold(log[..n]);
      assert log[1..][..n - 1] == before[1..];
      CompactTail(before);
      CompactTracks(before);
      if e.ATStatusChanged? {
        if e.at.slug in c.inserted { InsertedInSlots(before[1..], c, e.at.slug); }
        TailPut(slugs, before[1..], c, e.at);
      } else if e.ATInserted? {
        assert CompactFold(log).out == c.out + [e];
        forall j | 0 <= j < |c.out| + 1 ensures !NoInsertFrom(c.out + [e], j) {
          NoInsertExtend(c.out, e, j);
        }
      }
    }
  }

  // ------------------------------------------------------------- the theorem

  /** Replaying the start event and then the rest. */
  lemma {:induction false} FoldStart(start: Event, events: seq<Event>)
    ensures FoldLog([start] + events) == FoldFrom(FoldStep(EMPTY_RUN, start), events)
  {
    FoldConcat(EMPTY_RUN, [start], events);
    assert [start][..0] == [];
  }

  /** Replaying the slots and the last chain event gives the projection, up to the
      records. */
  lemma {:induction false} FoldReplay(s: RunState, out: seq<Event>, events: seq<Event>)
    requires Slots(SlugSet(s.ats), out) && Coherent(SlugSet(s.ats), events)
    ensures FoldFrom(s, out + Optional(LastChain(events))) ==
            FoldFrom(s, events).(ats := FoldFrom(s, out).ats)
  {
    FoldConcat(s, out, Optional(LastChain(events)));
    FoldSlots(s, out);
    ChainOver(s, FoldFrom(s, out).ats, events);
    FoldChainFields(s, events);
  }

  lemma {:induction false} FoldCompacted(log: seq<Event>)
    requires WellFormed(log)
    ensures FoldLog(CompactLog(log)) ==
      FoldLog(log).(ats := FoldFrom(FoldStep(EMPTY_RUN, log[0]), CompactFold(log).out).ats)
  {
    var s, out := FoldStep(EMPTY_RUN, log[0]), CompactFold(log).out;
    var rest := out + Optional(LastChain(log[1..]));
    assert CompactLog(log) == [log[0]] + rest by { CompactStarted(log); }
    assert log == [log[0]] + log[1..];
    FoldStart(log[0], rest);
    FoldStart(log[0], log[1..]);
    CompactTracks(log);
    FoldReplay(s, out, log[1..]);
  }

  /** The last chain event sets the same fields whatever the records are. */
  lemma {:induction false} ChainOver(s: RunState, ats: seq<ATRecord>, events: seq<Event>)
    ensures FoldFrom(s.(ats := ats), Optional(LastChain(events))) ==
            FoldFrom(s, Optional(LastChain(events))).(ats := ats)
  {
    LastChainKind(events);
    FoldOptional(s, LastChain(events));
    FoldOptional(s.(ats := ats), LastChain(events));
  }

  /** Replaying slots changes nothing but the records. */
  lemma {:induction false} FoldSlots(s: RunState, out: seq<Event>)
    requires Slots(SlugSet(s.ats), out)
    ensures FoldFrom(s, out) == s.(ats := FoldFrom(s, out).ats)
  {
    SlotsCoherent(SlugSet(s.ats), out);
    FoldChainFields(s, out);
    NoChainInSlots(out);
    FoldOptional(s, None);
  }

  lemma {:induction false} NoChainInSlots(out: seq<Event>)
    requires forall i :: 0 <= i < |out| ==> IsRecord(out[i])
    ensures LastChain(out) == None
  {
    if out != [] { NoChainInSlots(out[..|out| - 1]); }
  }

  lemma {:induction false} SameLast(log: seq<Event>, x: string)
    requires WellFormed(log)
    ensures LastRecord(log[0].seeds, CompactFold(log).out, x) == LastRecord(log[0].seeds, log[1..], x)
  {
    CompactLast(log, x);
    CompactTracks(log);
    var c := CompactFold(log);
    if x in c.lastAT {
      SlotsLast(log[0].seeds, c.out, c.lastAT[x]);
    } else {
      SlotsMiss(log[0].seeds, c.out, x);
    }
  }

  /** The position a compacted insert carries is the slug's last recorded one. */
  lemma {:induction false} LandsExact(seeds: seq<ATRecord>, out: seq<Event>, events: seq<Event>, i: nat, ins: Insertion)
    requires Slots(SlugSet(seeds), out) && i < |Inserts(out)| && Inserts(out)[i].slug == ins.slug
    requires LastRecord(seeds, out, ins.slug) == LastRecord(seeds, events, ins.slug)
    ensures Lands(seeds, events, i, ins) <==>
      Clamp(Inserts(out)[i].position, |seeds| + i) == Clamp(ins.position, |seeds| + i)
  {
    SlotOfInsert(out, i);
    var k :| 0 <= k < |out| && out[k].ATInserted? &&
      Insertion(out[k].at.slug, out[k].at.position) == Inserts(out)[i];
    SlotsLast(seeds, out, k);
  }

  lemma {:induction false} OrderLanding(log: seq<Event>)
    requires WellFormed(log)
    requires SameSlugs(Inserts(CompactFold(log).out), Inserts(log[1..]))
    ensures var slugs, out := Slugs(log[0].seeds), CompactFold(log).out;
      Order(slugs, out) == Order(slugs, log[1..]) <==>
      SameLanding(|slugs|, Inserts(out), Inserts(log[1..]))
  {
    var seeds := log[0].seeds;
    var slugs, base := Slugs(seeds), SlugSet(seeds);
    var out, events := CompactFold(log).out, log[1..];
    assert Coherent(base, out) by { CompactTracks(log); SlotsCoherent(base, out); }
    SeedMembers(seeds);
    OrderIsArrange(slugs, events);
    OrderIsArrange(slugs, out);
    InsertsFresh(slugs, base, events);
    InsertsFresh(slugs, base, out);
    ArrangeExact(slugs, Inserts(out), Inserts(events));
  }

  /** The slots arrange the slugs as the log does exactly when the inserts are stable. */
  lemma {:induction false} OrderExact(log: seq<Event>)
    requires WellFormed(log)
    ensures (Order(Slugs(log[0].seeds), CompactFold(log).out) == Order(Slugs(log[0].seeds), log[1..]))
       <==> StableInserts(log)
  {
    CompactTracks(log);
    OrderLanding(log);
    forall i | 0 <= i < |Inserts(log[1..])|
      ensures Lands(log[0].seeds, log[1..], i, Inserts(log[1..])[i]) <==>
              Clamp(Inserts(CompactFold(log).out)[i].position, |log[0].seeds| + i) ==
              Clamp(Inserts(log[1..])[i].position, |log[0].seeds| + i)
    {
      SameLast(log, Inserts(log[1..])[i].slug);
      LandsExact(log[0].seeds, CompactFold(log).out, log[1..], i, Inserts(log[1..])[i]);
    }
  }

  /** On a stable log the slots rebuild the records themselves. */
  lemma {:induction false} StableRecords(log: seq<Event>)
    requires WellFormed(log) && StableInserts(log)
    ensures var s := FoldStep(EMPTY_RUN, log[0]);
      FoldFrom(s, CompactFold(log).out).ats == FoldFrom(s, log[1..]).ats
  {
    var s, events, out := FoldStep(EMPTY_RUN, log[0]), log[1..], CompactFold(log).out;
    var f, g := FoldFrom(s, events), FoldFrom(s, out);
    CompactTracks(log);
    SlotsCoherent(SlugSet(s.ats), out);
    OrderExact(log);
    FoldSlugs(s, events);
    FoldSlugs(s, out);
    assert Numbered(f.ats) by { FoldNumbered(s, events); }
    assert Numbered(g.ats) by { CompactTail(log); SlotsNumbered(s, out); }
    forall i | 0 <= i < |f.ats| ensures f.ats[i] == g.ats[i] {
      assert Slugs(f.ats)[i] == Slugs(g.ats)[i];
      FoldLast(s, events, f.ats[i]);
      FoldLast(s, out, g.ats[i]);
      SameLast(log, f.ats[i].slug);
    }
  }

  /** Without stable inserts even the order differs. */
  lemma {:induction false} UnstableOrder(log: seq<Event>, s: RunState)
    requires WellFormed(log) && !StableInserts(log) && s == FoldStep(EMPTY_RUN, log[0])
    ensures Slugs(FoldFrom(s, CompactFold(log).out).ats) != Slugs(FoldFrom(s, log[1..]).ats)
  {
    CompactTracks(log);
    SlotsCoherent(SlugSet(s.ats), CompactFold(log).out);
    FoldSlugs(s, log[1..]);
    FoldSlugs(s, CompactFold(log).out);
    OrderExact(log);
  }

  /** Compaction preserves the projection exactly on the logs whose inserted records
      were last recorded at the index they were inserted at. */
  lemma {:induction false} CompactionExact(log: seq<Event>)
    requires WellFormed(log)
    ensures FoldLog(CompactLog(log)) == FoldLog(log) <==> StableInserts(log)
  {
    var s, events := FoldStep(EMPTY_RUN, log[0]), log[1..];
    FoldCompacted(log);
    assert log == [log[0]] + events;
    FoldStart(log[0], events);
    if StableInserts(log) { StableRecords(log); } else { UnstableOrder(log, s); }
  }

  lemma {:induction false} CompactSize(log: seq<Event>)
    ensures var c := CompactFold(log);
      |c.out| + |Optional(c.started)| + |Optional(c.lastChain)| <= |log|
  {
    if log != [] { CompactSize(log[..|log| - 1]); }
  }

  /** Compaction never lengthens a log. */
  lemma {:induction false} CompactShrinks(log: seq<Event>)
    ensures |CompactLog(log)| <= |log|
  {
    CompactSize(log);
  }

  // ---------------------------------------- inserts moving strictly rightward

  /** Every insert lands strictly to the right of all earlier inserted records. */
  predicate RightwardInserts(slugs: seq<string>, events: seq<Event>) {
    events != [] ==>
      var before, e := events[..|events| - 1], events[|events| - 1];
      && RightwardInserts(slugs, before)
      && (e.ATInserted? ==>
            forall x :: x in InsertedSlugs(before) ==>
              IndexOf(Order(slugs, before), x) < e.at.position)
  }

  lemma {:induction false} IndexAfterInsert(s: seq<string>, i: nat, x: string, y: string)
    requires i <= |s| && x != y && y in s
    ensures IndexOf(InsertAt(s, i, x), y) ==
            if IndexOf(s, y) < i then IndexOf(s, y) else IndexOf(s, y) + 1
  {
    var r, k := InsertAt(s, i, x), IndexOf(s, y);
    var k' := if k < i then k else k + 1;
    assert r[k'] == y;
    forall j | 0 <= j < k' ensures r[j] != y {
      if j > i { assert r[j] == s[j - 1]; }
    }
  }

  /** Then nothing inserted ever moves, so every record of it carries the index it
      was inserted at. */
  lemma {:induction false} RightwardStays(seeds: seq<ATRecord>, events: seq<Event>, i: nat)
    requires Distinct(Slugs(seeds)) && Coherent(SlugSet(seeds), events)
    requires Positioned(Slugs(seeds), events) && RightwardInserts(Slugs(seeds), events)
    requires i < |Inserts(events)|
    ensures var slugs, ins := Slugs(seeds), Inserts(events)[i];
      && ins.slug in InsertedSlugs(events)
      && IndexOf(Order(slugs, events), ins.slug) == ins.position
      && LastRecord(seeds, events, ins.slug).Some?
      && LastRecord(seeds, events, ins.slug).value.position == ins.position
  {
    var slugs, before, e := Slugs(seeds), events[..|events| - 1], events[|events| - 1];
    var r, was := Order(slugs, before), Inserts(before);
    SeedMembers(seeds);
    OrderMembers(slugs, SlugSet(seeds), before);
    if i < |was| {
      RightwardStays(seeds, before, i);
      assert Inserts(events)[i] == was[i];
      if e.ATInserted? { IndexAfterInsert(r, e.at.position, e.at.slug, was[i].slug); }
    } else {
      assert Inserts(events)[i] == Insertion(e.at.slug, e.at.position);
      assert InsertAt(r, e.at.position, e.at.slug)[e.at.position] == e.at.slug;
    }
  }

  /** The sufficient condition the design relies on. */
  lemma {:induction false} RightwardCompaction(log: seq<Event>)
    requires WellFormed(log) && RightwardInserts(Slugs(log[0].seeds), log[1..])
    ensures FoldLog(CompactLog(log)) == FoldLog(log)
  {
    forall i | 0 <= i < |Inserts(log[1..])|
      ensures Lands(log[0].seeds, log[1..], i, Inserts(log[1..])[i])
    {
      RightwardStays(log[0].seeds, log[1..], i);
    }
    CompactionExact(log);
  }
}
