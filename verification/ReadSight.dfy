/** What a whole read tells, and what the read-before-write registry lets through
    (internal/fsorgan/read.go, readstate.go). */
module ReadSight {
  import opened Text
  import opened NumberedRead
  import opened ReadRegistry

  // ------------------------------------------------------ what a listing tells

  /** A line without its final carriage return. */
  function Bare(line: string): string {
    if line != [] && line[|line| - 1] == '\r' then line[..|line| - 1] else line
  }

  /** The lines of a file, without byte-order mark and final carriage returns. */
  function BareLines(content: string): (bare: seq<string>)
    ensures |bare| == |Split(WithoutBom(content))|
    ensures forall i :: 0 <= i < |bare| ==> bare[i] == Bare(Split(WithoutBom(content))[i])
  {
    var lines := Split(WithoutBom(content));
    seq(|lines|, i requires 0 <= i < |lines| => Bare(lines[i]))
  }

  /** What a read shows of a line. */
  function Cut(line: string): string { if |line| > MAX_LINE then line[..MAX_LINE] + TRUNCATED else line }

  function CutAll(lines: seq<string>): (cut: seq<string>)
    ensures |cut| == |lines| && forall i :: 0 <= i < |cut| ==> cut[i] == Cut(lines[i])
  {
    seq(|lines|, i requires 0 <= i < |lines| => Cut(lines[i]))
  }

  lemma {:induction false} WholeLinesAre(content: string)
    ensures WholeLines(content) == CutAll(BareLines(content))
    ensures forall i :: 0 <= i < |WholeLines(content)| ==> OneLine(WholeLines(content)[i])
  {
    var lines := Split(WithoutBom(content));
    SelectedRun(lines, 0, -1);
    SelectedOneLine(lines, 0, -1);
    assert Slice(lines, 0, |lines|) == lines;
    assert forall i :: 0 <= i < |lines| ==> CapLine(lines[i]) == Cut(Bare(lines[i]));
  }

  /** A whole read shows the lines as they are exactly when each is short, or reads as if
      it had been cut. */
  lemma {:induction false} ShownWhole(content: string)
    ensures WholeLines(content) == BareLines(content) <==>
      forall i :: 0 <= i < |BareLines(content)| ==>
        var l := BareLines(content)[i]; |l| <= MAX_LINE || l == l[..MAX_LINE] + TRUNCATED
  {
    WholeLinesAre(content);
    var shown, bare := WholeLines(content), BareLines(content);
    if shown == bare {
      forall i | 0 <= i < |bare| ensures |bare[i]| <= MAX_LINE || bare[i] == bare[i][..MAX_LINE] + TRUNCATED {
        assert shown[i] == Cut(bare[i]);
      }
    }
  }

  lemma {:induction false} JoinEmpty(lines: seq<string>)
    requires lines != []
    ensures Join(lines) == "" <==> lines == [""]
  {}

  lemma {:induction false} NumberedTells(a: seq<string>, b: seq<string>)
    requires a != [] && b != []
    requires (forall i :: 0 <= i < |a| ==> OneLine(a[i])) && (forall i :: 0 <= i < |b| ==> OneLine(b[i]))
    requires Join(Numbered(a, 1)) == Join(Numbered(b, 1))
    ensures a == b
  {
    NumberedBlock(a, 1);
    NumberedBlock(b, 1);
    assert Numbered(a, 1) == Numbered(b, 1);
    forall i | 0 <= i < |a| ensures a[i] == b[i] {
      StripNumbered(1 + i, a[i]);
      StripNumbered(1 + i, b[i]);
      assert Numbered(a, 1)[i] == Numbered(b, 1)[i];
    }
  }

  /** Two files read alike exactly when the lines shown are the same. */
  lemma {:induction false} ListingTells(a: string, b: string)
    ensures ListingOf(a, 1, 0) == ListingOf(b, 1, 0) <==> WholeLines(a) == WholeLines(b)
  {
    WholeLinesAre(a);
    WholeLinesAre(b);
    JoinEmpty(WholeLines(a));
    JoinEmpty(WholeLines(b));
    if ListingOf(a, 1, 0) == ListingOf(b, 1, 0) && Join(WholeLines(a)) != "" {
      NumberedTells(WholeLines(a), WholeLines(b));
    }
  }

  /** How many lines a read of `limit` lines from line `start` on has to show. */
  function ShownCount(total: nat, start: nat, limit: int): nat
    requires start >= 1
  {
    if start > total then 0 else if 0 < limit <= total - start then limit else total - start + 1
  }

  /** Line `k` of a listing bears the number of a line of the file, and what the cap leaves
      of that line. */
  ghost predicate Bears(shown: string, n: nat, line: string) {
    HasNumber(shown) && Denotes(shown[..Digits(shown)], n) && StripLine(shown) == CapLine(line)
  }

  predicate Denotes(digits: string, n: nat) {
    (forall i :: 0 <= i < |digits| ==> IsDigit(digits[i])) && DecimalValue(digits) == n
  }

  lemma {:induction false} NumberShown(n: nat, line: string)
    ensures Bears(NumberedLine(n, CapLine(line)), n, line)
  {
    var d, l := Decimal(n), NumberedLine(n, CapLine(line));
    StripNumbered(n, CapLine(line));
    assert l == d + ("\t" + CapLine(line));
    DigitsOf(d, "\t" + CapLine(line));
    DecimalRoundTrip(n);
    assert l[..|d|] == d;
  }

  lemma {:induction false} SelectedCount(lines: seq<string>, start: nat, limit: int, last: int)
    requires start >= 1 && last == if limit <= 0 then -1 else start - 1 + limit
    ensures var shown := Selected(lines, start - 1, last);
      && |shown| == ShownCount(|lines|, start, limit)
      && forall k :: 0 <= k < |shown| ==> shown[k] == CapLine(lines[start - 1 + k])
  {
    var first, end := start - 1, Until(|lines|, last);
    SelectedRun(lines, first, last);
    CappedRun(lines, first, end);
    RunCount(|lines|, start, limit, last);
  }

  lemma {:induction false} RunCount(total: nat, start: nat, limit: int, last: int)
    requires start >= 1 && last == if limit <= 0 then -1 else start - 1 + limit
    ensures var end := Until(total, last);
      ShownCount(total, start, limit) == if start - 1 < end then end - start + 1 else 0
  {}

  lemma {:induction false} CappedRun(lines: seq<string>, i: nat, j: nat)
    requires j <= |lines|
    ensures var shown := Capped(Slice(lines, i, j));
      && |shown| == (if i < j then j - i else 0)
      && forall k :: 0 <= k < |shown| ==> shown[k] == CapLine(lines[i + k])
  {}

  /** `n` lines of the file, the first of them line `start`; nothing but a warning when
      there is none, or one that shows as empty. */
  ghost predicate Lists(r: Listing, lines: seq<string>, start: nat, n: nat)
    requires start >= 1 && (n > 0 ==> start - 1 + n <= |lines|)
  {
    && r.startLine == start && r.totalLines == |lines|
    && (r.warning <==> n == 0 || (n == 1 && CapLine(lines[start - 1]) == ""))
    && r.lineCount == (if r.warning then 0 else n)
    && (r.warning ==> r.content == "")
    && (!r.warning ==>
          && |Split(r.content)| == n
          && forall k :: 0 <= k < n ==> Bears(Split(r.content)[k], start + k, lines[start - 1 + k]))
  }

  lemma {:induction false} ShownLists(lines: seq<string>, shown: seq<string>, start: nat, n: nat, r: Listing)
    requires n == |shown| && start >= 1 && (n > 0 ==> start - 1 + n <= |lines|)
    requires forall k :: 0 <= k < |shown| ==> shown[k] == CapLine(lines[start - 1 + k]) && OneLine(shown[k])
    requires r == if Join(shown) == "" then Listing("", true, start, 0, |lines|)
                  else Listing(Join(Numbered(shown, start)), false, start, |shown|, |lines|)
    ensures Lists(r, lines, start, n)
  {
    if shown != [] {
      JoinEmpty(shown);
      NumberedSplit(shown, start);
      forall k | 0 <= k < |shown| ensures Bears(Numbered(shown, start)[k], start + k, lines[start - 1 + k]) {
        NumberShown(start + k, lines[start - 1 + k]);
      }
    }
  }

  /** What a read lists: from the offset on as many lines as there are, and no more than
      `limit`; line `k` bears the number offset + k and shows that line of the file. */
  lemma {:induction false} ListingShows(content: string, offset: int, limit: int)
    ensures var lines := Split(WithoutBom(content));
      var start: nat := if offset < 1 then 1 else offset;
      var n := ShownCount(|lines|, start, limit);
      Lists(ListingOf(content, offset, limit), lines, start, n) && (limit > 0 ==> n <= limit)
  {
    var lines := Split(WithoutBom(content));
    var start: nat := if offset < 1 then 1 else offset;
    var last := if limit <= 0 then -1 else start - 1 + limit;
    var shown, n := Selected(lines, start - 1, last), ShownCount(|lines|, start, limit);
    SelectedCount(lines, start, limit, last);
    SelectedOneLine(lines, start - 1, last);
    ListingIs(content, offset, limit, lines, start, last);
    ShownLists(lines, shown, start, n, ListingOf(content, offset, limit));
  }

  lemma {:induction false} ListingIs(content: string, offset: int, limit: int, lines: seq<string>, start: nat,
                                     last: int)
    requires lines == Split(WithoutBom(content)) && start == if offset < 1 then 1 else offset
    requires last == if limit <= 0 then -1 else start - 1 + limit
    ensures var shown := Selected(lines, start - 1, last);
      ListingOf(content, offset, limit) ==
        if Join(shown) == "" then Listing("", true, start, 0, |lines|)
        else Listing(Join(Numbered(shown, start)), false, start, |shown|, |lines|)
  {}

  lemma {:induction false} NumberedSplit(lines: seq<string>, start: nat)
    requires lines != [] && forall i :: 0 <= i < |lines| ==> OneLine(lines[i])
    ensures Split(Join(Numbered(lines, start))) == Numbered(lines, start)
  {
    var all := Numbered(lines, start);
    forall i | 0 <= i < |all| ensures OneLine(all[i]) { DecimalOneLine(start + i); }
    SplitJoin(all);
  }

  /** The same text behind a byte-order mark, but with line `i` made longer. */
  function Lengthened(content: string, i: nat): string
    requires i < |BareLines(content)|
  {
    [0xEF as char, 0xBB as char, 0xBF as char] + Join(Split(WithoutBom(content))[i := BareLines(content)[i] + "x"])
  }

  lemma {:induction false} LengthenedLines(content: string, i: nat)
    requires i < |BareLines(content)|
    ensures BareLines(Lengthened(content, i)) == BareLines(content)[i := BareLines(content)[i] + "x"]
  {
    var lines, line := Split(WithoutBom(content)), BareLines(content)[i] + "x";
    assert OneLine(lines[i]) && OneLine(line) && Bare(line) == line;
    BehindMark(Join(lines[i := line]));
    SplitJoin(lines[i := line]);
  }

  lemma {:induction false} BehindMark(text: string)
    ensures WithoutBom([0xEF as char, 0xBB as char, 0xBF as char] + text) == text
  {}

  ghost predicate Determined(content: string) {
    forall other :: ListingOf(other, 1, 0) == ListingOf(content, 1, 0) ==> BareLines(other) == BareLines(content)
  }

  predicate NoLongLine(content: string) {
    forall i :: 0 <= i < |BareLines(content)| ==> |BareLines(content)[i]| <= MAX_LINE
  }

  lemma {:induction false} CutTells(a: seq<string>, b: seq<string>)
    requires CutAll(a) == CutAll(b) && forall i :: 0 <= i < |a| ==> |a[i]| <= MAX_LINE
    ensures a == b
  {
    forall i | 0 <= i < |a| ensures a[i] == b[i] {
      assert CutAll(a)[i] == CutAll(b)[i];
    }
  }

  lemma {:induction false} CutHides(lines: seq<string>, i: nat)
    requires i < |lines| && |lines[i]| > MAX_LINE
    ensures CutAll(lines[i := lines[i] + "x"]) == CutAll(lines) && lines[i := lines[i] + "x"] != lines
  {
    var longer := lines[i := lines[i] + "x"];
    assert longer[i][..MAX_LINE] == lines[i][..MAX_LINE];
    assert forall j :: 0 <= j < |lines| && j != i ==> longer[j] == lines[j];
    assert |longer[i]| != |lines[i]|;
  }

  lemma {:induction false} LongUndetermined(content: string, i: nat)
    requires i < |BareLines(content)| && |BareLines(content)[i]| > MAX_LINE
    ensures ListingOf(Lengthened(content, i), 1, 0) == ListingOf(content, 1, 0)
    ensures BareLines(Lengthened(content, i)) != BareLines(content)
  {
    LengthenedLines(content, i);
    CutHides(BareLines(content), i);
    WholeLinesAre(content);
    WholeLinesAre(Lengthened(content, i));
    ListingTells(Lengthened(content, i), content);
  }

  /** A whole read tells the lines of a file exactly when none is longer than the cap. */
  lemma {:induction false} ReadTellsExactly(content: string)
    ensures Determined(content) <==> NoLongLine(content)
  {
    if NoLongLine(content) {
      forall other | ListingOf(other, 1, 0) == ListingOf(content, 1, 0)
        ensures BareLines(other) == BareLines(content)
      {
        ListingTells(other, content);
        WholeLinesAre(content);
        WholeLinesAre(other);
        CutTells(BareLines(content), BareLines(other));
      }
    } else {
      var i :| 0 <= i < |BareLines(content)| && |BareLines(content)[i]| > MAX_LINE;
      LongUndetermined(content, i);
    }
  }

  // ------------------------------------------------------- what is let through

  /** The files of a run with one file and one whole read of it. */
  ghost function OneRead(path: string, content: string, time: int): World {
    RunOps(map[path := File(content, time)], [ReadFile(path, true)])
  }

  lemma {:induction false} OneReadIs(path: string, content: string, time: int)
    ensures var w := OneRead(path, content, time);
      && w.state == State(map[path := File(content, time)], map[path := ReadMark(time, true)])
      && w.history == [SawWhole(path, WholeLines(content), time)]
  {
    assert RunOps(map[path := File(content, time)], []) == World(State(map[path := File(content, time)], map[]), []);
    assert [ReadFile(path, true)][..0] == [];
  }

  /** The check passes, and nothing was missed. */
  predicate Overwrites(w: World, path: string) {
    path in w.state.files && Check(w.state, path) == None && !Missed(w.history, path)
  }

  /** A file that a whole read may take in, and another one, read alike: after the read
      nothing tells them apart, and either may be overwritten, with nothing missed. */
  lemma {:induction false} TailUnseen(path: string, time: int) returns (a: string, b: string)
    ensures a != b && |a| == |b| <= MAX_READ_SIZE && BareLines(a) != BareLines(b)
    ensures ListingOf(a, 1, 0) == ListingOf(b, 1, 0)
    ensures OneRead(path, a, time).history == OneRead(path, b, time).history
    ensures Overwrites(OneRead(path, a, time), path) && Overwrites(OneRead(path, b, time), path)
  {
    var xs := seq(MAX_LINE, _ => 'x');
    a, b := xs + "1", xs + "2";
    OneLongLine(xs, '1');
    OneLongLine(xs, '2');
    ListingTells(a, b);
    assert a[MAX_LINE] == '1' && b[MAX_LINE] == '2';
    OneReadIs(path, a, time);
    OneReadIs(path, b, time);
    Origin(OneRead(path, b, time).history, path);
  }

  lemma {:induction false} OneLongLine(xs: string, c: char)
    requires |xs| == MAX_LINE && xs[0] == 'x' && OneLine(xs) && c != '\n' && c != '\r'
    ensures BareLines(xs + [c]) == [xs + [c]] && WholeLines(xs + [c]) == [xs + TRUNCATED]
  {
    SplitOneLine(xs + [c]);
    assert WithoutBom(xs + [c]) == xs + [c];
    WholeLinesAre(xs + [c]);
    assert (xs + [c])[..MAX_LINE] == xs;
  }

  lemma {:induction false} Origin(history: seq<Event>, path: string)
    requires |history| == 1 && history[0].SawWhole? && history[0].path == path
    ensures SightOf(history, path) == Whole(history[0].time, None)
    ensures Known(history, path) == Shown(history[0].shown)
  {
    assert history[..0] == [];
  }

  /** After an outside change at a time not after the mark the check passes, and what is
      overwritten is not what the agent was shown. */
  lemma {:induction false} ChangeMissed(path: string, before: string, after: string, mark: int, time: int)
    requires time <= mark && WholeLines(before) != WholeLines(after)
    ensures var ops := [ReadFile(path, true), ChangeFile(path, after, time)];
      var w := RunOps(map[path := File(before, mark)], ops);
      && path in w.state.files && w.state.files[path].content == after
      && Check(w.state, path) == None && Missed(w.history, path)
      && !Describes(Known(w.history, path), after)
  {
    var read, change := ReadFile(path, true), ChangeFile(path, after, time);
    var v := OneRead(path, before, mark);
    OneReadIs(path, before, mark);
    Origin(v.history, path);
    assert [read, change][..1] == [read];
    HistoryAppend(v.history, Changed(path, after, time), path);
  }
}
