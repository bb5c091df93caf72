/** Reading a file as numbered lines, and taking the numbers off again
    (internal/fsorgan/read.go, edit.go). */
module NumberedRead {
  import opened Text

  const MAX_LINE := 60000
  const TRUNCATED := "... [truncated]"

  // ---------------------------------------------------------------- selecting

  /** `capLine`: no trailing carriage return, and no line without end. */
  function CapLine(line: string): (r: string)
    ensures OneLine(line) ==> OneLine(r)
    ensures |r| <= MAX_LINE + |TRUNCATED|
  {
    var l := if line != [] && line[|line| - 1] == '\r' then line[..|line| - 1] else line;
    if |l| > MAX_LINE then l[..MAX_LINE] + TRUNCATED else l
  }

  /** The text behind a leading UTF-8 byte-order mark. */
  function WithoutBom(s: string): string {
    if |s| >= 3 && s[0] == 0xEF as char && s[1] == 0xBB as char && s[2] == 0xBF as char then s[3..] else s
  }

  predicate InRange(i: nat, from: nat, end: int) { i >= from && (end < 0 || i < end) }

  /** The capped lines whose index falls in `[from, end)`; a negative end is no end. */
  function Selected(lines: seq<string>, from: nat, end: int): seq<string> {
    if lines == [] then []
    else
      var n := |lines| - 1;
      Selected(lines[..n], from, end) + if InRange(n, from, end) then [CapLine(lines[n])] else []
  }

  lemma {:induction false} SelectedOneLine(lines: seq<string>, from: nat, end: int)
    requires forall i :: 0 <= i < |lines| ==> OneLine(lines[i])
    ensures forall i :: 0 <= i < |Selected(lines, from, end)| ==> OneLine(Selected(lines, from, end)[i])
  {
    if lines != [] { SelectedOneLine(lines[..|lines| - 1], from, end); }
  }

  lemma {:induction false} SelectedAppend(lines: seq<string>, l: string, from: nat, end: int)
    ensures Selected(lines + [l], from, end) ==
            Selected(lines, from, end) + if InRange(|lines|, from, end) then [CapLine(l)] else []
  {
    assert (lines + [l])[..|lines|] == lines;
  }

  function Capped(lines: seq<string>): seq<string> {
    seq(|lines|, i requires 0 <= i < |lines| => CapLine(lines[i]))
  }

  lemma {:induction false} CappedAppend(lines: seq<string>, l: string)
    ensures Capped(lines + [l]) == Capped(lines) + [CapLine(l)]
  {}

  function Until(n: nat, end: int): nat { if 0 <= end < n then end else n }

  function Slice(lines: seq<string>, from: nat, hi: nat): seq<string>
    requires hi <= |lines|
  {
    if from < hi then lines[from..hi] else []
  }

  lemma {:induction false} SliceGrows(lines: seq<string>, from: nat, end: int)
    requires lines != []
    ensures var n := |lines| - 1;
      Slice(lines, from, Until(|lines|, end)) ==
      Slice(lines[..n], from, Until(n, end)) + if InRange(n, from, end) then [lines[n]] else []
  {}

  /** The selection is one contiguous run of lines, cut off at the end of the file. */
  lemma {:induction false} SelectedRun(lines: seq<string>, from: nat, end: int)
    ensures Selected(lines, from, end) == Capped(Slice(lines, from, Until(|lines|, end)))
  {
    if lines != [] {
      var n := |lines| - 1;
      SelectedRun(lines[..n], from, end);
      SliceGrows(lines, from, end);
      var run := Slice(lines[..n], from, Until(n, end));
      if InRange(n, from, end) { CappedAppend(run, lines[n]); } else { assert run + [] == run; }
    }
  }

  /** Up to the next newline, or the end. */
  method ScanLine(s: string, pos: nat) returns (k: nat)
    requires pos <= |s|
    ensures pos <= k <= |s| && OneLine(s[pos..k]) && (k < |s| ==> s[k] == '\n')
  {
    k := pos;
    while k < |s| && s[k] != '\n'
      invariant pos <= k <= |s| && OneLine(s[pos..k])
    {
      assert s[pos..k + 1] == s[pos..k] + [s[k]];
      k := k + 1;
    }
  }

  /** The next line of the stream; nothing is left behind the last one. */
  method NextLine(s: string, pos: nat, ghost rest: seq<string>)
    returns (line: string, pos': nat, more: bool, ghost rest': seq<string>)
    requires Remaining(s, pos, true, rest)
    ensures Remaining(s, pos', more, rest') && rest == [line] + rest' && pos <= pos' && (more ==> pos < pos')
  {
    var k := ScanLine(s, pos);
    SplitAt(s, pos, k);
    line, more := s[pos..k], k < |s|;
    pos' := if more then k + 1 else k;
    rest' := if more then Split(s[pos'..]) else [];
  }

  /** `rest` is what the stream still holds. */
  ghost predicate Remaining(s: string, pos: nat, more: bool, rest: seq<string>) {
    pos <= |s| && rest == if more then Split(s[pos..]) else []
  }

  method SelectFrom(s: string, from: nat, end: int, ghost all: seq<string>) returns (selected: seq<string>, total: nat)
    requires Remaining(s, 0, true, all)
    ensures selected == Selected(all, from, end) && total == |all|
  {
    selected, total := [], 0;
    ghost var done: seq<string>, rest := [], all;
    var pos, more := 0, true;
    while more
      invariant Remaining(s, pos, more, rest) && total == |done| && all == done + rest
      invariant selected == Selected(done, from, end)
      decreases more, |s| - pos
    {
      var line;
      line, pos, more, rest := NextLine(s, pos, rest);
      selected := KeepLine(selected, line, total, from, end, done);
      Reassociate(done, line, rest);
      total, done := total + 1, done + [line];
    }
    assert done == all;
  }

  lemma {:induction false} Reassociate(a: seq<string>, l: string, b: seq<string>)
    ensures a + ([l] + b) == (a + [l]) + b
  {}

  method KeepLine(selected: seq<string>, line: string, total: nat, from: nat, end: int, ghost done: seq<string>)
    returns (selected': seq<string>)
    requires total == |done| && selected == Selected(done, from, end)
    ensures selected' == Selected(done + [line], from, end)
  {
    SelectedAppend(done, line, from, end);
    selected' := if InRange(total, from, end) then selected + [CapLine(line)] else selected;
  }

  /** `selectLines`: stream the text line by line, keep the range, count them all. */
  method SelectLines(text: string, from: nat, end: int) returns (selected: seq<string>, total: nat)
    ensures selected == Selected(Split(WithoutBom(text)), from, end)
    ensures total == |Split(WithoutBom(text))|
  {
    var s := WithoutBom(text);
    assert s[0..] == s;
    selected, total := SelectFrom(s, from, end, Split(s));
  }

  lemma {:induction false} SplitAt(s: string, pos: nat, k: nat)
    requires pos <= k <= |s| && OneLine(s[pos..k]) && (k < |s| ==> s[k] == '\n')
    ensures Split(s[pos..]) == [s[pos..k]] + if k < |s| then Split(s[k + 1..]) else []
  {
    if k < |s| {
      assert s[pos..] == s[pos..k] + "\n" + s[k + 1..];
      SplitLine(s[pos..k], s[k + 1..]);
    } else {
      assert s[pos..] == s[pos..k];
      SplitOneLine(s[pos..k]);
    }
  }

  // ---------------------------------------------------------------- rendering

  function NumberedLine(n: nat, line: string): string { Decimal(n) + "\t" + line }

  function Numbered(lines: seq<string>, start: nat): (r: seq<string>)
    ensures |r| == |lines|
    ensures forall i :: 0 <= i < |lines| ==> r[i] == NumberedLine(start + i, lines[i])
  {
    seq(|lines|, i requires 0 <= i < |lines| => NumberedLine(start + i, lines[i]))
  }

  lemma {:induction false} JoinAppend(lines: seq<string>, l: string)
    requires lines != []
    ensures Join(lines + [l]) == Join(lines) + "\n" + l
  {
    JoinConcat(lines, [l]);
  }

  /** The numbered listing of the selected lines. */
  method Render(lines: seq<string>, start: nat) returns (out: string)
    ensures out == Join(Numbered(lines, start))
  {
    out := "";
    for i := 0 to |lines|
      invariant out == Join(Numbered(lines[..i], start))
    {
      assert Numbered(lines[..i + 1], start) == Numbered(lines[..i], start) + [NumberedLine(start + i, lines[i])];
      if i > 0 {
        JoinAppend(Numbered(lines[..i], start), NumberedLine(start + i, lines[i]));
        out := out + "\n";
      }
      out := out + NumberedLine(start + i, lines[i]);
    }
    assert lines[..|lines|] == lines;
  }

  // ---------------------------------------------------------------- stripping

  /** How many digits a line starts with. */
  function Digits(s: string): (n: nat)
    ensures n <= |s|
  {
    if s != [] && IsDigit(s[0]) then 1 + Digits(s[1..]) else 0
  }

  predicate HasNumber(line: string) {
    var j := Digits(line);
    0 < j < |line| && line[j] == '\t'
  }

  function StripLine(line: string): string {
    if HasNumber(line) then line[Digits(line) + 1..] else line
  }

  function StripAll(lines: seq<string>): (r: seq<string>)
    ensures |r| == |lines|
    ensures forall i :: 0 <= i < |lines| ==> r[i] == StripLine(lines[i])
  {
    seq(|lines|, i requires 0 <= i < |lines| => StripLine(lines[i]))
  }

  method CountDigits(line: string) returns (j: nat)
    ensures j == Digits(line)
  {
    j := 0;
    while j < |line| && '0' <= line[j] <= '9'
      invariant j <= |line| && Digits(line) == j + Digits(line[j..])
    {
      assert line[j..][1..] == line[j + 1..];
      j := j + 1;
    }
    assert j < |line| ==> line[j..][0] == line[j];
  }

  method StripOne(line: string) returns (rest: string, stripped: bool)
    ensures rest == StripLine(line) && (stripped <==> HasNumber(line))
  {
    var j := CountDigits(line);
    stripped := j > 0 && j < |line| && line[j] == '\t';
    rest := if stripped then line[j + 1..] else line;
  }

  predicate SomeNumber(lines: seq<string>) { exists i :: 0 <= i < |lines| && HasNumber(lines[i]) }

  predicate SomeText(lines: seq<string>) { exists i :: 0 <= i < |lines| && lines[i] != "" }

  method StripEach(lines: seq<string>) returns (out: seq<string>, strippedAny: bool, anyContent: bool)
    ensures out == StripAll(lines)
    ensures strippedAny <==> SomeNumber(lines)
    ensures anyContent <==> SomeText(StripAll(lines))
  {
    ghost var all := StripAll(lines);
    out, strippedAny, anyContent := [], false, false;
    for i := 0 to |lines|
      invariant out == all[..i]
      invariant strippedAny <==> SomeNumber(lines[..i])
      invariant anyContent <==> SomeText(all[..i])
    {
      var line, stripped := StripOne(lines[i]);
      assert lines[..i + 1] == lines[..i] + [lines[i]] && all[..i + 1] == all[..i] + [line];
      SomeAppend(lines[..i], lines[i]);
      SomeAppend(all[..i], line);
      strippedAny, anyContent := strippedAny || stripped, anyContent || line != "";
      out := out + [line];
    }
    assert lines[..|lines|] == lines && all[..|lines|] == all;
  }

  lemma {:induction false} SomeAppend(lines: seq<string>, l: string)
    ensures SomeNumber(lines + [l]) <==> SomeNumber(lines) || HasNumber(l)
    ensures SomeText(lines + [l]) <==> SomeText(lines) || l != ""
  {
    var all := lines + [l];
    assert all[|lines|] == l;
    forall i | 0 <= i < |lines| ensures all[i] == lines[i] {}
    if SomeNumber(lines) {
      var i :| 0 <= i < |lines| && HasNumber(lines[i]);
      assert HasNumber(all[i]);
    }
    if SomeText(lines) {
      var i :| 0 <= i < |lines| && lines[i] != "";
      assert all[i] != "";
    }
  }

  /** `stripLineNumberPrefixes`: at least one number must go and something must stay. */
  method StripLineNumbers(s: string) returns (r: Option<string>)
    ensures r == Stripped(s)
  {
    var lines := Block(s);
    var out, strippedAny, anyContent := StripEach(lines);
    r := if strippedAny && anyContent then Some(Join(out)) else None;
  }

  function Stripped(s: string): Option<string> {
    var lines := Block(s);
    if SomeNumber(lines) && SomeText(StripAll(lines)) then Some(Join(StripAll(lines))) else None
  }

  // ---------------------------------------------------------------- round trip

  lemma {:induction false} DigitsOf(d: string, rest: string)
    requires (forall i :: 0 <= i < |d| ==> IsDigit(d[i])) && rest != [] && !IsDigit(rest[0])
    ensures Digits(d + rest) == |d|
  {
    if d == [] {
      assert d + rest == rest;
    } else {
      assert (d + rest)[1..] == d[1..] + rest && (d + rest)[0] == d[0];
      DigitsOf(d[1..], rest);
    }
  }

  /** The number goes and the line stays, also when it begins with digits or tabs. */
  lemma {:induction false} StripNumbered(n: nat, line: string)
    ensures HasNumber(NumberedLine(n, line)) && StripLine(NumberedLine(n, line)) == line
  {
    var d, l := Decimal(n), NumberedLine(n, line);
    assert l == d + ("\t" + line);
    DigitsOf(d, "\t" + line);
  }

  lemma {:induction false} NumberedBlock(lines: seq<string>, start: nat)
    requires lines != [] && forall i :: 0 <= i < |lines| ==> OneLine(lines[i])
    ensures Block(Join(Numbered(lines, start))) == Numbered(lines, start)
  {
    var all := Numbered(lines, start);
    forall i | 0 <= i < |all| ensures OneLine(all[i]) && all[i] != "" {
      DecimalOneLine(start + i);
    }
    SplitJoin(all);
  }

  lemma {:induction false} DecimalOneLine(n: nat)
    ensures OneLine(Decimal(n))
  {
    var d := Decimal(n);
    assert forall i :: 0 <= i < |d| ==> IsDigit(d[i]);
  }

  /** Stripping the numbered rendering gives back the lines, exactly when one of them is
      not empty. */
  lemma {:induction false} NumberedRoundTrip(lines: seq<string>, start: nat)
    requires lines != [] && forall i :: 0 <= i < |lines| ==> OneLine(lines[i])
    ensures Stripped(Join(Numbered(lines, start))) == if SomeText(lines) then Some(Join(lines)) else None
  {
    var all := Numbered(lines, start);
    NumberedBlock(lines, start);
    forall i | 0 <= i < |all| ensures HasNumber(all[i]) && StripLine(all[i]) == lines[i] {
      StripNumbered(start + i, lines[i]);
    }
    assert StripAll(all) == lines;
    assert HasNumber(all[0]);
  }

  /** For every file and every range that selects something. */
  lemma {:induction false} ReadRoundTrip(text: string, from: nat, end: int)
    requires Selected(Split(WithoutBom(text)), from, end) != []
    ensures var lines := Selected(Split(WithoutBom(text)), from, end);
      Stripped(Join(Numbered(lines, from + 1))) == if SomeText(lines) then Some(Join(lines)) else None
  {
    SelectedOneLine(Split(WithoutBom(text)), from, end);
    NumberedRoundTrip(Selected(Split(WithoutBom(text)), from, end), from + 1);
  }
}
