/** The white-space-tolerant edit: one window of lines replaced by byte offsets
    (internal/fsorgan/edit.go). */
module LineEdit {
  import opened Text

  // ------------------------------------------------------------- indentation

  predicate IsIndent(c: char) { c == ' ' || c == '\t' }

  predicate AllIndent(w: string) { forall i :: 0 <= i < |w| ==> IsIndent(w[i]) }

  /** `strings.TrimLeft(s, " \t")`. */
  function TrimIndent(s: string): string {
    if s == [] || !IsIndent(s[0]) then s else TrimIndent(s[1..])
  }

  /** `leadingWS`: the spaces and tabs at the start. */
  function Indent(s: string): string {
    if s == [] || !IsIndent(s[0]) then [] else [s[0]] + Indent(s[1..])
  }

  lemma {:induction false} IndentSplits(s: string)
    ensures s == Indent(s) + TrimIndent(s) && AllIndent(Indent(s))
    ensures TrimIndent(s) != "" ==> !IsIndent(TrimIndent(s)[0])
  {
    if s != [] && IsIndent(s[0]) { IndentSplits(s[1..]); }
  }

  /** White space in front only adds to the indentation. */
  lemma {:induction false} IndentPrefix(w: string, s: string)
    requires AllIndent(w)
    ensures TrimIndent(w + s) == TrimIndent(s) && Indent(w + s) == w + Indent(s)
  {
    if w == [] {
      assert w + s == s;
    } else {
      assert (w + s)[1..] == w[1..] + s && (w + s)[0] == w[0];
      IndentPrefix(w[1..], s);
    }
  }

  lemma {:induction false} TrimIndentTwice(s: string)
    ensures TrimIndent(TrimIndent(s)) == TrimIndent(s)
  {
    if s != [] && IsIndent(s[0]) { TrimIndentTwice(s[1..]); }
  }

  // ----------------------------------------------------------------- windows

  /** Every line without its surrounding white space. */
  function Trimmed(lines: seq<string>): (t: seq<string>)
    ensures |t| == |lines|
  {
    Mapped(TrimSpace, lines)
  }

  /** The lines from `i` on are those of the block. */
  predicate Matches(lines: seq<string>, block: seq<string>, i: nat) {
    i + |block| <= |lines| && forall j :: 0 <= j < |block| ==> lines[i + j] == block[j]
  }

  /** The one and only window that matches. */
  ghost predicate OnlyMatch(lines: seq<string>, block: seq<string>, i: nat) {
    Matches(lines, block, i) && forall k: nat :: Matches(lines, block, k) ==> k == i
  }

  method MatchesAt(lines: seq<string>, block: seq<string>, i: nat) returns (all: bool)
    requires i + |block| <= |lines|
    ensures all <==> Matches(lines, block, i)
  {
    for j := 0 to |block|
      invariant forall k :: 0 <= k < j ==> lines[i + k] == block[k]
    {
      if lines[i + j] != block[j] { return false; }
    }
    all := true;
  }

  /** The scan over all windows; two matches are as bad as none. */
  method FindWindow(lines: seq<string>, block: seq<string>) returns (found: Option<nat>)
    ensures found.Some? ==> OnlyMatch(lines, block, found.value)
    ensures found.None? ==> forall i: nat :: !OnlyMatch(lines, block, i)
  {
    found := None;
    var i := 0;
    while i + |block| <= |lines|
      invariant found.Some? ==> found.value < i && Matches(lines, block, found.value)
      invariant forall k: nat :: k < i && Matches(lines, block, k) ==> found == Some(k)
    {
      var all := MatchesAt(lines, block, i);
      if all {
        if found.Some? { return None; }
        found := Some(i);
      }
      i := i + 1;
    }
  }

  // ---------------------------------------------------------------- rebasing

  /** The indentation of the first line that is not blank. */
  function Basis(lines: seq<string>): string {
    if lines == [] then "" else if Blank(lines[0]) then Basis(lines[1..]) else Indent(lines[0])
  }

  function RebaseLine(line: string, from: string, to: string): string {
    if Blank(line) then line
    else to + (if from <= line then line[|from|..] else TrimIndent(line))
  }

  /** The new lines moved from their own basis to the matched block's. */
  function Rebase(lines: seq<string>, to: string): (r: seq<string>)
    ensures |r| == |lines|
  {
    var from := Basis(lines);
    if from == to then lines
    else seq(|lines|, i requires 0 <= i < |lines| => RebaseLine(lines[i], from, to))
  }

  method FindBasis(lines: seq<string>) returns (basis: string)
    ensures basis == Basis(lines)
  {
    basis := "";
    var i := 0;
    while i < |lines|
      invariant i <= |lines| && Basis(lines) == Basis(lines[i..])
    {
      if !Blank(lines[i]) { return Indent(lines[i]); }
      assert lines[i..][1..] == lines[i + 1..];
      i := i + 1;
    }
    assert lines[i..] == [];
  }

  method RebaseLines(lines: seq<string>, to: string) returns (r: seq<string>)
    ensures r == Rebase(lines, to)
  {
    r := lines;
    var from := FindBasis(lines);
    if from != to {
      for k := 0 to |lines|
        invariant |r| == |lines|
        invariant forall i :: 0 <= i < k ==> r[i] == RebaseLine(lines[i], from, to)
        invariant forall i :: k <= i < |lines| ==> r[i] == lines[i]
      {
        if !Blank(lines[k]) {
          var rest := TrimIndent(lines[k]);
          if from <= lines[k] { rest := lines[k][|from|..]; }
          r := r[k := to + rest];
        }
      }
    }
  }

  // ------------------------------------------------------------ byte offsets

  /** Where line `i` starts in the joined text. */
  function Offset(lines: seq<string>, i: nat): nat
    requires i <= |lines|
  {
    if i == 0 then 0 else Offset(lines, i - 1) + |lines[i - 1]| + 1
  }

  /** The joined text up to the start of line `i`, and from the end of line `i` on. */
  lemma {:induction false} JoinParts(lines: seq<string>, i: nat)
    requires i < |lines|
    ensures Offset(lines, i) + |lines[i]| <= |Join(lines)|
    ensures Join(lines)[..Offset(lines, i)] == if i == 0 then "" else Join(lines[..i]) + "\n"
    ensures Join(lines)[Offset(lines, i) + |lines[i]|..] == if i + 1 == |lines| then "" else "\n" + Join(lines[i + 1..])
  {
    var at := Offset(lines, i);
    if i > 0 {
      assert lines == lines[..i] + lines[i..];
      JoinConcat(lines[..i], lines[i..]);
    } else {
      assert lines[i..] == lines;
    }
    var tail := lines[i..];
    if i + 1 < |lines| {
      assert tail == [lines[i]] + lines[i + 1..];
      JoinConcat([lines[i]], lines[i + 1..]);
    } else {
      assert tail == [lines[i]];
    }
    JoinLength(lines, i);
    assert Join(tail)[|lines[i]|..] == if i + 1 == |lines| then "" else "\n" + Join(lines[i + 1..]);
  }

  lemma {:induction false} JoinLength(lines: seq<string>, i: nat)
    requires i <= |lines|
    ensures Offset(lines, i) == if i == 0 then 0 else |Join(lines[..i])| + 1
  {
    if i > 1 {
      JoinLength(lines, i - 1);
      assert lines[..i] == lines[..i - 1] + [lines[i - 1]];
      JoinConcat(lines[..i - 1], [lines[i - 1]]);
    }
  }

  method LineOffsets(lines: seq<string>) returns (offsets: seq<nat>)
    ensures |offsets| == |lines|
    ensures forall i :: 0 <= i < |lines| ==> offsets[i] == Offset(lines, i)
  {
    offsets := [];
    var pos := 0;
    for i := 0 to |lines|
      invariant |offsets| == i && pos == Offset(lines, i)
      invariant forall j :: 0 <= j < i ==> offsets[j] == Offset(lines, j)
    {
      offsets := offsets + [pos];
      pos := pos + |lines[i]| + 1;
    }
  }

  /** Cutting the joined text from the start of line `i` to the end of line `k` and
      putting other lines there is replacing those lines. */
  lemma {:induction false} SpliceIsLines(lines: seq<string>, i: nat, k: nat, put: seq<string>)
    requires i <= k < |lines| && put != []
    ensures Offset(lines, i) <= Offset(lines, k) + |lines[k]| <= |Join(lines)|
    ensures Join(lines)[..Offset(lines, i)] + Join(put) + Join(lines)[Offset(lines, k) + |lines[k]|..]
            == Join(lines[..i] + put + lines[k + 1..])
  {
    JoinParts(lines, i);
    JoinParts(lines, k);
    OffsetGrows(lines, i, k);
    var left := lines[..i] + put;
    if i > 0 {
      JoinConcat(lines[..i], put);
    } else {
      assert left == put;
    }
    if k + 1 < |lines| {
      JoinConcat(left, lines[k + 1..]);
    } else {
      assert left + lines[k + 1..] == left;
    }
  }

  /** The text between the two cuts is those lines joined. */
  lemma {:induction false} SegmentIsLines(lines: seq<string>, i: nat, k: nat)
    requires i <= k < |lines|
    ensures Offset(lines, i) <= Offset(lines, k) + |lines[k]| <= |Join(lines)|
    ensures Join(lines)[Offset(lines, i)..Offset(lines, k) + |lines[k]|] == Join(lines[i..k + 1])
  {
    var text, a, b := Join(lines), Offset(lines, i), Offset(lines, k) + |lines[k]|;
    SpliceIsLines(lines, i, k, lines[i..k + 1]);
    OffsetGrows(lines, i, k);
    JoinParts(lines, k);
    assert lines[..i] + lines[i..k + 1] + lines[k + 1..] == lines;
    assert text[..a] + Join(lines[i..k + 1]) + text[b..] == text;
    assert |Join(lines[i..k + 1])| == b - a;
    assert text[a..b] == (text[..a] + Join(lines[i..k + 1]) + text[b..])[a..b];
  }

  lemma {:induction false} OffsetGrows(lines: seq<string>, i: nat, k: nat)
    requires i <= k <= |lines|
    ensures Offset(lines, i) <= Offset(lines, k)
  {
    if i < k { OffsetGrows(lines, i, k - 1); }
  }

  /** The lines of the result when the window at `i` is replaced. */
  function Spliced(lines: seq<string>, i: nat, n: nat, newText: string): seq<string>
    requires i + n <= |lines| && n >= 1
  {
    lines[..i] + Rebase(Split(newText), Indent(lines[i])) + lines[i + n..]
  }

  /** The result of the tolerant edit: it exists when exactly one window matches. */
  ghost function FuzzyEdit(content: string, oldText: string, newText: string): Option<string> {
    var lines, block := Split(content), Block(oldText);
    if exists i: nat :: OnlyMatch(Trimmed(lines), Trimmed(block), i) then
      var i: nat :| OnlyMatch(Trimmed(lines), Trimmed(block), i);
      Some(Join(Spliced(lines, i, |block|, newText)))
    else None
  }

  lemma {:induction false} FuzzyIs(content: string, oldText: string, newText: string, found: Option<nat>)
    requires found.Some? ==> OnlyMatch(Trimmed(Split(content)), Trimmed(Block(oldText)), found.value)
    requires found.None? ==> forall i: nat :: !OnlyMatch(Trimmed(Split(content)), Trimmed(Block(oldText)), i)
    ensures FuzzyEdit(content, oldText, newText) ==
      if found.Some? then Some(Join(Spliced(Split(content), found.value, |Block(oldText)|, newText))) else None
  {}

  /** `lineTrimmedReplace`: succeeds exactly when one window of lines matches up to
      surrounding white space, and then replaces just those lines. */
  method LineTrimmedReplace(content: string, oldText: string, newText: string) returns (out: Option<string>)
    ensures out.Some? <==> exists i: nat :: OnlyMatch(Trimmed(Split(content)), Trimmed(Block(oldText)), i)
    ensures out.Some? ==> exists i: nat ::
      && OnlyMatch(Trimmed(Split(content)), Trimmed(Block(oldText)), i)
      && out.value == Join(Spliced(Split(content), i, |Block(oldText)|, newText))
    ensures out == FuzzyEdit(content, oldText, newText)
  {
    var lines, block := Split(content), Block(oldText);
    var found := FindWindow(Trimmed(lines), Trimmed(block));
    FuzzyIs(content, oldText, newText, found);
    if found.None? { return None; }
    var i := found.value;
    var offsets := LineOffsets(lines);
    var last := i + |block| - 1;
    var start, end := offsets[i], offsets[last] + |lines[last]|;
    if end > |content| { end := |content|; }
    var nl := RebaseLines(Split(newText), Indent(lines[i]));
    JoinSplit(content);
    SpliceIsLines(lines, i, last, nl);
    out := Some(content[..start] + Join(nl) + content[end..]);
  }

  // ------------------------------------------------------- what rebasing keeps

  /** Rebasing changes nothing but indentation. */
  lemma {:induction false} RebaseKeepsText(line: string, from: string, to: string)
    requires AllIndent(from) && AllIndent(to)
    ensures TrimIndent(RebaseLine(line, from, to)) == TrimIndent(line)
  {
    if !Blank(line) {
      if from <= line {
        IndentPrefix(to, line[|from|..]);
        IndentPrefix(from, line[|from|..]);
        assert line == from + line[|from|..];
      } else {
        IndentPrefix(to, TrimIndent(line));
        TrimIndentTwice(line);
      }
    }
  }

  /** A line that carries the new block's basis keeps its indentation relative to it. */
  lemma {:induction false} RelativeIndent(line: string, from: string, to: string)
    requires AllIndent(from) && AllIndent(to) && !Blank(line) && from <= line
    ensures from <= Indent(line) && Indent(RebaseLine(line, from, to)) == to + Indent(line)[|from|..]
  {
    IndentPrefix(to, line[|from|..]);
    IndentPrefix(from, line[|from|..]);
    assert line == from + line[|from|..];
  }

  lemma {:induction false} BasisIndent(lines: seq<string>)
    ensures AllIndent(Basis(lines))
  {
    if lines != [] {
      if Blank(lines[0]) { BasisIndent(lines[1..]); } else { IndentSplits(lines[0]); }
    }
  }

  /** The indentation of the first line that is not blank; none when all are. */
  ghost predicate IsBasis(lines: seq<string>, basis: string) {
    || (basis == "" && forall i :: 0 <= i < |lines| ==> Blank(lines[i]))
    || exists i :: 0 <= i < |lines| && !Blank(lines[i]) && basis == Indent(lines[i])
         && forall j :: 0 <= j < i ==> Blank(lines[j])
  }

  lemma {:induction false} BasisIs(lines: seq<string>)
    ensures IsBasis(lines, Basis(lines))
  {
    if lines != [] && Blank(lines[0]) {
      BasisIs(lines[1..]);
      if exists i :: 0 <= i < |lines[1..]| && !Blank(lines[1..][i]) {
        var i :| 0 <= i < |lines[1..]| && !Blank(lines[1..][i]) && Basis(lines) == Indent(lines[1..][i])
          && forall j :: 0 <= j < i ==> Blank(lines[1..][j]);
        assert lines[i + 1] == lines[1..][i];
        forall j | 0 <= j < i + 1 ensures Blank(lines[j]) {
          if j > 0 { assert lines[j] == lines[1..][j - 1]; }
        }
      } else {
        forall j | 0 <= j < |lines| ensures Blank(lines[j]) {
          if j > 0 { assert lines[j] == lines[1..][j - 1]; }
        }
      }
    } else if lines != [] {
      assert !Blank(lines[0]) && Basis(lines) == Indent(lines[0]);
    }
  }

  /** One line moved from `basis` to `to`: a blank one stays, and any other keeps its text;
      if it carries the basis, it keeps its indentation relative to it. */
  predicate LineMoved(line: string, line': string, basis: string, to: string) {
    && (Blank(line) || basis == to ==> line' == line)
    && TrimIndent(line') == TrimIndent(line)
    && (!Blank(line) && basis != to ==>
          Indent(line') == if basis <= Indent(line) then to + Indent(line)[|basis|..] else to)
  }

  /** The block moved as a whole from its own basis. */
  ghost predicate BlockMoved(lines: seq<string>, lines': seq<string>, to: string) {
    && |lines'| == |lines|
    && exists basis ::
         IsBasis(lines, basis) && forall k :: 0 <= k < |lines| ==> LineMoved(lines[k], lines'[k], basis, to)
  }

  lemma {:induction false} RebaseMoves(lines: seq<string>, to: string)
    requires AllIndent(to)
    ensures BlockMoved(lines, Rebase(lines, to), to)
  {
    BasisIs(lines);
    forall k | 0 <= k < |lines| ensures LineMoved(lines[k], Rebase(lines, to)[k], Basis(lines), to) {
      RebasedLine(lines, to, k);
      IndentSplits(lines[k]);
      if !Blank(lines[k]) && !(Basis(lines) <= lines[k]) { OffBasis(lines[k], Basis(lines), to); }
    }
  }

  /** A line that does not carry the basis is put at the new one. */
  lemma {:induction false} OffBasis(line: string, from: string, to: string)
    requires AllIndent(to) && !Blank(line) && !(from <= line)
    ensures Indent(RebaseLine(line, from, to)) == to
  {
    IndentPrefix(to, TrimIndent(line));
    IndentSplits(line);
    assert Indent(TrimIndent(line)) == [];
    assert to + [] == to;
  }

  /** Every line of the rebased block: blank ones stay, the others keep their text, and
      those that carry the block's basis keep their indentation relative to it. */
  lemma {:induction false} RebasedLine(lines: seq<string>, to: string, k: nat)
    requires AllIndent(to) && k < |lines|
    ensures var basis, line, line' := Basis(lines), lines[k], Rebase(lines, to)[k];
      && (Blank(line) ==> line' == line)
      && TrimIndent(line') == TrimIndent(line)
      && (!Blank(line) && basis <= line ==>
            basis <= Indent(line) && Indent(line') == to + Indent(line)[|basis|..])
  {
    var basis, line := Basis(lines), lines[k];
    BasisIndent(lines);
    RebaseKeepsText(line, basis, to);
    if !Blank(line) && basis <= line {
      RelativeIndent(line, basis, to);
      assert Indent(line) == basis + Indent(line)[|basis|..];
    }
  }
}
