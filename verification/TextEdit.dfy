/** The edit itself: exact text first, then the tolerant and the unnumbered fallbacks
    (internal/fsorgan/edit.go). */
module TextEdit {
  import opened Text
  import opened LineEdit
  import opened NumberedRead

  // -------------------------------------------------------- exact occurrences

  /** `sub` stands in `s` at `i`. */
  predicate Here(s: string, sub: string, i: nat) { i + |sub| <= |s| && s[i..i + |sub|] == sub }

  /** `strings.Count` for a text that is not empty: occurrences that do not overlap. */
  function Count(s: string, sub: string): nat
    requires sub != ""
    decreases |s|
  {
    if |s| < |sub| then 0
    else if sub <= s then 1 + Count(s[|sub|..], sub)
    else Count(s[1..], sub)
  }

  /** `strings.Replace` with a limit of one. */
  function ReplaceFirst(s: string, sub: string, put: string): string
    requires sub != ""
    decreases |s|
  {
    if |s| < |sub| then s
    else if sub <= s then put + s[|sub|..]
    else [s[0]] + ReplaceFirst(s[1..], sub, put)
  }

  /** `strings.ReplaceAll`. */
  function ReplaceAll(s: string, sub: string, put: string): string
    requires sub != ""
    decreases |s|
  {
    if |s| < |sub| then s
    else if sub <= s then put + ReplaceAll(s[|sub|..], sub, put)
    else [s[0]] + ReplaceAll(s[1..], sub, put)
  }

  /** The first place where `sub` stands. */
  predicate FirstHere(s: string, sub: string, i: nat) {
    Here(s, sub, i) && forall j :: 0 <= j < i ==> !Here(s, sub, j)
  }

  lemma {:induction false} HereAtStart(s: string, sub: string)
    ensures Here(s, sub, 0) <==> sub <= s
  {}

  lemma {:induction false} FirstShift(s: string, sub: string, k: nat)
    requires s != "" && !Here(s, sub, 0) && FirstHere(s[1..], sub, k)
    ensures FirstHere(s, sub, k + 1)
  {
    HereShift(s, sub, k + 1);
    forall j | 0 <= j < k + 1 ensures !Here(s, sub, j) {
      if j > 0 { HereShift(s, sub, j); }
    }
  }

  function FirstAt(s: string, sub: string): nat
    requires sub != "" && Count(s, sub) > 0
    decreases |s|
  {
    if sub <= s then 0 else FirstAt(s[1..], sub) + 1
  }

  lemma {:induction false} FirstAtHere(s: string, sub: string)
    requires sub != "" && Count(s, sub) > 0
    ensures FirstHere(s, sub, FirstAt(s, sub))
    decreases |s|
  {
    HereAtStart(s, sub);
    if !(sub <= s) {
      FirstAtHere(s[1..], sub);
      FirstShift(s, sub, FirstAt(s[1..], sub));
    }
  }

  lemma {:induction false} ReplacedLater(s: string, sub: string, put: string, i: nat, j: nat)
    requires s != "" && sub != "" && !(sub <= s) && i <= j < |s|
    requires ReplaceFirst(s[1..], sub, put) == s[1..][..i] + put + s[1..][j..]
    ensures ReplaceFirst(s, sub, put) == s[..i + 1] + put + s[j + 1..]
  {
    SpliceShift(s, i, j, put);
  }

  lemma {:induction false} FirstAtReplaced(s: string, sub: string, put: string)
    requires sub != "" && Count(s, sub) > 0
    ensures FirstAt(s, sub) + |sub| <= |s|
    ensures ReplaceFirst(s, sub, put) == s[..FirstAt(s, sub)] + put + s[FirstAt(s, sub) + |sub|..]
    decreases |s|
  {
    if sub <= s {
      assert s[..0] + put == put;
    } else {
      FirstAtReplaced(s[1..], sub, put);
      var k := FirstAt(s[1..], sub);
      ReplacedLater(s, sub, put, k, k + |sub|);
    }
  }

  /** The first occurrence is where the first replacement goes. */
  lemma {:induction false} FirstOccurrence(s: string, sub: string, put: string) returns (i: nat)
    requires sub != "" && Count(s, sub) > 0
    ensures FirstHere(s, sub, i) && i + |sub| <= |s|
    ensures ReplaceFirst(s, sub, put) == s[..i] + put + s[i + |sub|..]
  {
    i := FirstAt(s, sub);
    FirstAtHere(s, sub);
    FirstAtReplaced(s, sub, put);
  }

  lemma {:induction false} SpliceShift(s: string, i: nat, j: nat, put: string)
    requires i <= j < |s|
    ensures [s[0]] + (s[1..][..i] + put + s[1..][j..]) == s[..i + 1] + put + s[j + 1..]
  {
    assert [s[0]] + s[1..][..i] == s[..i + 1] && s[1..][j..] == s[j + 1..];
  }

  lemma {:induction false} HereShift(s: string, sub: string, i: nat)
    requires i > 0 && s != ""
    ensures Here(s, sub, i) <==> Here(s[1..], sub, i - 1)
  {
    if i + |sub| <= |s| { assert s[1..][i - 1..i - 1 + |sub|] == s[i..i + |sub|]; }
  }

  lemma {:induction false} Counted(s: string, sub: string, i: nat)
    requires sub != "" && Here(s, sub, i)
    ensures Count(s, sub) > 0
    decreases |s|
  {
    if !(sub <= s) {
      HereShift(s, sub, i);
      Counted(s[1..], sub, i - 1);
    }
  }

  /** Counting finds nothing exactly when there is nothing. */
  lemma {:induction false} CountZero(s: string, sub: string)
    requires sub != ""
    ensures Count(s, sub) == 0 <==> forall i: nat :: !Here(s, sub, i)
  {
    if Count(s, sub) == 0 {
      forall i: nat ensures !Here(s, sub, i) {
        if Here(s, sub, i) { Counted(s, sub, i); }
      }
    } else {
      var i := FirstOccurrence(s, sub, "");
    }
  }

  /** The pieces between the occurrences, with `sep` in between. */
  function JoinBy(pieces: seq<string>, sep: string): string {
    if pieces == [] then []
    else if |pieces| == 1 then pieces[0]
    else pieces[0] + sep + JoinBy(pieces[1..], sep)
  }

  function Pieces(s: string, sub: string): (pieces: seq<string>)
    requires sub != ""
    ensures pieces != []
    decreases |s|
  {
    if |s| < |sub| then [s]
    else if sub <= s then [""] + Pieces(s[|sub|..], sub)
    else var rest := Pieces(s[1..], sub); [[s[0]] + rest[0]] + rest[1..]
  }

  lemma {:induction false} JoinByOne(pieces: seq<string>, c: char, sep: string)
    requires pieces != []
    ensures JoinBy([[c] + pieces[0]] + pieces[1..], sep) == [c] + JoinBy(pieces, sep)
  {
    var more := [[c] + pieces[0]] + pieces[1..];
    assert more[1..] == pieces[1..];
  }

  lemma {:induction false} JoinByEmpty(pieces: seq<string>, sep: string)
    requires pieces != []
    ensures JoinBy([""] + pieces, sep) == sep + JoinBy(pieces, sep)
  {
    assert ([""] + pieces)[1..] == pieces;
  }

  /** Replacing every occurrence keeps the pieces and puts the new text between them. */
  lemma {:induction false} PiecesReplaced(s: string, sub: string, put: string)
    requires sub != ""
    ensures JoinBy(Pieces(s, sub), put) == ReplaceAll(s, sub, put)
    decreases |s|
  {
    if |s| >= |sub| {
      if sub <= s {
        PiecesReplaced(s[|sub|..], sub, put);
        JoinByEmpty(Pieces(s[|sub|..], sub), put);
      } else {
        PiecesReplaced(s[1..], sub, put);
        JoinByOne(Pieces(s[1..], sub), s[0], put);
      }
    }
  }

  lemma {:induction false} PiecesCount(s: string, sub: string)
    requires sub != ""
    ensures |Pieces(s, sub)| == Count(s, sub) + 1
    decreases |s|
  {
    if |s| >= |sub| { PiecesCount(if sub <= s then s[|sub|..] else s[1..], sub); }
  }

  lemma {:induction false} ReplacedBySame(s: string, sub: string)
    requires sub != ""
    ensures ReplaceAll(s, sub, sub) == s
    decreases |s|
  {
    if |s| >= |sub| { ReplacedBySame(if sub <= s then s[|sub|..] else s[1..], sub); }
  }

  lemma {:induction false} FirstPiece(pieces: seq<string>, sep: string)
    requires pieces != []
    ensures pieces[0] <= JoinBy(pieces, sep)
  {}

  ghost predicate Free(piece: string, sub: string) { forall i: nat :: !Here(piece, sub, i) }

  lemma {:induction false} FreeLonger(c: char, piece: string, s: string, sub: string)
    requires Free(piece, sub) && s != "" && s[0] == c && piece <= s[1..] && !(sub <= s)
    ensures Free([c] + piece, sub)
  {
    forall i: nat ensures !Here([c] + piece, sub, i) {
      assert [c] + piece == s[..1 + |piece|];
      if i > 0 { HereShift([c] + piece, sub, i); }
    }
  }

  lemma {:induction false} PiecesFree(s: string, sub: string)
    requires sub != ""
    ensures forall k :: 0 <= k < |Pieces(s, sub)| ==> Free(Pieces(s, sub)[k], sub)
    decreases |s|
  {
    if |s| >= |sub| {
      if sub <= s {
        PiecesFree(s[|sub|..], sub);
      } else {
        var rest := Pieces(s[1..], sub);
        PiecesFree(s[1..], sub);
        PiecesReplaced(s[1..], sub, sub);
        ReplacedBySame(s[1..], sub);
        FirstPiece(rest, sub);
        FreeLonger(s[0], rest[0], s, sub);
      }
    }
  }

  // ---------------------------------------------------------------- the ladder

  datatype Outcome = Edited(text: string, replacements: nat) | Missing | Ambiguous(count: nat)

  /** With the text present: one occurrence, or all of them on request. */
  function Exact(content: string, oldText: string, newText: string, all: bool): Outcome
    requires oldText != ""
  {
    var count := Count(content, oldText);
    if count == 0 then Missing
    else if count > 1 && !all then Ambiguous(count)
    else if all then Edited(ReplaceAll(content, oldText, newText), count)
    else Edited(ReplaceFirst(content, oldText, newText), 1)
  }

  /** The tolerant fallback, for a single replacement only. */
  ghost function Tolerant(content: string, oldText: string, newText: string, all: bool): Outcome {
    var out := if all then None else FuzzyEdit(content, oldText, newText);
    if out.Some? then Edited(out.value, 1) else Missing
  }

  /** Two rungs: exact, and tolerant when the text stands nowhere. */
  ghost function Rung(content: string, text: string, newText: string, all: bool): Outcome
    requires text != ""
  {
    if Count(content, text) > 0 then Exact(content, text, newText, all) else Tolerant(content, text, newText, all)
  }

  /** The four rungs: those two, and again without line numbers. */
  ghost function EditResult(content: string, oldText: string, newText: string, all: bool): Outcome
    requires oldText != ""
  {
    var first, bare := Rung(content, oldText, newText, all), Stripped(oldText);
    if !first.Missing? || bare.None? || bare.value == oldText || bare.value == "" then first
    else Rung(content, bare.value, newText, all)
  }

  lemma {:induction false} JoinSome(lines: seq<string>, i: nat)
    requires i < |lines| && lines[i] != ""
    ensures Join(lines) != ""
  {
    if |lines| > 1 && i > 0 { JoinSome(lines[1..], i - 1); }
  }

  /** A stripped text is never empty. */
  lemma {:induction false} StrippedSome(s: string)
    ensures Stripped(s) != Some("")
  {
    var lines := StripAll(Block(s));
    if SomeText(lines) {
      var i :| 0 <= i < |lines| && lines[i] != "";
      JoinSome(lines, i);
    }
  }

  method TryTolerant(content: string, oldText: string, newText: string, all: bool) returns (r: Outcome)
    ensures r == Tolerant(content, oldText, newText, all)
  {
    if all { return Missing; }
    var out := LineTrimmedReplace(content, oldText, newText);
    r := if out.Some? then Edited(out.value, 1) else Missing;
  }

  /** The part of `handleEdit` that works on the text. */
  method EditText(content: string, oldText: string, newText: string, all: bool) returns (r: Outcome)
    requires oldText != ""
    ensures r == EditResult(content, oldText, newText, all)
  {
    var target, count := oldText, Count(content, oldText);
    if count == 0 {
      r := TryTolerant(content, oldText, newText, all);
      if r.Edited? { return; }
      var bare := StripLineNumbers(oldText);
      StrippedSome(oldText);
      if bare.Some? && bare.value != oldText {
        var c := Count(content, bare.value);
        if c > 0 {
          target, count := bare.value, c;
        } else {
          r := TryTolerant(content, bare.value, newText, all);
          return;
        }
      }
      if count == 0 { return Missing; }
    }
    if count > 1 && !all { return Ambiguous(count); }
    r := if all then Edited(ReplaceAll(content, target, newText), count)
         else Edited(ReplaceFirst(content, target, newText), 1);
  }

  // ------------------------------------------------- what a single edit cuts out

  ghost predicate Occurs(s: string, sub: string) { exists i: nat :: Here(s, sub, i) }

  /** `text` stands in the content: its first occurrence, content[i..j], goes, and the new
      text comes in its place. */
  ghost predicate ReplacedExactly(content: string, result: string, text: string, newText: string, i: nat, j: nat) {
    && FirstHere(content, text, i) && j == i + |text| <= |content|
    && result == content[..i] + newText + content[j..]
  }

  /** It stands there only up to surrounding white space: the lines content[i..j] are its
      lines, and the new lines come in their place, moved to their indentation. */
  ghost predicate ReplacedLines(content: string, result: string, text: string, newText: string, i: nat, j: nat) {
    && i <= j <= |content| && Trimmed(Split(content[i..j])) == Trimmed(Block(text))
    && exists lines :: BlockMoved(Split(newText), lines, Indent(Split(content[i..j])[0]))
         && result == content[..i] + Join(lines) + content[j..]
  }

  ghost predicate ReplacedOne(content: string, result: string, text: string, newText: string, i: nat, j: nat) {
    if Occurs(content, text) then ReplacedExactly(content, result, text, newText, i, j)
    else ReplacedLines(content, result, text, newText, i, j)
  }

  lemma {:induction false} CountPositive(s: string, sub: string)
    requires sub != ""
    ensures Count(s, sub) > 0 <==> Occurs(s, sub)
  {
    CountZero(s, sub);
  }

  lemma {:induction false} ExactCuts(content: string, text: string, newText: string) returns (i: nat, j: nat)
    requires text != "" && Exact(content, text, newText, false).Edited?
    ensures ReplacedOne(content, Exact(content, text, newText, false).text, text, newText, i, j)
  {
    CountPositive(content, text);
    i := FirstOccurrence(content, text, newText);
    j := i + |text|;
  }

  lemma {:induction false} MatchSlice(a: seq<string>, b: seq<string>, i: nat)
    requires Matches(a, b, i)
    ensures a[i..i + |b|] == b
  {}

  /** The window found holds the lines asked for. */
  lemma {:induction false} WindowAskedFor(content: string, text: string, at: nat)
    requires Matches(Trimmed(Split(content)), Trimmed(Block(text)), at)
    ensures Split(Join(Split(content)[at..at + |Block(text)|])) == Split(content)[at..at + |Block(text)|]
    ensures Trimmed(Split(content)[at..at + |Block(text)|]) == Trimmed(Block(text))
  {
    var lines, n := Split(content), |Block(text)|;
    MatchSlice(Trimmed(lines), Trimmed(Block(text)), at);
    MappedSlice(TrimSpace, lines, at, at + n);
    SplitJoin(lines[at..at + n]);
  }

  lemma {:induction false} FuzzyCuts(content: string, text: string, newText: string) returns (i: nat, j: nat)
    requires FuzzyEdit(content, text, newText).Some?
    ensures ReplacedLines(content, FuzzyEdit(content, text, newText).value, text, newText, i, j)
  {
    var at: nat :| Matches(Trimmed(Split(content)), Trimmed(Block(text)), at)
      && FuzzyEdit(content, text, newText) == Some(Join(Spliced(Split(content), at, |Block(text)|, newText)));
    i, j := SplicedCuts(content, text, newText, at);
  }

  lemma {:induction false} SplicedCuts(content: string, text: string, newText: string, at: nat)
    returns (i: nat, j: nat)
    requires Matches(Trimmed(Split(content)), Trimmed(Block(text)), at)
    ensures ReplacedLines(content, Join(Spliced(Split(content), at, |Block(text)|, newText)), text, newText, i, j)
  {
    var lines, n := Split(content), |Block(text)|;
    var window, moved := lines[at..at + n], Rebase(Split(newText), Indent(lines[at]));
    WindowAskedFor(content, text, at);
    JoinSplit(content);
    i, j := WindowCuts(lines, at, n, newText);
    IndentSplits(lines[at]);
    RebaseMoves(Split(newText), Indent(window[0]));
    ReplacedBy(content, Join(Spliced(lines, at, n, newText)), text, newText, i, j, window, moved);
  }

  lemma {:induction false} ReplacedBy(content: string, result: string, text: string, newText: string, i: nat, j: nat,
                                      window: seq<string>, moved: seq<string>)
    requires i <= j <= |content| && Split(content[i..j]) == window && window != []
    requires Trimmed(window) == Trimmed(Block(text))
    requires BlockMoved(Split(newText), moved, Indent(window[0]))
    requires result == content[..i] + Join(moved) + content[j..]
    ensures ReplacedLines(content, result, text, newText, i, j)
  {}

  /** Splicing lines cuts one stretch out of the text. */
  lemma {:induction false} WindowCuts(lines: seq<string>, at: nat, n: nat, newText: string)
    returns (i: nat, j: nat)
    requires at + n <= |lines| && n >= 1
    ensures i <= j <= |Join(lines)| && Join(lines)[i..j] == Join(lines[at..at + n])
    ensures Join(Spliced(lines, at, n, newText)) ==
            Join(lines)[..i] + Join(Rebase(Split(newText), Indent(lines[at]))) + Join(lines)[j..]
  {
    var last := at + n - 1;
    SpliceIsLines(lines, at, last, Rebase(Split(newText), Indent(lines[at])));
    SegmentIsLines(lines, at, last);
    i, j := Offset(lines, at), Offset(lines, last) + |lines[last]|;
  }

  /** Without replace-all a successful edit replaces one stretch of the file: the text asked
      for, with or without its line numbers, by the new text; or, if it stands nowhere as it
      is, the lines that are its lines up to white space by the new lines. */
  lemma {:induction false} SingleEdit(content: string, oldText: string, newText: string)
    returns (text: string, i: nat, j: nat)
    requires oldText != "" && EditResult(content, oldText, newText, false).Edited?
    ensures text == oldText || Stripped(oldText) == Some(text)
    ensures ReplacedOne(content, EditResult(content, oldText, newText, false).text, text, newText, i, j)
    ensures EditResult(content, oldText, newText, false).replacements == 1
  {
    text := oldText;
    CountPositive(content, oldText);
    if Count(content, oldText) > 0 {
      i, j := ExactCuts(content, oldText, newText);
    } else if FuzzyEdit(content, oldText, newText).Some? {
      i, j := FuzzyCuts(content, oldText, newText);
    } else {
      text := Stripped(oldText).value;
      CountPositive(content, text);
      if Count(content, text) > 0 {
        i, j := ExactCuts(content, text, newText);
      } else {
        i, j := FuzzyCuts(content, text, newText);
      }
    }
  }

  /** With replace-all a successful edit replaces every occurrence of the text, with or
      without its line numbers: what lies between them stays and holds no other. */
  lemma {:induction false} AllEdit(content: string, oldText: string, newText: string)
    returns (text: string, pieces: seq<string>)
    requires oldText != "" && EditResult(content, oldText, newText, true).Edited?
    ensures text != "" && (text == oldText || Stripped(oldText) == Some(text))
    ensures pieces != [] && content == JoinBy(pieces, text)
    ensures EditResult(content, oldText, newText, true) == Edited(JoinBy(pieces, newText), |pieces| - 1)
    ensures forall k :: 0 <= k < |pieces| ==> Free(pieces[k], text)
  {
    text := if Count(content, oldText) > 0 then oldText else Stripped(oldText).value;
    pieces := Pieces(content, text);
    PiecesReplaced(content, text, text);
    ReplacedBySame(content, text);
    PiecesReplaced(content, text, newText);
    PiecesCount(content, text);
    PiecesFree(content, text);
  }

  // --------------------------------------------------------- when it succeeds

  /** Exactly one window of lines is the text up to surrounding white space. */
  ghost predicate OneWindow(content: string, text: string) {
    exists i: nat :: OnlyMatch(Trimmed(Split(content)), Trimmed(Block(text)), i)
  }

  /** The text can be replaced: as it stands, once or all over; or, once only, up to white
      space when it stands nowhere. */
  ghost predicate Replaceable(content: string, text: string, all: bool)
    requires text != ""
  {
    if Occurs(content, text) then all || Count(content, text) == 1 else !all && OneWindow(content, text)
  }

  lemma {:induction false} RungExactly(content: string, text: string, newText: string, all: bool, n: nat)
    requires text != ""
    ensures Rung(content, text, newText, all).Edited? <==> Replaceable(content, text, all)
    ensures Rung(content, text, newText, all).Ambiguous? <==> Occurs(content, text) && !Replaceable(content, text, all)
    ensures Rung(content, text, newText, all) == Ambiguous(n) <==> !all && n > 1 && Count(content, text) == n
  {
    CountPositive(content, text);
  }

  /** Without its line numbers it is another text. */
  predicate Unnumbered(text: string, bare: string) { Stripped(text) == Some(bare) && bare != text }

  lemma {:induction false} RungsInTurn(content: string, oldText: string, newText: string, all: bool, bare: string,
                                       first: Outcome, second: Outcome)
    requires oldText != "" && Unnumbered(oldText, bare)
    ensures bare != ""
    ensures first == Rung(content, oldText, newText, all) && second == Rung(content, bare, newText, all) ==>
      EditResult(content, oldText, newText, all) == if first.Missing? then second else first
  {
    StrippedSome(oldText);
  }

  lemma {:induction false} EitherRung(content: string, oldText: string, bare: string, all: bool, first: Outcome,
                                      second: Outcome)
    requires oldText != "" && bare != ""
    requires first.Edited? <==> Replaceable(content, oldText, all)
    requires first.Ambiguous? <==> Occurs(content, oldText) && !Replaceable(content, oldText, all)
    requires second.Edited? <==> Replaceable(content, bare, all)
    ensures (if first.Missing? then second else first).Edited? <==>
      Replaceable(content, oldText, all) || (!Occurs(content, oldText) && Replaceable(content, bare, all))
  {}

  /** An edit with line numbers succeeds exactly when the text can be replaced as it is; or
      when it stands nowhere, and can be without them. */
  lemma {:induction false} NumberedEditExactly(content: string, oldText: string, newText: string, all: bool,
                                               bare: string)
    requires oldText != "" && Unnumbered(oldText, bare)
    ensures bare != ""
    ensures EditResult(content, oldText, newText, all).Edited? <==>
      Replaceable(content, oldText, all) || (!Occurs(content, oldText) && Replaceable(content, bare, all))
  {
    StrippedSome(oldText);
    var first, second := Rung(content, oldText, newText, all), Rung(content, bare, newText, all);
    RungsInTurn(content, oldText, newText, all, bare, first, second);
    RungExactly(content, oldText, newText, all, 0);
    RungExactly(content, bare, newText, all, 0);
    EitherRung(content, oldText, bare, all, first, second);
  }

  /** Any other edit succeeds exactly when the text can be replaced, and is ambiguous exactly
      when it stands more than once and is to be replaced once. */
  lemma {:induction false} PlainEditExactly(content: string, oldText: string, newText: string, all: bool, n: nat)
    requires oldText != "" && forall bare :: !Unnumbered(oldText, bare)
    ensures EditResult(content, oldText, newText, all).Edited? <==> Replaceable(content, oldText, all)
    ensures EditResult(content, oldText, newText, all) == Ambiguous(n) <==>
      !all && n > 1 && Count(content, oldText) == n
  {
    if Stripped(oldText).Some? { assert !Unnumbered(oldText, Stripped(oldText).value); }
    RungExactly(content, oldText, newText, all, n);
  }
}
