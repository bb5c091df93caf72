/** Text helpers shared by the models: decimal rendering, the white-space tests of
    Go's `strings` package, and splitting and joining on newlines. */
module Text {

  datatype Option<+T> = None | Some(value: T)

  // ---------------------------------------------------------------- decimals

  predicate IsDigit(c: char) { '0' <= c <= '9' }

  /** The unpadded decimal rendering of `n` (Go's `%d`). */
  function Decimal(n: nat): (s: string)
    ensures |s| > 0
    ensures forall i :: 0 <= i < |s| ==> IsDigit(s[i])
  {
    if n < 10 then [('0' as int + n) as char]
    else Decimal(n / 10) + [('0' as int + n % 10) as char]
  }

  /** The number a run of digits denotes. */
  function DecimalValue(s: string): (n: nat)
    requires forall i :: 0 <= i < |s| ==> IsDigit(s[i])
  {
    if s == [] then 0
    else
      assert IsDigit(s[|s| - 1]);
      DecimalValue(s[..|s| - 1]) * 10 + (s[|s| - 1] as int - '0' as int)
  }

  lemma {:induction false} DecimalRoundTrip(n: nat)
    ensures DecimalValue(Decimal(n)) == n
  {
    if n < 10 {
      assert Decimal(n)[..0] == [];
    } else {
      DecimalRoundTrip(n / 10);
      assert Decimal(n)[..|Decimal(n)| - 1] == Decimal(n / 10);
    }
  }

  // ------------------------------------------------------------- white space

  /** The code points Go's `unicode.IsSpace` accepts. */
  predicate IsSpace(c: char) {
    || c == ' ' || '\t' <= c <= '\r'
    || c == 0x85 as char || c == 0xA0 as char || c == 0x1680 as char
    || 0x2000 as char <= c <= 0x200A as char
    || c == 0x2028 as char || c == 0x2029 as char
    || c == 0x202F as char || c == 0x205F as char || c == 0x3000 as char
  }

  /** `strings.TrimSpace(s) == ""`. */
  predicate Blank(s: string) { forall i :: 0 <= i < |s| ==> IsSpace(s[i]) }

  function TrimLeftSpace(s: string): (t: string)
    ensures |t| <= |s| && t == s[|s| - |t|..]
    ensures t != [] ==> !IsSpace(t[0])
  {
    if s == [] || !IsSpace(s[0]) then s else TrimLeftSpace(s[1..])
  }

  function TrimRightSpace(s: string): (t: string)
    ensures |t| <= |s| && t == s[..|t|]
    ensures t != [] ==> !IsSpace(t[|t| - 1])
  {
    if s == [] || !IsSpace(s[|s| - 1]) then s else TrimRightSpace(s[..|s| - 1])
  }

  function TrimSpace(s: string): (t: string) {
    TrimRightSpace(TrimLeftSpace(s))
  }

  /** Every line mapped. */
  function Mapped(f: string -> string, lines: seq<string>): (r: seq<string>)
    ensures |r| == |lines|
  {
    seq(|lines|, i requires 0 <= i < |lines| => f(lines[i]))
  }

  lemma {:induction false} MappedSlice(f: string -> string, lines: seq<string>, i: nat, j: nat)
    requires i <= j <= |lines|
    ensures Mapped(f, lines[i..j]) == Mapped(f, lines)[i..j]
  {}

  // --------------------------------------------------------- parts of a text

  predicate EndsIn(s: string, tail: string) { |tail| <= |s| && s[|s| - |tail|..] == tail }

  predicate StandsAt(s: string, part: string, k: nat) { k + |part| <= |s| && s[k..k + |part|] == part }

  ghost predicate Contains(s: string, part: string) { exists k: nat :: StandsAt(s, part, k) }

  lemma {:induction false} ContainsMiddle(before: string, part: string, after: string)
    ensures Contains(before + part + after, part)
  {
    assert StandsAt(before + part + after, part, |before|);
  }

  // --------------------------------------------------------- lines of a text

  predicate OneLine(s: string) { '\n' !in s }

  /** `strings.Split(s, "\n")`: never empty. */
  function Split(s: string): (lines: seq<string>)
    ensures |lines| >= 1
    ensures forall i :: 0 <= i < |lines| ==> OneLine(lines[i])
  {
    if s == [] then [[]]
    else
      var rest := Split(s[1..]);
      if s[0] == '\n' then [[]] + rest
      else [[s[0]] + rest[0]] + rest[1..]
  }

  /** The lines of a pasted block: a final newline adds none. */
  function Block(s: string): (lines: seq<string>)
    ensures |lines| >= 1
  {
    var l := Split(s);
    if |l| > 1 && l[|l| - 1] == "" then l[..|l| - 1] else l
  }

  /** `strings.Join(lines, "\n")`. */
  function Join(lines: seq<string>): (s: string) {
    if lines == [] then []
    else if |lines| == 1 then lines[0]
    else lines[0] + "\n" + Join(lines[1..])
  }

  /** Splitting loses nothing. */
  lemma {:induction false} JoinSplit(s: string)
    ensures Join(Split(s)) == s
  {
    if s != [] {
      JoinSplit(s[1..]);
      var rest := Split(s[1..]);
      if s[0] == '\n' {
        assert Split(s)[1..] == rest;
        assert Join(Split(s)) == [] + "\n" + s[1..];
      } else {
        assert Split(s)[1..] == rest[1..];
        assert Join(Split(s)) == [s[0]] + s[1..];
      }
    }
  }

  /** Splitting one line followed by a newline peels that line off. */
  lemma {:induction false} SplitLine(l: string, s: string)
    requires OneLine(l)
    ensures Split(l + "\n" + s) == [l] + Split(s)
  {
    if l == [] {
      assert l + "\n" + s == "\n" + s;
      assert ("\n" + s)[1..] == s;
    } else {
      var t := l + "\n" + s;
      assert t[1..] == l[1..] + "\n" + s;
      SplitLine(l[1..], s);
      assert [t[0]] + l[1..] == l;
    }
  }

  lemma {:induction false} SplitOneLine(l: string)
    requires OneLine(l)
    ensures Split(l) == [l]
  {
    if l != [] {
      SplitOneLine(l[1..]);
      assert [l[0]] + l[1..] == l;
    }
  }

  /** Joining newline-free lines and splitting again gives the same lines. */
  lemma {:induction false} SplitJoin(lines: seq<string>)
    requires |lines| >= 1
    requires forall i :: 0 <= i < |lines| ==> OneLine(lines[i])
    ensures Split(Join(lines)) == lines
  {
    if |lines| == 1 {
      SplitOneLine(lines[0]);
    } else {
      SplitJoin(lines[1..]);
      SplitLine(lines[0], Join(lines[1..]));
    }
  }

  lemma {:induction false} JoinConcat(a: seq<string>, b: seq<string>)
    requires a != [] && b != []
    ensures Join(a + b) == Join(a) + "\n" + Join(b)
  {
    if |a| == 1 {
      assert (a + b)[1..] == b;
    } else {
      JoinConcat(a[1..], b);
      assert (a + b)[1..] == a[1..] + b;
    }
  }
}
