/**
 The string operations the charter loader is built from: strip, splitlines, comment removal, and the
 scalars of its YAML subset.
 */
module YamlText {

  datatype Value =
    | Null
    | Bool(b: bool)
    | Int(n: int)
    | Float(text: string)
    | Str(s: string)
    | List(items: seq<Value>)
    | Dict(entries: map<string, Value>)

  // ---------------------------------------------------------------------
  // Characters and stripping
  // ---------------------------------------------------------------------

  /** What str.splitlines breaks a line at. */
  predicate IsBreak(c: char) {
    || c == '\n' || c == '\r' || c == '\U{0B}' || c == '\U{0C}' || '\U{1C}' <= c <= '\U{1E}'
    || c == '\U{85}' || c == '\U{2028}' || c == '\U{2029}'
  }

  /** What str.strip removes. */
  predicate IsSpace(c: char) {
    || IsBreak(c) || c == ' ' || c == '\t' || c == '\U{1F}' || c == '\U{A0}' || c == '\U{1680}'
    || '\U{2000}' <= c <= '\U{200A}' || c == '\U{202F}' || c == '\U{205F}' || c == '\U{3000}'
  }

  function LStrip(s: string): (r: string)
    ensures |r| <= |s| && r == s[|s| - |r|..]
    ensures r != [] ==> !IsSpace(r[0])
  {
    if s == [] || !IsSpace(s[0]) then s else LStrip(s[1..])
  }

  function RStrip(s: string): (r: string)
    ensures |r| <= |s| && r == s[..|r|]
    ensures r != [] ==> !IsSpace(r[|r| - 1])
  {
    if s == [] || !IsSpace(s[|s| - 1]) then s else RStrip(s[..|s| - 1])
  }

  function Strip(s: string): (r: string)
    ensures |r| <= |s|
  {
    RStrip(LStrip(s))
  }

  /** str.lstrip(" "). */
  function LStripBlanks(s: string): (r: string)
    ensures |r| <= |s|
  {
    if s == [] || s[0] != ' ' then s else LStripBlanks(s[1..])
  }

  function Indent(s: string): nat {
    |s| - |LStripBlanks(s)|
  }

  predicate Blank(s: string) {
    Strip(s) == []
  }

  function Blanks(n: nat): (r: string)
    ensures |r| == n
    ensures forall i :: 0 <= i < n ==> r[i] == ' '
  {
    seq(n, i => ' ')
  }

  predicate StartsWith(s: string, p: string) {
    p <= s
  }

  predicate EndsWith(s: string, p: string) {
    |p| <= |s| && s[|s| - |p|..] == p
  }

  predicate NoneOf(s: string, cs: set<char>) {
    forall i :: 0 <= i < |s| ==> s[i] !in cs
  }

  predicate OneLine(s: string) {
    forall i :: 0 <= i < |s| ==> !IsBreak(s[i])
  }

  // ---------------------------------------------------------------------
  // Lines
  // ---------------------------------------------------------------------

  function FirstBreak(s: string): (k: nat)
    ensures k <= |s| && OneLine(s[..k]) && (k < |s| ==> IsBreak(s[k]))
  {
    if s == [] || IsBreak(s[0]) then 0 else 1 + FirstBreak(s[1..])
  }

  /** str.splitlines: CR LF is one break, and a break at the end opens no further line. */
  function SplitLines(text: string): seq<string> {
    if text == [] then []
    else
      var k := FirstBreak(text);
      if k == |text| then [text]
      else
        var width := if text[k] == '\r' && k + 1 < |text| && text[k + 1] == '\n' then 2 else 1;
        [text[..k]] + SplitLines(text[k + width..])
  }

  function Unlines(lines: seq<string>): string {
    if lines == [] then [] else lines[0] + "\n" + Unlines(lines[1..])
  }

  /** "\n".join(lines). */
  function JoinLines(lines: seq<string>): string {
    if lines == [] then [] else if |lines| == 1 then lines[0] else lines[0] + "\n" + JoinLines(lines[1..])
  }

  lemma {:induction false} FirstBreakAt(a: string, b: string)
    requires OneLine(a)
    ensures FirstBreak(a + "\n" + b) == |a|
  {
    if a == [] {
      assert (a + "\n" + b)[0] == '\n';
    } else {
      FirstBreakAt(a[1..], b);
      assert (a + "\n" + b)[1..] == a[1..] + "\n" + b;
    }
  }

  lemma SplitFirst(line: string, rest: string)
    requires OneLine(line)
    ensures SplitLines(line + "\n" + rest) == [line] + SplitLines(rest)
  {
    hide FirstBreak;
    hide OneLine;
    hide IsBreak;
    FirstBreakAt(line, rest);
    var text := line + "\n" + rest;
    assert text[..|line|] == line && text[|line| + 1..] == rest && text[|line|] == '\n';
  }

  /** splitlines undoes the terminating of lines by newlines. */
  lemma {:induction false} SplitUnlines(lines: seq<string>)
    requires forall i :: 0 <= i < |lines| ==> OneLine(lines[i])
    ensures SplitLines(Unlines(lines)) == lines
    decreases |lines|, 0
  {
    hide OneLine;
    hide FirstBreak;
    if lines == [] {
    } else {
      SplitTail(lines[0], Unlines(lines[1..]), lines[1..], lines);
    }
  }

  lemma {:induction false} SplitTail(line: string, text: string, rest: seq<string>, lines: seq<string>)
    requires lines == [line] + rest && text == Unlines(rest)
    requires forall i :: 0 <= i < |lines| ==> OneLine(lines[i])
    ensures SplitLines(line + "\n" + text) == lines
    decreases |rest|, 1
  {
    hide OneLine;
    hide SplitLines;
    assert OneLine(lines[0]) && lines[1..] == rest;
    forall i | 0 <= i < |rest|
      ensures OneLine(rest[i])
    {
      assert rest[i] == lines[i + 1];
    }
    SplitFirst(line, text);
    SplitUnlines(rest);
  }

  // ---------------------------------------------------------------------
  // Comments
  // ---------------------------------------------------------------------

  /** Where the comment of s starts, or |s|; quotes of either kind hide a '#'. */
  function CommentAt(s: string, inSingle: bool, inDouble: bool): (k: nat)
    ensures k <= |s|
  {
    if s == [] then 0
    else if s[0] == '\'' && !inDouble then 1 + CommentAt(s[1..], !inSingle, inDouble)
    else if s[0] == '"' && !inSingle then 1 + CommentAt(s[1..], inSingle, !inDouble)
    else if s[0] == '#' && !inSingle && !inDouble then 0
    else 1 + CommentAt(s[1..], inSingle, inDouble)
  }

  function StripComment(line: string): string {
    RStrip(line[..CommentAt(line, false, false)])
  }

  /** _strip_comment, character by character. */
  method StripCommentLoop(line: string) returns (r: string)
    ensures r == StripComment(line)
  {
    var inSingle, inDouble := false, false;
    var out: string := [];
    var i := 0;
    while i < |line|
      invariant 0 <= i <= |line| && out == line[..i]
      invariant CommentAt(line, false, false) == i + CommentAt(line[i..], inSingle, inDouble)
    {
      var ch := line[i];
      assert line[i..][1..] == line[i + 1..];
      if ch == '\'' && !inDouble {
        inSingle := !inSingle;
      } else if ch == '"' && !inSingle {
        inDouble := !inDouble;
      } else if ch == '#' && !inSingle && !inDouble {
        break;
      }
      out := out + [ch];
      i := i + 1;
    }
    r := RStrip(out);
  }

  /** A stretch of text without quotes and without '#' neither starts a comment nor changes the quoting. */
  lemma {:induction false} PlainPrefix(a: string, b: string, inSingle: bool, inDouble: bool)
    requires NoneOf(a, {'#', '\'', '"'})
    ensures CommentAt(a + b, inSingle, inDouble) == |a| + CommentAt(b, inSingle, inDouble)
  {
    if a == [] {
      assert a + b == b;
    } else {
      assert (a + b)[1..] == a[1..] + b;
      PlainPrefix(a[1..], b, inSingle, inDouble);
    }
  }

  /** Neither does a quoted string: whatever is inside the quotes is skipped. */
  lemma {:induction false} InsideQuotes(s: string, q: char, b: string)
    requires (q == '"' || q == '\'') && NoneOf(s, {q})
    ensures CommentAt(s + [q] + b, q == '\'', q == '"') == |s| + 1 + CommentAt(b, false, false)
  {
    if s == [] {
      assert (s + [q] + b)[1..] == b;
    } else {
      assert (s + [q] + b)[1..] == s[1..] + [q] + b;
      InsideQuotes(s[1..], q, b);
    }
  }

  lemma QuotedHasNoComment(s: string, q: char)
    requires (q == '"' || q == '\'') && NoneOf(s, {q})
    ensures CommentAt([q] + s + [q], false, false) == |s| + 2
  {
    InsideQuotes(s, q, []);
    var t := [q] + s + [q];
    assert t[1..] == s + [q] + [];
  }

  // ---------------------------------------------------------------------
  // Scalars
  // ---------------------------------------------------------------------

  function LowerChar(c: char): char {
    if 'A' <= c <= 'Z' then c - 'A' + 'a' else c
  }

  function Lower(s: string): (r: string)
    ensures |r| == |s| && forall i :: 0 <= i < |s| ==> r[i] == LowerChar(s[i])
  {
    seq(|s|, i requires 0 <= i < |s| => LowerChar(s[i]))
  }

  predicate IsDigit(c: char) {
    '0' <= c <= '9'
  }

  predicate AllDigits(s: string) {
    s != [] && forall i :: 0 <= i < |s| ==> IsDigit(s[i])
  }

  function Unsigned(s: string): string {
    if s != [] && s[0] == '-' then s[1..] else s
  }

  /** -?\d+ */
  predicate IsInt(s: string) {
    AllDigits(Unsigned(s))
  }

  /** -?\d+\.\d+ */
  predicate IsFloat(s: string) {
    var u := Unsigned(s);
    exists k :: 0 <= k < |u| && u[k] == '.' && AllDigits(u[..k]) && AllDigits(u[k + 1..])
  }

  function DigitOf(c: char): (d: nat)
    requires IsDigit(c)
    ensures d < 10
  {
    (c as int) - ('0' as int)
  }

  function NatOf(s: string): nat
    requires forall i :: 0 <= i < |s| ==> IsDigit(s[i])
  {
    if s == [] then 0 else 10 * NatOf(s[..|s| - 1]) + DigitOf(s[|s| - 1])
  }

  function DigitChar(d: nat): (c: char)
    requires d < 10
    ensures IsDigit(c) && DigitOf(c) == d
  {
    '0' + (d as char)
  }

  function Digits(n: nat): (s: string)
    ensures AllDigits(s) && NatOf(s) == n
  {
    if n < 10 then
      var s := [DigitChar(n)];
      assert s[..0] == [];
      s
    else
      var s := Digits(n / 10) + [DigitChar(n % 10)];
      assert s[..|s| - 1] == Digits(n / 10);
      s
  }

  function IntOf(s: string): int
    requires IsInt(s)
  {
    if s[0] == '-' then 0 - NatOf(s[1..]) else NatOf(s)
  }

  /** s[1:-1], which is empty for a single character. */
  function Inner(s: string): (r: string)
    requires s != []
    ensures |r| < |s|
  {
    if |s| == 1 then [] else s[1..|s| - 1]
  }

  predicate Quoted(s: string) {
    || (StartsWith(s, "\"") && EndsWith(s, "\""))
    || (StartsWith(s, "'") && EndsWith(s, "'"))
  }

  function IndexOf(s: string, c: char): (k: nat)
    ensures k <= |s| && (forall i :: 0 <= i < k ==> s[i] != c) && (k < |s| ==> s[k] == c)
  {
    if s == [] || s[0] == c then 0 else 1 + IndexOf(s[1..], c)
  }

  /** s.split(c). */
  function Split(s: string, c: char): (r: seq<string>)
    ensures forall i :: 0 <= i < |r| ==> |r[i]| <= |s|
  {
    var k := IndexOf(s, c);
    if k == |s| then [s] else [s[..k]] + Split(s[k + 1..], c)
  }

  function StripAll(parts: seq<string>): (r: seq<string>)
    ensures |r| == |parts| && forall i :: 0 <= i < |r| ==> |r[i]| <= |parts[i]|
  {
    seq(|parts|, i requires 0 <= i < |parts| => Strip(parts[i]))
  }

  /** _parse_scalar. */
  function ParseScalar(raw: string): Value
    decreases |raw|, 2
  {
    ParseBare(Strip(raw))
  }

  /** ... once the text has been stripped. */
  function ParseBare(s: string): Value
    decreases |s|, 1
  {
    if s == "" || s == "~" || Lower(s) == "null" then Null
    else if Lower(s) == "true" then Bool(true)
    else if Lower(s) == "false" then Bool(false)
    else if Quoted(s) then Str(Inner(s))
    else if IsInt(s) then Int(IntOf(s))
    else if IsFloat(s) then Float(s)
    else if StartsWith(s, "[") && EndsWith(s, "]") then
      var inner := Strip(Inner(s));
      if inner == [] then List([]) else List(ParseScalars(StripAll(Split(inner, ',')), |inner|))
    else Str(s)
  }

  function ParseScalars(parts: seq<string>, bound: nat): seq<Value>
    requires forall i :: 0 <= i < |parts| ==> |parts[i]| <= bound
    decreases bound, 3, |parts|
  {
    if parts == [] then [] else [ParseScalar(parts[0])] + ParseScalars(parts[1..], bound)
  }

  // ---------------------------------------------------------------------
  // Facts about stripping
  // ---------------------------------------------------------------------

  /** A text that has no white space at either end is not touched by strip. */
  lemma StripTight(s: string)
    requires s != [] ==> !IsSpace(s[0]) && !IsSpace(s[|s| - 1])
    ensures LStrip(s) == s && RStrip(s) == s && Strip(s) == s
  {
  }

  /** Leading blanks are what LStrip, Strip and Indent see. */
  lemma {:induction false} IndentedLine(n: nat, s: string)
    requires s != [] && !IsSpace(s[0])
    ensures LStrip(Blanks(n) + s) == s && Indent(Blanks(n) + s) == n
    ensures LStripBlanks(Blanks(n) + s) == s
  {
    var t := Blanks(n) + s;
    if n == 0 {
      assert t == s;
    } else {
      assert t[1..] == Blanks(n - 1) + s;
      assert t[0] == ' ';
      IndentedLine(n - 1, s);
    }
  }

  lemma {:induction false} IndentAtLeast(n: nat, s: string)
    ensures Indent(Blanks(n) + s) >= n
  {
    var t := Blanks(n) + s;
    if n > 0 {
      assert t[1..] == Blanks(n - 1) + s && t[0] == ' ';
      IndentAtLeast(n - 1, s);
    }
  }

  lemma {:induction false} IndentKeepsText(n: nat, s: string)
    ensures LStrip(Blanks(n) + s) == LStrip(s)
  {
    var t := Blanks(n) + s;
    if n == 0 {
      assert t == s;
    } else {
      assert t[1..] == Blanks(n - 1) + s && t[0] == ' ';
      IndentKeepsText(n - 1, s);
    }
  }

  lemma RStripTight(s: string)
    requires s != [] && !IsSpace(s[|s| - 1])
    ensures RStrip(s) == s
  {
  }

  // ---------------------------------------------------------------------
  // Facts about scalars
  // ---------------------------------------------------------------------

  /** A word is told apart from null, true and false by its first letter. */
  lemma NotAWord(s: string)
    requires s != [] && LowerChar(s[0]) != 'n' && LowerChar(s[0]) != 't' && LowerChar(s[0]) != 'f'
    ensures Lower(s) != "null" && Lower(s) != "true" && Lower(s) != "false"
  {
    assert Lower(s)[0] == LowerChar(s[0]);
  }

  lemma BareQuoted(s: string, q: char)
    requires (q == '"' || q == '\'') && |s| >= 2 && s[0] == q && s[|s| - 1] == q
    ensures ParseBare(s) == Str(s[1..|s| - 1])
  {
    hide IsFloat;
    hide IsInt;
    hide Strip;
    NotAWord(s);
    assert s[|s| - 1..] == [q] && s[..1] == [q];
    if q == '"' {
      assert StartsWith(s, "\"") && EndsWith(s, "\"");
    } else {
      assert StartsWith(s, "'") && EndsWith(s, "'");
    }
  }

  lemma BareInt(s: string)
    requires IsInt(s)
    ensures ParseBare(s) == Int(IntOf(s))
  {
    hide IsFloat;
    hide Strip;
    hide NatOf;
    NotAWord(s);
    assert s[0] == '-' || IsDigit(s[0]);
    assert !Quoted(s);
  }

  lemma LowerBracket(c: char)
    requires c == '['
    ensures LowerChar(c) == c
  {
  }

  lemma NotANumber(s: string)
    requires s != [] && s[0] != '-' && !IsDigit(s[0])
    ensures !IsInt(s) && !IsFloat(s)
  {
    forall k | 0 <= k < |s| && s[k] == '.'
      ensures !AllDigits(s[..k])
    {
      if k > 0 {
        assert s[..k][0] == s[0];
      }
    }
  }

  lemma BareEmptyList(s: string)
    requires |s| == 2 && s[0] == '[' && s[1] == ']'
    ensures ParseBare(s) == List([])
  {
    hide NatOf;
    hide LowerChar;
    hide IsSpace;
    hide Lower;
    NotAWord(s) by {
      LowerBracket(s[0]);
    }
    NotANumber(s);
    assert !Quoted(s);
    assert s[..1] == "[" && s[1..] == "]" && Inner(s) == [];
    hide IsFloat;
    hide IsInt;
  }

  lemma BareWord(s: string, v: Value)
    requires (s == "null" && v == Null) || (s == "true" && v == Bool(true)) || (s == "false" && v == Bool(false))
    ensures ParseBare(s) == v
  {
    hide IsFloat;
    hide IsInt;
    hide Strip;
    assert Lower(s) == s;
  }
}
