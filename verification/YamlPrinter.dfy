/**
 A printer for the trees the loader's YAML subset can express, in block style: plain keys, quoted
 strings, block lists of scalars, literal texts, mappings at any depth.
 */
module YamlPrinter {
  import opened YamlText

  datatype Atom = ANull | ABool(b: bool) | AInt(n: int) | AStr(s: string)

  datatype Node = Scalar(a: Atom) | Items(items: seq<Atom>) | Text(lines: seq<string>) | Map(entries: seq<Entry>)
  datatype Entry = Entry(key: string, node: Node)

  // ---------------------------------------------------------------------
  // What a tree means
  // ---------------------------------------------------------------------

  function AtomValue(a: Atom): Value {
    match a
    case ANull => Null
    case ABool(b) => Bool(b)
    case AInt(n) => Int(n)
    case AStr(s) => Str(s)
  }

  function AtomValues(items: seq<Atom>): (r: seq<Value>)
    ensures |r| == |items|
  {
    seq(|items|, i requires 0 <= i < |items| => AtomValue(items[i]))
  }

  function NodeValue(n: Node): Value
    decreases n, 1
  {
    match n
    case Scalar(a) => AtomValue(a)
    case Items(items) => List(AtomValues(items))
    case Text(lines) => Str(JoinLines(lines))
    case Map(entries) => Dict(Overlay(map[], entries))
  }

  /** The mapping m with the entries written over it in order. */
  function Overlay(m: map<string, Value>, entries: seq<Entry>): map<string, Value>
    decreases entries, 0
  {
    if entries == [] then m
    else Overlay(m[entries[0].key := NodeValue(entries[0].node)], entries[1..])
  }

  // ---------------------------------------------------------------------
  // What can be printed
  // ---------------------------------------------------------------------

  predicate Tight(s: string) {
    s != [] && !IsSpace(s[0]) && !IsSpace(s[|s| - 1])
  }

  /** A key that needs no quotes. */
  predicate PlainKey(k: string) {
    Tight(k) && OneLine(k) && NoneOf(k, {':', '#', '\'', '"'}) && !StartsWith(k, "- ")
  }

  /** A string that one kind of quotes can hold. */
  predicate Quotable(s: string) {
    OneLine(s) && (NoneOf(s, {'"'}) || NoneOf(s, {'\''}))
  }

  predicate AtomOk(a: Atom) {
    a.AStr? ==> Quotable(a.s)
  }

  /** Literal text: no line of white space only, and no empty line at the end. */
  predicate TextOk(lines: seq<string>) {
    && (forall i :: 0 <= i < |lines| ==> OneLine(lines[i]) && (lines[i] == [] || !Blank(lines[i])))
    && (lines != [] ==> lines[|lines| - 1] != [])
  }

  predicate NodeOk(n: Node)
    decreases n, 1
  {
    match n
    case Scalar(a) => AtomOk(a)
    case Items(items) => forall i :: 0 <= i < |items| ==> AtomOk(items[i])
    case Text(lines) => TextOk(lines)
    case Map(entries) => EntriesOk(entries)
  }

  predicate EntriesOk(entries: seq<Entry>)
    decreases entries, 0
  {
    entries == [] || (PlainKey(entries[0].key) && NodeOk(entries[0].node) && EntriesOk(entries[1..]))
  }

  // ---------------------------------------------------------------------
  // The printer
  // ---------------------------------------------------------------------

  function Decimal(n: int): string {
    if n < 0 then "-" + Digits(-n) else Digits(n)
  }

  function QuoteFor(s: string): (q: char)
    ensures q == '"' || q == '\''
    ensures Quotable(s) ==> NoneOf(s, {q})
  {
    if NoneOf(s, {'"'}) then '"' else '\''
  }

  function AtomText(a: Atom): string {
    match a
    case ANull => "null"
    case ABool(b) => if b then "true" else "false"
    case AInt(n) => Decimal(n)
    case AStr(s) => [QuoteFor(s)] + s + [QuoteFor(s)]
  }

  /** "key:" or "key: text". */
  function KeyText(key: string, text: string): string {
    if text == [] then key + ":" else key + ":" + " " + text
  }

  function KeyLine(d: nat, key: string, text: string): string {
    Blanks(d) + KeyText(key, text)
  }

  function ItemLine(d: nat, a: Atom): string {
    Blanks(d) + ("- " + AtomText(a))
  }

  function ItemLines(d: nat, items: seq<Atom>): (r: seq<string>)
    ensures |r| == |items|
  {
    seq(|items|, i requires 0 <= i < |items| => ItemLine(d, items[i]))
  }

  function TextLine(d: nat, line: string): string {
    if line == [] then [] else Blanks(d) + line
  }

  function TextLines(d: nat, lines: seq<string>): (r: seq<string>)
    ensures |r| == |lines|
  {
    seq(|lines|, i requires 0 <= i < |lines| => TextLine(d, lines[i]))
  }

  function PrintEntry(e: Entry, d: nat): (r: seq<string>)
    ensures r != []
    decreases e.node, 1
  {
    match e.node
    case Scalar(a) => [KeyLine(d, e.key, AtomText(a))]
    case Items(items) => if items == [] then [KeyLine(d, e.key, "[]")]
                         else [KeyLine(d, e.key, "")] + ItemLines(d + 2, items)
    case Text(lines) => [KeyLine(d, e.key, "|")] + TextLines(d + 2, lines)
    case Map(entries) => [KeyLine(d, e.key, "")] + Print(entries, d + 2)
  }

  function Print(entries: seq<Entry>, d: nat): seq<string>
    decreases entries, 0
  {
    if entries == [] then [] else PrintEntry(entries[0], d) + Print(entries[1..], d)
  }

  // ---------------------------------------------------------------------
  // Scalars read back
  // ---------------------------------------------------------------------

  lemma QuotedReads(s: string)
    requires Quotable(s)
    ensures var t := AtomText(AStr(s));
            ValueText(t) && ParseScalar(t) == Str(s) && (t[0] == '"' || t[0] == '\'')
  {
    hide ParseBare;
    hide Strip;
    hide CommentAt;
    hide OneLine;
    hide IsSpace;
    var q := QuoteFor(s);
    var t := [q] + s + [q];
    QuotesAreNoSpace(q);
    StripTight(t);
    BareQuoted(t, q);
    assert t[1..|t| - 1] == s;
    QuotedHasNoComment(s, q);
  }

  lemma QuotesAreNoSpace(q: char)
    requires q == '"' || q == '\''
    ensures !IsSpace(q)
  {
  }

  lemma NumberReads(n: int)
    ensures var t := Decimal(n);
            ValueText(t) && ParseScalar(t) == Int(n) && NoneOf(t, {':'})
  {
    hide ParseBare;
    hide Strip;
    hide NatOf;
    hide CommentAt;
    hide ValueText;
    var t := Decimal(n);
    assert Unsigned(t) == Digits(if n < 0 then -n else n);
    NumberIsPlain(n);
    StripTight(t);
    BareInt(t);
    PlainText(t);
  }

  lemma NumberIsPlain(n: int)
    ensures var t := Decimal(n);
            Tight(t) && NoneOf(t, {':', '#', '\'', '"'}) && t != "|" && t != ">"
  {
    hide NatOf;
    hide Digits;
    var t := Decimal(n);
    assert forall i :: 0 <= i < |t| ==> t[i] == '-' || IsDigit(t[i]);
  }

  lemma WordIsPlain(t: string)
    requires t == "null" || t == "true" || t == "false"
    ensures Tight(t) && NoneOf(t, {':', '#', '\'', '"'}) && t != "|" && t != ">"
  {
  }

  lemma WordReads(t: string, v: Value)
    requires (t == "null" && v == Null) || (t == "true" && v == Bool(true)) || (t == "false" && v == Bool(false))
    ensures ValueText(t) && ParseScalar(t) == v && NoneOf(t, {':'})
  {
    hide ParseBare;
    hide Strip;
    hide IsSpace;
    hide ValueText;
    WordIsPlain(t);
    StripTight(t);
    BareWord(t, v);
    PlainText(t);
  }

  /** Text that a value may be printed as after "key: " or "- ". */
  predicate ValueText(t: string) {
    Tight(t) && CommentAt(t, false, false) == |t| && t != "|" && t != ">"
  }

  lemma PlainText(t: string)
    requires Tight(t) && NoneOf(t, {'#', '\'', '"'}) && t != "|" && t != ">"
    ensures ValueText(t)
  {
    PlainPrefix(t, [], false, false);
    assert t + [] == t;
  }

  lemma AtomReads(a: Atom)
    requires AtomOk(a)
    ensures ValueText(AtomText(a)) && ParseScalar(AtomText(a)) == AtomValue(a)
    ensures NoneOf(AtomText(a), {':'}) || AtomText(a)[0] == '"' || AtomText(a)[0] == '\''
  {
    hide ParseScalar;
    hide Decimal;
    hide CommentAt;
    match a
    case AStr(s) => QuotedReads(s);
    case AInt(n) => NumberReads(n);
    case ABool(b) => WordReads(if b then "true" else "false", Bool(b));
    case ANull => WordReads("null", Null);
  }

  lemma EmptyListReads(t: string)
    requires t == "[]"
    ensures ValueText(t) && ParseScalar(t) == List([])
  {
    hide ParseBare;
    hide Strip;
    StripTight(t);
    BareEmptyList(t);
    PlainText(t);
  }
}
