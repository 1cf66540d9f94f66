/**
 The loader undoes the printer: for every printable tree, at any depth, loading its block-style text
 returns exactly that tree.
 */
module YamlRoundTrip {
  import opened YamlText
  import opened YamlLoader
  import opened YamlPrinter

  // ---------------------------------------------------------------------
  // One printed line
  // ---------------------------------------------------------------------

  /** Content that stands alone on a line: tight, and no comment starts in it. */
  predicate Content(c: string) {
    Tight(c) && CommentAt(c, false, false) == |c| && c[0] != '#'
  }

  /** What strip, lstrip and the indentation see of "<blanks>content". */
  lemma PlainLine(raw: string, d: nat, content: string)
    requires raw == Blanks(d) + content && Content(content)
    ensures !Ignorable(raw) && !Blank(raw)
    ensures StripComment(raw) == raw && Indent(raw) == d && Strip(raw) == content
  {
    hide IsSpace;
    hide LStrip;
    hide RStrip;
    hide CommentAt;
    hide LStripBlanks;
    IndentedLine(d, content);
    StripTight(content);
    CommentFree(raw, d, content);
    assert raw[..|raw|] == raw;
    assert raw[|raw| - 1] == content[|content| - 1];
    RStripTight(raw);
  }

  lemma BlanksArePlain(d: nat)
    ensures NoneOf(Blanks(d), {'#', '\'', '"'})
  {
  }

  lemma CommentFree(raw: string, d: nat, content: string)
    requires raw == Blanks(d) + content && CommentAt(content, false, false) == |content|
    ensures CommentAt(raw, false, false) == |raw|
  {
    hide CommentAt;
    hide Blanks;
    hide NoneOf;
    BlanksArePlain(d);
    PlainPrefix(Blanks(d), content, false, false);
  }

  lemma KeyContent(key: string, text: string)
    requires PlainKey(key) && (text == [] || ValueText(text) || text == "|")
    ensures var c := KeyText(key, text);
            Content(c) && !StartsWith(c, "- ") && HasColon(c) && KeyPart(c) == key && RestPart(c) == text
  {
    hide IsSpace;
    hide CommentAt;
    hide IndexOf;
    hide Strip;
    var c := KeyText(key, text);
    var tail := if text == [] then ":" else ": " + text;
    assert c == key + tail;
    KeyIndex(key, tail);
    assert c[..|key|] == key;
    StripTight(key);
    KeyEnds(key, text);
    KeyHasNoComment(key, text, tail);
    KeyIsNoItem(key, tail);
    RestIsText(key, text);
  }

  lemma RestIsText(key: string, text: string)
    requires text == [] || Tight(text)
    ensures var c := KeyText(key, text); Strip(c[|key| + 1..]) == text
  {
    var c := KeyText(key, text);
    if text == [] {
      assert c[|key| + 1..] == [];
    } else {
      assert c[|key| + 1..] == " " + text;
      BlankBefore(text);
    }
  }

  lemma KeyHasNoComment(key: string, text: string, tail: string)
    requires PlainKey(key) && (text == [] || ValueText(text) || text == "|")
    requires tail == if text == [] then ":" else ": " + text
    ensures CommentAt(key + tail, false, false) == |key + tail|
  {
    hide IsSpace;
    hide CommentAt;
    PlainPrefix(key, tail, false, false);
    ColonHasNoComment(text, tail);
  }

  lemma ColonHasNoComment(text: string, tail: string)
    requires text == [] || CommentAt(text, false, false) == |text| || text == "|"
    requires tail == if text == [] then ":" else ": " + text
    ensures CommentAt(tail, false, false) == |tail|
  {
    if text == [] {
      PlainPrefix(tail, [], false, false);
      assert tail + [] == tail;
    } else {
      if text == "|" {
        BarHasNoComment(text);
      }
      PlainPrefix(": ", text, false, false);
    }
  }

  lemma KeyIsNoItem(key: string, tail: string)
    requires key != [] && !StartsWith(key, "- ") && tail != [] && tail[0] == ':'
    ensures !StartsWith(key + tail, "- ")
  {
    var c := key + tail;
    if |key| == 1 {
      assert c[1] == ':';
    } else {
      assert c[0] == key[0] && c[1] == key[1];
      assert !("- " <= key);
    }
  }

  lemma {:induction false} KeyIndex(key: string, tail: string)
    requires NoneOf(key, {':'}) && tail != [] && tail[0] == ':'
    ensures IndexOf(key + tail, ':') == |key|
  {
    if key == [] {
      assert key + tail == tail;
    } else {
      assert (key + tail)[1..] == key[1..] + tail;
      KeyIndex(key[1..], tail);
    }
  }

  lemma KeyEnds(key: string, text: string)
    requires PlainKey(key) && (text == [] || Tight(text) || text == "|")
    ensures Tight(KeyText(key, text)) && KeyText(key, text)[0] == key[0]
  {
    var c := KeyText(key, text);
    assert c[0] == key[0];
    if text == [] {
      assert c[|c| - 1] == ':';
    } else {
      assert c[|c| - 1] == text[|text| - 1];
    }
  }

  lemma BlankBefore(text: string)
    requires Tight(text) || text == "|"
    ensures Strip(" " + text) == text
  {
    var t := " " + text;
    assert t[1..] == text && t[0] == ' ';
    StripTight(text);
    assert LStrip(t) == LStrip(text);
  }

  lemma BarHasNoComment(t: string)
    requires t == "|"
    ensures CommentAt(t, false, false) == |t|
  {
    PlainPrefix(t, [], false, false);
    assert t + [] == t;
  }

  /** A printed key line, as the loader reads it. */
  lemma KeyLineReads(lines: seq<string>, i: nat, d: nat, key: string, text: string)
    requires i < |lines| && lines[i] == KeyLine(d, key, text)
    requires PlainKey(key) && (text == [] || ValueText(text) || text == "|")
    ensures !Ignorable(lines[i]) && Indent(lines[i]) == d && !StartsWith(Strip(lines[i]), "- ")
    ensures text == [] ==> Read(lines, i) == KeyOpens(d, key, ListFollows(lines, i + 1, d))
    ensures text == "|" ==>
              Read(lines, i) == KeyValue(d, key, Str(BlockText(lines, i + 1, d + 2)), BlockEnd(lines, i + 1, d + 2))
    ensures text != [] && text != "|" ==> Read(lines, i) == KeyValue(d, key, ParseScalar(text), i + 1)
  {
    hide ParseScalar;
    hide BlockText;
    hide BlockEnd;
    hide ListFollows;
    hide KeyPart;
    hide RestPart;
    hide IndexOf;
    hide CommentAt;
    hide StripComment;
    hide Strip;
    hide Indent;
    hide Ignorable;
    var c := KeyText(key, text);
    KeyContent(key, text);
    PlainLine(lines[i], d, c);
    assert Read(lines, i) == ReadKey(lines, i + 1, d, c);
  }

  /** A printed list item, as the loader reads it. */
  lemma ItemLineReads(lines: seq<string>, i: nat, d: nat, a: Atom)
    requires i < |lines| && lines[i] == ItemLine(d, a) && AtomOk(a)
    ensures !Ignorable(lines[i]) && Indent(lines[i]) == d && StartsWith(Strip(lines[i]), "- ")
    ensures Read(lines, i) == Item(d, AtomValue(a))
  {
    hide ParseScalar;
    hide CommentAt;
    hide StripComment;
    hide Strip;
    hide Indent;
    hide Ignorable;
    hide AtomText;
    hide IsSpace;
    var t := AtomText(a);
    var c := "- " + t;
    AtomReads(a);
    ItemContent(t);
    PlainLine(lines[i], d, c);
    assert c[2..] == t && c[..2] == "- ";
    StripTight(t);
    ItemIsScalar(lines, i + 1, d, t);
  }

  lemma ItemContent(t: string)
    requires ValueText(t)
    ensures Content("- " + t)
  {
    var c := "- " + t;
    assert c[0] == '-' && c[|c| - 1] == t[|t| - 1];
    PlainPrefix("- ", t, false, false);
  }

  lemma ItemIsScalar(lines: seq<string>, i: nat, d: nat, t: string)
    requires i <= |lines| && t != []
    requires NoneOf(t, {':'}) || t[0] == '"' || t[0] == '\''
    ensures ReadItem(lines, i, d, t) == Item(d, ParseScalar(t))
  {
    hide ParseScalar;
    if t[0] == '"' {
      assert t[..1] == "\"";
    } else if t[0] == '\'' {
      assert t[..1] == "'";
    }
  }

  // ---------------------------------------------------------------------
  // Literal blocks
  // ---------------------------------------------------------------------

  /** Line j, if there is one, says something and is indented by at most d. */
  predicate Boundary(lines: seq<string>, j: nat, d: nat) {
    j <= |lines| && (j < |lines| ==> !Ignorable(lines[j]) && Indent(lines[j]) <= d)
  }

  predicate Holds(lines: seq<string>, i: nat, part: seq<string>) {
    i + |part| <= |lines| && lines[i..i + |part|] == part
  }

  lemma TextLineReads(m: nat, line: string)
    requires line == [] || !Blank(line)
    ensures BlockLine(TextLine(m, line), m) == line
    ensures Blank(TextLine(m, line)) || Indent(TextLine(m, line)) >= m
  {
    if line != [] {
      IndentKeepsText(m, line);
      IndentAtLeast(m, line);
      assert (Blanks(m) + line)[m..] == line;
    }
  }

  lemma {:induction false} BlockEnds(lines: seq<string>, i: nat, m: nat, text: seq<string>)
    requires Holds(lines, i, TextLines(m, text)) && m > 0 && Boundary(lines, i + |text|, m - 1)
    requires forall k :: 0 <= k < |text| ==> text[k] == [] || !Blank(text[k])
    ensures BlockEnd(lines, i, m) == i + |text|
    decreases |text|
  {
    hide Blank;
    hide Indent;
    if text == [] {
      BoundaryIsNoBlank(lines, i, m - 1);
    } else {
      var part := TextLines(m, text);
      assert lines[i] == part[0] == TextLine(m, text[0]);
      TextLineReads(m, text[0]);
      assert TextLines(m, text[1..]) == part[1..];
      assert lines[i + 1..i + 1 + |text[1..]|] == part[1..];
      BlockEnds(lines, i + 1, m, text[1..]);
    }
  }

  lemma BoundaryIsNoBlank(lines: seq<string>, i: nat, d: nat)
    requires Boundary(lines, i, d)
    ensures i < |lines| ==> !Blank(lines[i]) && Indent(lines[i]) <= d
  {
  }

  lemma LinesRead(m: nat, text: seq<string>)
    requires forall k :: 0 <= k < |text| ==> text[k] == [] || !Blank(text[k])
    ensures BlockLines(TextLines(m, text), m) == text
  {
    hide Blank;
    hide BlockLine;
    hide TextLine;
    forall k | 0 <= k < |text|
      ensures BlockLine(TextLine(m, text[k]), m) == text[k]
    {
      TextLineReads(m, text[k]);
    }
  }

  /** A printed literal text is read back line by line. */
  lemma BlockReads(lines: seq<string>, i: nat, m: nat, text: seq<string>)
    requires Holds(lines, i, TextLines(m, text)) && m > 0 && Boundary(lines, i + |text|, m - 1) && TextOk(text)
    ensures BlockEnd(lines, i, m) == i + |text|
    ensures BlockText(lines, i, m) == JoinLines(text)
  {
    hide Blank;
    hide BlockLines;
    hide TextLines;
    hide Boundary;
    hide BlockEnd;
    hide JoinLines;
    hide OneLine;
    BlockEnds(lines, i, m, text);
    LinesRead(m, text);
  }

  // ---------------------------------------------------------------------
  // Filling containers
  // ---------------------------------------------------------------------

  /** Reading back a reference depends only on the cells from it onwards. */
  lemma {:induction false} ResolveSame(a: seq<Cell>, b: seq<Cell>, r: nat)
    requires CellsOk(a) && CellsOk(b) && r < |a| <= |b|
    requires forall k :: r <= k < |a| ==> b[k] == a[k]
    ensures Resolve(a, r) == Resolve(b, r)
    decreases |a| - r
  {
    match a[r]
    case DictCell(m) =>
      assert CellOk(a[r], r, |a|);
      forall k | k in m
        ensures ResolveSlot(a, r, m[k]) == ResolveSlot(b, r, m[k])
      {
        if m[k].Ref? {
          ResolveSame(a, b, m[k].r);
        }
      }
    case ListCell(items) =>
      assert CellOk(a[r], r, |a|);
      forall k | 0 <= k < |items|
        ensures ResolveSlot(a, r, items[k]) == ResolveSlot(b, r, items[k])
      {
        if items[k].Ref? {
          ResolveSame(a, b, items[k].r);
        }
      }
  }

  /** Only the cell r, and cells made since, may differ. */
  ghost predicate OnlyCell(a: seq<Cell>, b: seq<Cell>, r: nat) {
    && CellsOk(a) && CellsOk(b) && r < |a| <= |b|
    && forall k :: 0 <= k < |a| && k != r ==> b[k] == a[k]
  }

  /** One more key in a dictionary, whatever happened to cells made since. */
  lemma KeySet(a: seq<Cell>, b: seq<Cell>, r: nat, key: string, s: Slot)
    requires OnlyCell(a, b, r) && a[r].DictCell? && SlotOk(s, r, |b|)
    requires b[r] == DictCell(a[r].entries[key := s])
    ensures Resolve(b, r) == Dict(Resolve(a, r).entries[key := ResolveSlot(b, r, s)])
  {
    var m := a[r].entries;
    assert CellOk(a[r], r, |a|);
    forall k | k in m && k != key
      ensures ResolveSlot(a, r, m[k]) == ResolveSlot(b, r, m[k])
    {
      if m[k].Ref? {
        ResolveSame(a, b, m[k].r);
      }
    }
  }

  /** The dictionary in cell r went from its old content to that content with the entries over it. */
  ghost predicate Filled(a: seq<Cell>, b: seq<Cell>, r: nat, entries: seq<Entry>) {
    && OnlyCell(a, b, r) && a[r].DictCell? && b[r].DictCell?
    && Resolve(b, r) == Dict(Overlay(Resolve(a, r).entries, entries))
  }

  lemma FilledMore(a: seq<Cell>, b: seq<Cell>, c: seq<Cell>, r: nat, e: Entry, rest: seq<Entry>)
    requires Filled(a, b, r, [e]) && Filled(b, c, r, rest)
    ensures Filled(a, c, r, [e] + rest)
  {
    assert ([e] + rest)[1..] == rest;
    var m := Resolve(a, r).entries;
    assert Overlay(m, [e]) == m[e.key := NodeValue(e.node)];
  }

  lemma FilledOne(a: seq<Cell>, b: seq<Cell>, r: nat, e: Entry, s: Slot)
    requires OnlyCell(a, b, r) && a[r].DictCell? && SlotOk(s, r, |b|)
    requires b[r] == DictCell(a[r].entries[e.key := s])
    requires ResolveSlot(b, r, s) == NodeValue(e.node)
    ensures Filled(a, b, r, [e])
  {
    KeySet(a, b, r, e.key, s);
    assert Overlay(Resolve(a, r).entries, [e]) == Resolve(a, r).entries[e.key := NodeValue(e.node)];
  }

  // ---------------------------------------------------------------------
  // The stack
  // ---------------------------------------------------------------------

  /** Above `base` there are only frames that a line indented by d closes. */
  ghost predicate Above(stack: seq<Frame>, base: seq<Frame>, d: nat) {
    && base != [] && base <= stack
    && base[|base| - 1].indent < d
    && forall k :: |base| <= k < |stack| ==> stack[k].indent >= d
  }

  lemma {:induction false} PopsToBase(stack: seq<Frame>, base: seq<Frame>, d: nat)
    requires Above(stack, base, d)
    ensures PopTo(stack, d) == base
  {
    if |stack| == |base| {
      assert stack == base;
    } else {
      PopsToBase(stack[..|stack| - 1], base, d);
    }
  }

  /** The loop is at line i, and the container to fill is the dictionary on top of `base`. */
  ghost predicate Filling(lines: seq<string>, st: State, base: seq<Frame>, d: nat) {
    && StateOk(st, |lines|) && CellsOk(st.cells) && Above(st.stack, base, d) && StackOk(base, |st.cells|)
    && st.cells[Top(base)].DictCell?
  }

  lemma RunOne(lines: seq<string>, st: State, next: State)
    requires StateOk(st, |lines|) && st.i < |lines| && Apply(st, Read(lines, st.i), |lines|) == Ok(next)
    ensures Run(lines, st) == Run(lines, next)
  {
  }

  // ---------------------------------------------------------------------
  // Entries
  // ---------------------------------------------------------------------

  /** The items of a list are appended to the list on top of the stack. */
  lemma {:induction false} RunItems(lines: seq<string>, st: State, items: seq<Atom>, d: nat) returns (end: State)
    requires StateOk(st, |lines|) && CellsOk(st.cells)
    requires st.stack[|st.stack| - 1].indent < d && st.cells[Top(st.stack)].ListCell?
    requires Holds(lines, st.i, ItemLines(d, items)) && forall k :: 0 <= k < |items| ==> AtomOk(items[k])
    ensures StateOk(end, |lines|) && end.i == st.i + |items| && end.stack == st.stack
    ensures OnlyCell(st.cells, end.cells, Top(st.stack)) && |end.cells| == |st.cells|
    ensures end.cells[Top(st.stack)] ==
              ListCell(st.cells[Top(st.stack)].items + seq(|items|, k requires 0 <= k < |items| => Leaf(AtomValue(items[k]))))
    ensures Run(lines, st) == Run(lines, end)
    decreases |items|
  {
    hide Read;
    hide Run;
    hide AtomText;
    if items == [] {
      end := st;
    } else {
      var part := ItemLines(d, items);
      assert lines[st.i] == part[0];
      var next := RunItem(lines, st, items[0], d);
      assert lines[st.i + 1..st.i + 1 + |items[1..]|] == part[1..] == ItemLines(d, items[1..]);
      end := RunItems(lines, next, items[1..], d);
    }
  }

  lemma RunItem(lines: seq<string>, st: State, a: Atom, d: nat) returns (next: State)
    requires StateOk(st, |lines|) && CellsOk(st.cells) && st.i < |lines|
    requires st.stack[|st.stack| - 1].indent < d && st.cells[Top(st.stack)].ListCell?
    requires lines[st.i] == ItemLine(d, a) && AtomOk(a)
    ensures next == State(st.i + 1, Append(st.cells, Top(st.stack), Leaf(AtomValue(a))), st.stack)
    ensures StateOk(next, |lines|) && OnlyCell(st.cells, next.cells, Top(st.stack))
    ensures Run(lines, st) == Run(lines, next)
  {
    hide Read;
    hide Run;
    hide AtomText;
    ItemLineReads(lines, st.i, d, a);
    next := State(st.i + 1, Append(st.cells, Top(st.stack), Leaf(AtomValue(a))), st.stack);
    assert PopTo(st.stack, d) == st.stack;
    RunOne(lines, st, next);
  }

  /** After a "key:" line: the new container is linked, empty, and on top of the stack. */
  lemma OpenContainer(lines: seq<string>, st: State, base: seq<Frame>, d: nat, key: string) returns (next: State)
    requires Filling(lines, st, base, d) && PlainKey(key)
    requires st.i < |lines| && lines[st.i] == KeyLine(d, key, "")
    ensures var r, n := Top(base), |st.cells|;
            && next == State(st.i + 1,
                             SetKey(st.cells, r, key, Ref(n))
                             + [if ListFollows(lines, st.i + 1, d) then ListCell([]) else DictCell(map[])],
                             base + [Frame(d, n)])
            && StateOk(next, |lines|) && CellsOk(next.cells)
            && Above(next.stack, next.stack, d + 2) && Above(next.stack, base, d)
    ensures Run(lines, st) == Run(lines, next)
  {
    hide Read;
    hide Run;
    hide ListFollows;
    hide KeyLine;
    hide PlainKey;
    hide CellsOk;
    KeyLineReads(lines, st.i, d, key, "");
    var list := ListFollows(lines, st.i + 1, d);
    next := Opened(lines, st, base, d, key, list);
    FrameAbove(base, Frame(d, |st.cells|), d);
    RunOne(lines, st, next);
  }

  lemma FrameAbove(base: seq<Frame>, f: Frame, d: nat)
    requires base != [] && base[|base| - 1].indent < d && f.indent == d
    ensures Above(base + [f], base + [f], d + 2) && Above(base + [f], base, d)
  {
  }

  lemma Opened(lines: seq<string>, st: State, base: seq<Frame>, d: nat, key: string, list: bool) returns (next: State)
    requires Filling(lines, st, base, d) && st.i < |lines| && Read(lines, st.i) == KeyOpens(d, key, list)
    ensures next == State(st.i + 1,
                          SetKey(st.cells, Top(base), key, Ref(|st.cells|))
                          + [if list then ListCell([]) else DictCell(map[])],
                          base + [Frame(d, |st.cells|)])
    ensures StateOk(next, |lines|) && CellsOk(next.cells) && Apply(st, Read(lines, st.i), |lines|) == Ok(next)
  {
    hide Read;
    PopsToBase(st.stack, base, d);
    next := State(st.i + 1,
                  SetKey(st.cells, Top(base), key, Ref(|st.cells|))
                  + [if list then ListCell([]) else DictCell(map[])],
                  base + [Frame(d, |st.cells|)]);
    assert PopTo(st.stack, d) == base;
    ApplyKeepsCells(st, Read(lines, st.i), |lines|);
  }

  /** After a "key: value" line. */
  lemma SetValue(lines: seq<string>, st: State, base: seq<Frame>, d: nat, e: Entry, v: Value, next: nat)
    returns (end: State)
    requires Filling(lines, st, base, d) && st.i < |lines|
    requires Read(lines, st.i) == KeyValue(d, e.key, v, next) && v == NodeValue(e.node)
    ensures end.i == next && Filling(lines, end, base, d) && Filled(st.cells, end.cells, Top(base), [e])
    ensures Run(lines, st) == Run(lines, end)
  {
    hide Overlay;
    hide NodeValue;
    hide Run;
    hide Read;
    PopsToBase(st.stack, base, d);
    var r := Top(base);
    end := State(next, SetKey(st.cells, r, e.key, Leaf(v)), base);
    ApplyKeepsCells(st, Read(lines, st.i), |lines|);
    RunOne(lines, st, end);
    FilledOne(st.cells, end.cells, r, e, Leaf(v));
  }

  /** The first line of a printed entry. */
  lemma EntryHead(e: Entry, d: nat) returns (text: string)
    requires PlainKey(e.key) && NodeOk(e.node)
    ensures PrintEntry(e, d)[0] == KeyLine(d, e.key, text)
    ensures text == [] || ValueText(text) || text == "|"
  {
    hide PlainKey;
    hide KeyLine;
    hide AtomText;
    hide ItemLines;
    hide TextLines;
    match e.node {
      case Scalar(a) =>
        AtomReads(a);
        text := AtomText(a);
      case Items(items) =>
        text := if items == [] then "[]" else "";
        EmptyListReads("[]");
      case Text(_) =>
        text := "|";
      case Map(_) =>
        text := "";
    }
  }

  lemma HeadReads(lines: seq<string>, i: nat, e: Entry, d: nat)
    requires PlainKey(e.key) && NodeOk(e.node)
    requires i < |lines| && lines[i] == PrintEntry(e, d)[0]
    ensures !Ignorable(lines[i]) && Indent(lines[i]) == d && !StartsWith(Strip(lines[i]), "- ")
  {
    hide Ignorable;
    hide Indent;
    hide Strip;
    hide PrintEntry;
    hide NodeOk;
    hide PlainKey;
    hide KeyLine;
    hide Read;
    var text := EntryHead(e, d);
    KeyLineReads(lines, i, d, e.key, text);
  }

  lemma NoListFollows(lines: seq<string>, j: nat, d: nat)
    requires j <= |lines|
    requires j < |lines| ==> !Ignorable(lines[j]) && (Indent(lines[j]) <= d || !StartsWith(Strip(lines[j]), "- "))
    ensures !ListFollows(lines, j, d)
  {
    hide Ignorable;
    hide Indent;
    hide Strip;
  }

  lemma BoundaryDeeper(lines: seq<string>, j: nat, d: nat, m: nat)
    requires Boundary(lines, j, d) && d <= m
    ensures Boundary(lines, j, m)
  {
    hide Ignorable;
    hide Indent;
  }

  lemma HoldsParts(lines: seq<string>, i: nat, a: seq<string>, b: seq<string>)
    requires Holds(lines, i, a + b)
    ensures Holds(lines, i, a) && Holds(lines, i + |a|, b)
    ensures a != [] ==> lines[i] == a[0]
  {
    assert lines[i..i + |a|] == lines[i..i + |a + b|][..|a|] == (a + b)[..|a|] == a;
    assert lines[i + |a|..i + |a| + |b|] == lines[i..i + |a + b|][|a|..] == (a + b)[|a|..] == b;
    assert a != [] ==> lines[i] == lines[i..i + |a|][0];
  }

  /** An entry whose value stands on the key's own line, or in the literal block under it. */
  lemma RunLeaf(lines: seq<string>, st: State, base: seq<Frame>, d: nat, e: Entry) returns (end: State)
    requires Filling(lines, st, base, d) && Holds(lines, st.i, PrintEntry(e, d))
    requires Boundary(lines, st.i + |PrintEntry(e, d)|, d) && PlainKey(e.key) && NodeOk(e.node)
    requires e.node.Scalar? || e.node.Text? || (e.node.Items? && e.node.items == [])
    ensures end.i == st.i + |PrintEntry(e, d)| && Filling(lines, end, base, d)
    ensures Filled(st.cells, end.cells, Top(base), [e]) && Run(lines, st) == Run(lines, end)
  {
    hide Filling;
    hide Filled;
    hide Run;
    hide Read;
    hide PlainKey;
    hide KeyLine;
    hide AtomText;
    hide TextOk;
    hide ParseScalar;
    hide BlockText;
    hide BlockEnd;
    hide Ignorable;
    hide Indent;
    hide Strip;
    var p := PrintEntry(e, d);
    assert lines[st.i] == p[0] by {
      assert lines[st.i..st.i + |p|][0] == lines[st.i];
    }
    FillingBounds(lines, st, base, d);
    match e.node {
      case Scalar(a) =>
        AtomReads(a);
        KeyLineReads(lines, st.i, d, e.key, AtomText(a));
        end := SetValue(lines, st, base, d, e, AtomValue(a), st.i + 1);
      case Items(items) =>
        EmptyListReads("[]");
        KeyLineReads(lines, st.i, d, e.key, "[]");
        assert AtomValues(items) == [];
        end := SetValue(lines, st, base, d, e, List([]), st.i + 1);
      case Text(text) =>
        KeyLineReads(lines, st.i, d, e.key, "|");
        HoldsParts(lines, st.i, [KeyLine(d, e.key, "|")], TextLines(d + 2, text));
        BoundaryDeeper(lines, st.i + |p|, d, d + 1);
        BlockReads(lines, st.i + 1, d + 2, text);
        end := SetValue(lines, st, base, d, e, Str(JoinLines(text)), st.i + |p|);
    }
  }

  lemma FillingBounds(lines: seq<string>, st: State, base: seq<Frame>, d: nat)
    requires Filling(lines, st, base, d)
    ensures base != [] && st.i <= |lines|
  {
  }

  /** A container that was linked under e's key and then filled with e's value. */
  lemma LinkedAndFilled(a: seq<Cell>, linked: seq<Cell>, b: seq<Cell>, r: nat, e: Entry, c: Cell)
    requires CellsOk(a) && r < |a| && a[r].DictCell? && CellsOk(linked)
    requires linked == SetKey(a, r, e.key, Ref(|a|)) + [c]
    requires OnlyCell(linked, b, |a|) && Resolve(b, |a|) == NodeValue(e.node)
    ensures Filled(a, b, r, [e])
  {
    hide Resolve;
    hide NodeValue;
    hide Overlay;
    FilledOne(a, b, r, e, Ref(|a|));
  }

  lemma RunList(lines: seq<string>, st: State, base: seq<Frame>, d: nat, e: Entry) returns (end: State)
    requires Filling(lines, st, base, d) && Holds(lines, st.i, PrintEntry(e, d))
    requires PlainKey(e.key) && NodeOk(e.node) && e.node.Items? && e.node.items != []
    ensures end.i == st.i + |PrintEntry(e, d)| && Filling(lines, end, base, d)
    ensures Filled(st.cells, end.cells, Top(base), [e]) && Run(lines, st) == Run(lines, end)
  {
    hide Run;
    hide PlainKey;
    hide KeyLine;
    hide AtomText;
    hide Ignorable;
    hide Indent;
    hide Strip;
    hide CellOk;
    hide Filled;
    hide Read;
    var items := e.node.items;
    var p := ItemLines(d + 2, items);
    HoldsParts(lines, st.i, [KeyLine(d, e.key, "")], p);
    HoldsParts(lines, st.i + 1, p, []);
    assert p + [] == p && lines[st.i + 1] == p[0];
    ItemLineReads(lines, st.i + 1, d + 2, items[0]);
    assert ListFollows(lines, st.i + 1, d);
    var next := OpenContainer(lines, st, base, d, e.key);
    end := RunItems(lines, next, items, d + 2);
    LinkedList(st, next, end, Top(base), e);
    KeepsFilling(lines, st, next, end, base, d, e.key, ListCell([]));
  }

  /** Back from a nested container, the loop is filling the outer one again. */
  lemma KeepsFilling(lines: seq<string>, st: State, next: State, end: State, base: seq<Frame>, d: nat, key: string,
                     c: Cell)
    requires Filling(lines, st, base, d) && CellsOk(next.cells)
    requires next.cells == SetKey(st.cells, Top(base), key, Ref(|st.cells|)) + [c]
    requires StateOk(end, |lines|) && OnlyCell(next.cells, end.cells, |st.cells|)
    requires Above(end.stack, base, d)
    ensures Filling(lines, end, base, d)
  {
    hide CellOk;
    hide Resolve;
    assert end.cells[Top(base)] == next.cells[Top(base)];
  }

  lemma LinkedList(st: State, next: State, end: State, r: nat, e: Entry)
    requires CellsOk(st.cells) && CellsOk(next.cells) && r < |st.cells| && st.cells[r].DictCell? && e.node.Items?
    requires next.cells == SetKey(st.cells, r, e.key, Ref(|st.cells|)) + [ListCell([])]
    requires OnlyCell(next.cells, end.cells, |st.cells|)
    requires end.cells[|st.cells|] ==
               ListCell([] + seq(|e.node.items|, k requires 0 <= k < |e.node.items| => Leaf(AtomValue(e.node.items[k]))))
    ensures Filled(st.cells, end.cells, r, [e])
  {
    hide CellOk;
    hide AtomValue;
    var n := |st.cells|;
    assert Resolve(end.cells, n).items == AtomValues(e.node.items);
    LinkedAndFilled(st.cells, next.cells, end.cells, r, e, ListCell([]));
  }

  lemma LinkedMap(st: State, next: State, end: State, r: nat, e: Entry)
    requires CellsOk(st.cells) && CellsOk(next.cells) && r < |st.cells| && st.cells[r].DictCell? && e.node.Map?
    requires next.cells == SetKey(st.cells, r, e.key, Ref(|st.cells|)) + [DictCell(map[])]
    requires Filled(next.cells, end.cells, |st.cells|, e.node.entries)
    ensures Filled(st.cells, end.cells, r, [e])
  {
    hide CellOk;
    hide Overlay;
    assert Resolve(next.cells, |st.cells|) == Dict(map[]);
    LinkedAndFilled(st.cells, next.cells, end.cells, r, e, DictCell(map[]));
  }

  lemma NestedIsAbove(stack: seq<Frame>, base: seq<Frame>, f: Frame, d: nat)
    requires Above(stack, base + [f], d + 2) && f.indent == d && base != [] && base[|base| - 1].indent < d
    ensures Above(stack, base, d)
  {
    var inner := base + [f];
    assert base == inner[..|base|] == stack[..|base|];
    assert stack[|base|] == f;
  }

  /** Entries nested under a key. */
  lemma {:induction false} RunNested(lines: seq<string>, st: State, base: seq<Frame>, d: nat, e: Entry)
    returns (end: State)
    requires Filling(lines, st, base, d) && Holds(lines, st.i, PrintEntry(e, d))
    requires Boundary(lines, st.i + |PrintEntry(e, d)|, d) && PlainKey(e.key) && NodeOk(e.node) && e.node.Map?
    ensures end.i == st.i + |PrintEntry(e, d)| && Filling(lines, end, base, d)
    ensures Filled(st.cells, end.cells, Top(base), [e]) && Run(lines, st) == Run(lines, end)
    decreases e.node, 1
  {
    hide Run;
    hide PlainKey;
    hide KeyLine;
    hide Ignorable;
    hide Indent;
    hide Strip;
    hide CellOk;
    hide Filled;
    hide Read;
    hide ListFollows;
    var entries := e.node.entries;
    var p := Print(entries, d + 2);
    HoldsParts(lines, st.i, [KeyLine(d, e.key, "")], p);
    NoListUnder(lines, st.i + 1, entries, d);
    var next := OpenContainer(lines, st, base, d, e.key);
    BoundaryDeeper(lines, st.i + 1 + |p|, d, d + 2);
    end := RunEntries(lines, next, next.stack, d + 2, entries);
    LinkedMap(st, next, end, Top(base), e);
    NestedIsAbove(end.stack, base, Frame(d, |st.cells|), d);
    FilledOnly(next.cells, end.cells, |st.cells|, entries);
    KeepsFilling(lines, st, next, end, base, d, e.key, DictCell(map[]));
  }

  lemma FilledOnly(a: seq<Cell>, b: seq<Cell>, r: nat, entries: seq<Entry>)
    requires Filled(a, b, r, entries)
    ensures OnlyCell(a, b, r)
  {
  }

  lemma NoListUnder(lines: seq<string>, i: nat, entries: seq<Entry>, d: nat)
    requires Holds(lines, i, Print(entries, d + 2)) && EntriesOk(entries)
    requires Boundary(lines, i + |Print(entries, d + 2)|, d)
    ensures !ListFollows(lines, i, d)
  {
    hide ListFollows;
    hide Ignorable;
    hide Indent;
    hide Strip;
    hide PlainKey;
    hide PrintEntry;
    if entries != [] {
      HoldsParts(lines, i, PrintEntry(entries[0], d + 2), Print(entries[1..], d + 2));
      HeadReads(lines, i, entries[0], d + 2);
    }
    NoListFollows(lines, i, d);
  }

  /** A sequence of printed entries fills the container on top of `base` with them, in order. */
  lemma {:induction false} RunEntries(lines: seq<string>, st: State, base: seq<Frame>, d: nat, entries: seq<Entry>)
    returns (end: State)
    requires Filling(lines, st, base, d) && Holds(lines, st.i, Print(entries, d)) && EntriesOk(entries)
    requires Boundary(lines, st.i + |Print(entries, d)|, d)
    ensures end.i == st.i + |Print(entries, d)| && Filling(lines, end, base, d)
    ensures Filled(st.cells, end.cells, Top(base), entries) && Run(lines, st) == Run(lines, end)
    decreases entries, 0
  {
    hide Run;
    hide PlainKey;
    hide PrintEntry;
    hide Filled;
    hide Filling;
    hide Ignorable;
    hide Indent;
    hide Boundary;
    hide Holds;
    FillingBounds(lines, st, base, d);
    if entries == [] {
      end := st;
      FilledNone(lines, st, base, d);
    } else {
      var e, rest := entries[0], entries[1..];
      var p, q := PrintEntry(e, d), Print(rest, d);
      HoldsParts(lines, st.i, p, q);
      BoundaryBetween(lines, st.i + |p|, rest, d);
      var next: State;
      if e.node.Map? {
        next := RunNested(lines, st, base, d, e);
      } else if e.node.Items? && e.node.items != [] {
        next := RunList(lines, st, base, d, e);
      } else {
        next := RunLeaf(lines, st, base, d, e);
      }
      end := RunEntries(lines, next, base, d, rest);
      FilledMore(st.cells, next.cells, end.cells, Top(base), e, rest);
      assert [e] + rest == entries;
    }
  }

  lemma FilledNone(lines: seq<string>, st: State, base: seq<Frame>, d: nat)
    requires Filling(lines, st, base, d)
    ensures Filled(st.cells, st.cells, Top(base), [])
  {
  }

  /** Between two entries there is the first line of the second one. */
  lemma BoundaryBetween(lines: seq<string>, i: nat, entries: seq<Entry>, d: nat)
    requires Holds(lines, i, Print(entries, d)) && EntriesOk(entries)
    requires Boundary(lines, i + |Print(entries, d)|, d)
    ensures Boundary(lines, i, d)
  {
    hide Ignorable;
    hide Indent;
    hide Strip;
    hide PlainKey;
    hide PrintEntry;
    if entries != [] {
      HoldsParts(lines, i, PrintEntry(entries[0], d), Print(entries[1..], d));
      HeadReads(lines, i, entries[0], d);
    }
  }

  // ---------------------------------------------------------------------
  // The theorem
  // ---------------------------------------------------------------------

  ghost predicate AllOneLine(lines: seq<string>) {
    forall k :: 0 <= k < |lines| ==> OneLine(lines[k])
  }

  lemma AtomIsOneLine(a: Atom)
    requires AtomOk(a)
    ensures OneLine(AtomText(a))
  {
    var t := AtomText(a);
    match a {
      case AInt(n) =>
        assert forall i :: 0 <= i < |t| ==> t[i] == '-' || IsDigit(t[i]);
      case _ =>
    }
  }

  lemma KeyIsOneLine(d: nat, key: string, text: string)
    requires OneLine(key) && OneLine(text)
    ensures OneLine(KeyLine(d, key, text))
  {
    hide IsBreak;
    assert !IsBreak(' ') && !IsBreak(':') by {
      BlanksAreNoBreak();
    }
    var c := KeyText(key, text);
    assert forall i :: 0 <= i < |c| ==> c[i] == ':' || c[i] == ' ' || c[i] in key || c[i] in text;
  }

  lemma BlanksAreNoBreak()
    ensures !IsBreak(' ') && !IsBreak(':') && !IsBreak('-')
  {
  }

  lemma ItemIsOneLine(d: nat, a: Atom)
    requires AtomOk(a)
    ensures OneLine(ItemLine(d, a))
  {
    hide IsBreak;
    hide AtomText;
    AtomIsOneLine(a);
    BlanksAreNoBreak();
  }

  lemma TextIsOneLine(d: nat, line: string)
    requires OneLine(line)
    ensures OneLine(TextLine(d, line))
  {
    hide IsBreak;
    BlanksAreNoBreak();
  }

  lemma {:induction false} EntryIsOneLine(e: Entry, d: nat)
    requires PlainKey(e.key) && NodeOk(e.node)
    ensures AllOneLine(PrintEntry(e, d))
    decreases e.node, 1
  {
    hide AtomText;
    hide KeyLine;
    hide ItemLine;
    hide TextLine;
    hide OneLine;
    hide Blank;
    assert OneLine(e.key);
    ShortIsOneLine();
    match e.node {
      case Scalar(a) =>
        AtomIsOneLine(a);
        KeyIsOneLine(d, e.key, AtomText(a));
      case Items(items) =>
        forall k | 0 <= k < |items|
          ensures OneLine(ItemLine(d + 2, items[k]))
        {
          ItemIsOneLine(d + 2, items[k]);
        }
        KeyIsOneLine(d, e.key, "[]");
        KeyIsOneLine(d, e.key, "");
      case Text(lines) =>
        forall k | 0 <= k < |lines|
          ensures OneLine(TextLine(d + 2, lines[k]))
        {
          TextIsOneLine(d + 2, lines[k]);
        }
        KeyIsOneLine(d, e.key, "|");
      case Map(entries) =>
        KeyIsOneLine(d, e.key, "");
        PrintIsOneLine(entries, d + 2);
    }
  }

  lemma ShortIsOneLine()
    ensures OneLine("") && OneLine("|") && OneLine("[]")
  {
  }

  lemma {:induction false} PrintIsOneLine(entries: seq<Entry>, d: nat)
    requires EntriesOk(entries)
    ensures AllOneLine(Print(entries, d))
    decreases entries, 0
  {
    if entries != [] {
      EntryIsOneLine(entries[0], d);
      PrintIsOneLine(entries[1..], d);
    }
  }

  /** Loading what was printed gives back the tree, whatever its shape and depth. */
  lemma RoundTrip(entries: seq<Entry>)
    requires EntriesOk(entries)
    ensures Load(Unlines(Print(entries, 0))) == Ok(NodeValue(Map(entries)))
  {
    hide PrintEntry;
    hide Above;
    hide PlainKey;
    hide OneLine;
    hide Read;
    var lines := Print(entries, 0);
    PrintIsOneLine(entries, 0);
    SplitUnlines(lines);
    assert Filling(lines, START, START.stack, 0) by {
      StartIsFilling(lines);
    }
    assert lines[0..|lines|] == lines;
    var end := RunEntries(lines, START, START.stack, 0, entries);
    FilledRoot(end.cells, entries);
    assert Run(lines, end) == Ok(end);
  }

  /** Print, then load with the loop: the tree is back. */
  method PrintAndLoad(entries: seq<Entry>) returns (r: Result<Value>)
    requires EntriesOk(entries)
    ensures r == Ok(NodeValue(Map(entries)))
  {
    hide *;
    RoundTrip(entries);
    r := LoadSimpleYaml(Unlines(Print(entries, 0)));
  }

  lemma StartIsFilling(lines: seq<string>)
    ensures Filling(lines, START, START.stack, 0)
  {
  }

  lemma FilledRoot(cells: seq<Cell>, entries: seq<Entry>)
    requires Filled(START.cells, cells, 0, entries)
    ensures CellsOk(cells) && |cells| > 0 && Resolve(cells, 0) == NodeValue(Map(entries))
  {
    hide Overlay;
    assert Resolve(START.cells, 0) == Dict(map[]);
  }

  /** With no key twice, the loaded mapping holds every entry under its key, and nothing else. */
  lemma {:induction false} OverlayHolds(m: map<string, Value>, entries: seq<Entry>)
    requires forall i, j :: 0 <= i < j < |entries| ==> entries[i].key != entries[j].key
    ensures forall i :: 0 <= i < |entries| ==>
              entries[i].key in Overlay(m, entries) && Overlay(m, entries)[entries[i].key] == NodeValue(entries[i].node)
    ensures forall k :: k in Overlay(m, entries) && k !in m ==> exists i :: 0 <= i < |entries| && entries[i].key == k
    ensures forall k :: k in m && (forall i :: 0 <= i < |entries| ==> entries[i].key != k) ==>
              k in Overlay(m, entries) && Overlay(m, entries)[k] == m[k]
    decreases |entries|
  {
    hide NodeValue;
    if entries != [] {
      var rest := entries[1..];
      var m' := m[entries[0].key := NodeValue(entries[0].node)];
      OverlayHolds(m', rest);
      forall i | 1 <= i < |entries|
        ensures entries[i].key in Overlay(m, entries)
        ensures Overlay(m, entries)[entries[i].key] == NodeValue(entries[i].node)
      {
        assert rest[i - 1] == entries[i];
      }
      forall k | k in Overlay(m, entries) && k !in m
        ensures exists i :: 0 <= i < |entries| && entries[i].key == k
      {
        if k == entries[0].key {
        } else {
          assert k in Overlay(m', rest) && k !in m';
          var i :| 0 <= i < |rest| && rest[i].key == k;
          assert entries[i + 1].key == k;
        }
      }
    }
  }

  /** What is loaded from distinct keys: each key once, with the value it was printed from. */
  lemma EveryEntryIsLoaded(entries: seq<Entry>)
    requires EntriesOk(entries)
    requires forall i, j :: 0 <= i < j < |entries| ==> entries[i].key != entries[j].key
    ensures var r := Load(Unlines(Print(entries, 0)));
            && r.Ok? && r.value.Dict?
            && r.value.entries.Keys == (set i | 0 <= i < |entries| :: entries[i].key)
            && forall i :: 0 <= i < |entries| ==> r.value.entries[entries[i].key] == NodeValue(entries[i].node)
  {
    hide Load;
    hide Print;
    hide EntriesOk;
    hide Overlay;
    RoundTrip(entries);
    OverlayHolds(map[], entries);
  }
}
