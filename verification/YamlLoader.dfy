/**
 The dependency-free YAML loader of src/charter.py.

 Python dictionaries and lists are mutable and shared: the loader links an empty container into its
 parent first and fills it afterwards through the indentation stack.  Here the containers live in
 `cells`, and a reference is an index; filling a container is an update of its cell, which every
 reference to it sees.
 */
module YamlLoader {
  import opened YamlText

  datatype Error = ItemWithoutList | NotKeyValue | KeyOnNonDict
  datatype Result<+T> = Ok(value: T) | Err(error: Error)

  /** What a container holds: a finished value, or a reference to another container. */
  datatype Slot = Leaf(v: Value) | Ref(r: nat)
  datatype Cell = DictCell(entries: map<string, Slot>) | ListCell(items: seq<Slot>)

  datatype Frame = Frame(indent: int, ref: nat)

  datatype State = State(i: nat, cells: seq<Cell>, stack: seq<Frame>)

  // ---------------------------------------------------------------------
  // Reading containers back
  // ---------------------------------------------------------------------

  /** A reference points at a later cell, so the containers form a forest that can be read back. */
  predicate SlotOk(s: Slot, owner: nat, n: nat) {
    s.Ref? ==> owner < s.r < n
  }

  predicate CellOk(c: Cell, owner: nat, n: nat) {
    match c
    case DictCell(m) => forall k :: k in m ==> SlotOk(m[k], owner, n)
    case ListCell(items) => forall k :: 0 <= k < |items| ==> SlotOk(items[k], owner, n)
  }

  ghost predicate CellsOk(cells: seq<Cell>) {
    forall c :: 0 <= c < |cells| ==> CellOk(cells[c], c, |cells|)
  }

  /** The Python object a reference stands for. */
  function Resolve(cells: seq<Cell>, r: nat): Value
    requires CellsOk(cells) && r < |cells|
    decreases |cells| - r, 0
  {
    match cells[r]
    case DictCell(m) => Dict(map k | k in m :: ResolveSlot(cells, r, m[k]))
    case ListCell(items) => List(seq(|items|, k requires 0 <= k < |items| => ResolveSlot(cells, r, items[k])))
  }

  function ResolveSlot(cells: seq<Cell>, owner: nat, s: Slot): Value
    requires CellsOk(cells) && owner < |cells| && SlotOk(s, owner, |cells|)
    decreases |cells| - owner, 0, s
  {
    match s
    case Leaf(v) => v
    case Ref(r) => Resolve(cells, r)
  }

  // ---------------------------------------------------------------------
  // The loader as a function of its lines
  // ---------------------------------------------------------------------

  /** The text before and after the first ':' (str.partition). */
  function KeyPart(s: string): string {
    Strip(s[..IndexOf(s, ':')])
  }

  function RestPart(s: string): string {
    var k := IndexOf(s, ':');
    if k == |s| then [] else Strip(s[k + 1..])
  }

  predicate HasColon(s: string) {
    IndexOf(s, ':') < |s|
  }

  /** Close the containers that a line at this indentation is not inside of. */
  function PopTo(stack: seq<Frame>, indent: int): (r: seq<Frame>)
    requires stack != []
    ensures r != [] && r <= stack
    ensures |r| > 1 ==> r[|r| - 1].indent < indent
    ensures forall k :: |r| <= k < |stack| ==> stack[k].indent >= indent
  {
    if |stack| > 1 && indent <= stack[|stack| - 1].indent then PopTo(stack[..|stack| - 1], indent) else stack
  }

  /** The lines of a literal block: everything indented far enough, and blank lines in between. */
  function BlockEnd(lines: seq<string>, i: nat, minIndent: nat): (e: nat)
    requires i <= |lines|
    ensures i <= e <= |lines|
    decreases |lines| - i
  {
    if i < |lines| && (Blank(lines[i]) || Indent(lines[i]) >= minIndent) then BlockEnd(lines, i + 1, minIndent) else i
  }

  function BlockLine(line: string, minIndent: nat): string {
    if Blank(line) then []
    else if |line| >= minIndent then line[minIndent..]
    else LStrip(line)
  }

  function BlockLines(lines: seq<string>, minIndent: nat): (r: seq<string>)
    ensures |r| == |lines|
  {
    seq(|lines|, k requires 0 <= k < |lines| => BlockLine(lines[k], minIndent))
  }

  function TrimBlank(chunks: seq<string>): seq<string> {
    if chunks != [] && chunks[|chunks| - 1] == [] then TrimBlank(chunks[..|chunks| - 1]) else chunks
  }

  function BlockText(lines: seq<string>, i: nat, minIndent: nat): string
    requires i <= |lines|
  {
    JoinLines(TrimBlank(BlockLines(lines[i..BlockEnd(lines, i, minIndent)], minIndent)))
  }

  predicate Ignorable(line: string) {
    Blank(line) || StartsWith(LStrip(line), "#")
  }

  /** The first line from j on that says something. */
  function NextLine(lines: seq<string>, j: nat): (r: nat)
    requires j <= |lines|
    ensures j <= r <= |lines| && (r < |lines| ==> !Ignorable(lines[r]))
    decreases |lines| - j
  {
    if j < |lines| && Ignorable(lines[j]) then NextLine(lines, j + 1) else j
  }

  /** Does a deeper list follow the key that ended before line j? */
  predicate ListFollows(lines: seq<string>, j: nat, indent: nat)
    requires j <= |lines|
  {
    var k := NextLine(lines, j);
    k < |lines| && StartsWith(Strip(lines[k]), "- ") && Indent(lines[k]) > indent
  }

  predicate IsBlockMark(rest: string) {
    rest == "|" || rest == ">"
  }

  predicate QuoteStart(s: string) {
    StartsWith(s, "\"") || StartsWith(s, "'")
  }

  // ---------------------------------------------------------------------
  // What a line says, and what it does to the containers
  // ---------------------------------------------------------------------

  /** A line, read together with the literal block that may follow it; `next` is the line after that. */
  datatype Line =
    | Nothing
    | Malformed
    | Item(indent: nat, v: Value)
    | ItemEntry(indent: nat, key: string, v: Value, opens: bool, next: nat)
    | KeyValue(indent: nat, key: string, v: Value, next: nat)
    | KeyOpens(indent: nat, key: string, list: bool)

  predicate LineOk(line: Line, i: nat, n: nat) {
    line.ItemEntry? || line.KeyValue? ==> i <= line.next <= n
  }

  /** The text after "- ": a scalar, or the first key of a mapping. */
  function ReadItem(lines: seq<string>, i: nat, indent: nat, item: string): (r: Line)
    requires i <= |lines|
    ensures LineOk(r, i, |lines|) && (r.Item? || r.ItemEntry?) && r.indent == indent
  {
    if HasColon(item) && !StartsWith(item, "{") && !QuoteStart(item) then
      var key, rest := KeyPart(item), RestPart(item);
      if IsBlockMark(rest) then
        ItemEntry(indent, key, Str(BlockText(lines, i, indent + 2)), true, BlockEnd(lines, i, indent + 2))
      else if rest == [] then ItemEntry(indent, key, Dict(map[]), true, i)
      else ItemEntry(indent, key, ParseScalar(rest), false, i)
    else
      Item(indent, ParseScalar(item))
  }

  function ReadKey(lines: seq<string>, i: nat, indent: nat, content: string): (r: Line)
    requires i <= |lines|
    ensures LineOk(r, i, |lines|) && (r.KeyValue? || r.KeyOpens?) && r.indent == indent
  {
    var key, rest := KeyPart(content), RestPart(content);
    if IsBlockMark(rest) then
      KeyValue(indent, key, Str(BlockText(lines, i, indent + 2)), BlockEnd(lines, i, indent + 2))
    else if rest == [] then KeyOpens(indent, key, ListFollows(lines, i, indent))
    else KeyValue(indent, key, ParseScalar(rest), i)
  }

  /** The line at i. */
  function Read(lines: seq<string>, i: nat): (r: Line)
    requires i < |lines|
    ensures LineOk(r, i + 1, |lines|)
  {
    var line := StripComment(lines[i]);
    if Ignorable(lines[i]) || Blank(line) then Nothing
    else
      var indent, content := Indent(line), Strip(line);
      if StartsWith(content, "- ") then ReadItem(lines, i + 1, indent, Strip(content[2..]))
      else if !HasColon(content) then Malformed
      else ReadKey(lines, i + 1, indent, content)
  }

  /** The stack refers to existing cells. */
  predicate StackOk(stack: seq<Frame>, n: nat) {
    stack != [] && forall k :: 0 <= k < |stack| ==> stack[k].ref < n
  }

  predicate StateOk(st: State, n: nat) {
    st.i <= n && StackOk(st.stack, |st.cells|)
  }

  function Top(stack: seq<Frame>): nat
    requires stack != []
  {
    stack[|stack| - 1].ref
  }

  function SetKey(cells: seq<Cell>, r: nat, key: string, s: Slot): (r': seq<Cell>)
    requires r < |cells| && cells[r].DictCell?
    ensures |r'| == |cells|
  {
    cells[r := DictCell(cells[r].entries[key := s])]
  }

  function Append(cells: seq<Cell>, r: nat, s: Slot): (r': seq<Cell>)
    requires r < |cells| && cells[r].ListCell?
    ensures |r'| == |cells|
  {
    cells[r := ListCell(cells[r].items + [s])]
  }

  function Apply(st: State, line: Line, n: nat): (r: Result<State>)
    requires StateOk(st, n) && st.i < n && LineOk(line, st.i + 1, n)
    ensures r.Ok? ==> StateOk(r.value, n) && r.value.i > st.i
  {
    if line.Nothing? then Ok(st.(i := st.i + 1))
    else if line.Malformed? then Err(NotKeyValue)
    else
      var stack := PopTo(st.stack, line.indent);
      var parent, made := Top(stack), |st.cells|;
      match line
      case Item(_, v) =>
        if !st.cells[parent].ListCell? then Err(ItemWithoutList)
        else Ok(State(st.i + 1, Append(st.cells, parent, Leaf(v)), stack))
      case ItemEntry(indent, key, v, opens, next) =>
        if !st.cells[parent].ListCell? then Err(ItemWithoutList)
        else Ok(State(next, Append(st.cells, parent, Ref(made)) + [DictCell(map[key := Leaf(v)])],
                      if opens then stack + [Frame(indent, made)] else stack))
      case KeyValue(_, key, v, next) =>
        if !st.cells[parent].DictCell? then Err(KeyOnNonDict)
        else Ok(State(next, SetKey(st.cells, parent, key, Leaf(v)), stack))
      case KeyOpens(indent, key, list) =>
        if !st.cells[parent].DictCell? then Err(KeyOnNonDict)
        else Ok(State(st.i + 1,
                      SetKey(st.cells, parent, key, Ref(made)) + [if list then ListCell([]) else DictCell(map[])],
                      stack + [Frame(indent, made)]))
  }

  function Run(lines: seq<string>, st: State): (r: Result<State>)
    requires StateOk(st, |lines|)
    ensures r.Ok? ==> StateOk(r.value, |lines|)
    decreases |lines| - st.i
  {
    if st.i == |lines| then Ok(st)
    else
      match Apply(st, Read(lines, st.i), |lines|)
      case Err(e) => Err(e)
      case Ok(next) => Run(lines, next)
  }

  const START := State(0, [DictCell(map[])], [Frame(-1, 0)])

  // ---------------------------------------------------------------------
  // The containers stay readable
  // ---------------------------------------------------------------------

  lemma ApplyKeepsCells(st: State, line: Line, n: nat)
    requires StateOk(st, n) && st.i < n && LineOk(line, st.i + 1, n)
    requires CellsOk(st.cells) && Apply(st, line, n).Ok?
    ensures CellsOk(Apply(st, line, n).value.cells)
    ensures |Apply(st, line, n).value.cells| >= |st.cells|
  {
  }

  lemma {:induction false} RunKeepsCells(lines: seq<string>, st: State)
    requires StateOk(st, |lines|) && CellsOk(st.cells) && Run(lines, st).Ok?
    ensures CellsOk(Run(lines, st).value.cells) && |Run(lines, st).value.cells| >= |st.cells|
    decreases |lines| - st.i
  {
    if st.i < |lines| {
      ApplyKeepsCells(st, Read(lines, st.i), |lines|);
      RunKeepsCells(lines, Apply(st, Read(lines, st.i), |lines|).value);
    }
  }

  /** _load_simple_yaml. */
  function Load(text: string): Result<Value> {
    var lines := SplitLines(text);
    match Run(lines, START)
    case Err(e) => Err(e)
    case Ok(end) =>
      RunKeepsCells(lines, START);
      Ok(Resolve(end.cells, 0))
  }

  // ---------------------------------------------------------------------
  // The loader as the loop it is
  // ---------------------------------------------------------------------

  /** _read_block. */
  method ReadBlock(lines: seq<string>, start: nat, minIndent: nat) returns (text: string, i: nat)
    requires start <= |lines|
    ensures i == BlockEnd(lines, start, minIndent) && text == BlockText(lines, start, minIndent)
  {
    hide Blank;
    hide Indent;
    hide JoinLines;
    hide BlockLine;
    var chunks: seq<string> := [];
    i := start;
    while i < |lines|
      invariant start <= i <= |lines|
      invariant BlockEnd(lines, start, minIndent) == BlockEnd(lines, i, minIndent)
      invariant |chunks| == i - start
      invariant forall k :: 0 <= k < |chunks| ==> chunks[k] == BlockLine(lines[start + k], minIndent)
    {
      var line := lines[i];
      if !Blank(line) && Indent(line) < minIndent { break; }
      chunks := chunks + [BlockLine(line, minIndent)];
      i := i + 1;
    }
    assert chunks == BlockLines(lines[start..i], minIndent);
    chunks := DropTrailing(chunks);
    text := JoinLines(chunks);
  }

  /** Trailing blank lines do not belong to the text. */
  method DropTrailing(all: seq<string>) returns (chunks: seq<string>)
    ensures chunks == TrimBlank(all)
  {
    chunks := all;
    while chunks != [] && chunks[|chunks| - 1] == []
      invariant TrimBlank(chunks) == TrimBlank(all)
    {
      chunks := chunks[..|chunks| - 1];
    }
  }

  /** Is the next line that says something an item of a deeper list? */
  method PeekList(lines: seq<string>, i: nat, indent: nat) returns (b: bool)
    requires i <= |lines|
    ensures b == ListFollows(lines, i, indent)
  {
    var j := i;
    while j < |lines| && Ignorable(lines[j])
      invariant i <= j <= |lines| && NextLine(lines, i) == NextLine(lines, j)
    {
      j := j + 1;
    }
    b := j < |lines| && StartsWith(Strip(lines[j]), "- ") && Indent(lines[j]) > indent;
  }

  method Pop(stack: seq<Frame>, indent: nat) returns (r: seq<Frame>)
    requires stack != []
    ensures r == PopTo(stack, indent)
  {
    r := stack;
    while |r| > 1 && indent <= r[|r| - 1].indent
      invariant r != [] && PopTo(stack, indent) == PopTo(r, indent)
    {
      r := r[..|r| - 1];
    }
  }

  /** The body of _load_simple_yaml: one pass over the lines, one stack, containers filled in place. */
  method LoadSimpleYaml(text: string) returns (r: Result<Value>)
    ensures r == Load(text)
  {
    hide Read;
    hide Apply;
    hide Resolve;
    var lines := SplitLines(text);
    var st := START;
    while st.i < |lines|
      invariant StateOk(st, |lines|) && Run(lines, START) == Run(lines, st)
      decreases |lines| - st.i
    {
      var line := ReadLine(lines, st.i);
      var turn := Turn(st, line, |lines|);
      if turn.Err? { return Err(turn.error); }
      st := turn.value;
    }
    RunKeepsCells(lines, START);
    r := Ok(Resolve(st.cells, 0));
  }

  /** What one line does to the position, the containers and the stack. */
  method Turn(st: State, line: Line, n: nat) returns (r: Result<State>)
    requires StateOk(st, n) && st.i < n && LineOk(line, st.i + 1, n)
    ensures r == Apply(st, line, n)
  {
    hide PopTo;
    var i, cells, stack := st.i + 1, st.cells, st.stack;
    if line.Nothing? { return Ok(State(i, cells, stack)); }
    if line.Malformed? { return Err(NotKeyValue); }
    stack := Pop(stack, line.indent);
    var parent, made := Top(stack), |cells|;
    match line {
      case Item(_, v) =>
        if !cells[parent].ListCell? { return Err(ItemWithoutList); }
        cells := cells[parent := ListCell(cells[parent].items + [Leaf(v)])];
      case ItemEntry(indent, key, v, opens, next) =>
        if !cells[parent].ListCell? { return Err(ItemWithoutList); }
        cells := cells[parent := ListCell(cells[parent].items + [Ref(made)])] + [DictCell(map[key := Leaf(v)])];
        if opens {
          stack := stack + [Frame(indent, made)];
        }
        i := next;
      case KeyValue(_, key, v, next) =>
        if !cells[parent].DictCell? { return Err(KeyOnNonDict); }
        cells := cells[parent := DictCell(cells[parent].entries[key := Leaf(v)])];
        i := next;
      case KeyOpens(indent, key, list) =>
        if !cells[parent].DictCell? { return Err(KeyOnNonDict); }
        cells := cells[parent := DictCell(cells[parent].entries[key := Ref(made)])]
                 + [if list then ListCell([]) else DictCell(map[])];
        stack := stack + [Frame(indent, made)];
    }
    return Ok(State(i, cells, stack));
  }

  /** The line at i with its literal block or its look-ahead. */
  method ReadLine(lines: seq<string>, i: nat) returns (line: Line)
    requires i < |lines|
    ensures line == Read(lines, i)
  {
    hide Strip;
    hide LStrip;
    hide Indent;
    hide IndexOf;
    hide StripComment;
    hide ReadItem;
    hide ReadKey;
    var raw := lines[i];
    if Blank(raw) || StartsWith(LStrip(raw), "#") { return Nothing; }
    var text := StripCommentLoop(raw);
    if Blank(text) { return Nothing; }
    var indent, content := Indent(text), Strip(text);
    if StartsWith(content, "- ") {
      line := ReadItemLine(lines, i + 1, indent, Strip(content[2..]));
    } else if !HasColon(content) {
      line := Malformed;
    } else {
      line := ReadKeyLine(lines, i + 1, indent, content);
    }
  }

  method ReadItemLine(lines: seq<string>, i: nat, indent: nat, item: string) returns (line: Line)
    requires i <= |lines|
    ensures line == ReadItem(lines, i, indent, item)
  {
    hide ParseScalar;
    hide BlockText;
    hide BlockEnd;
    hide KeyPart;
    hide RestPart;
    hide IndexOf;
    if HasColon(item) && !StartsWith(item, "{") && !QuoteStart(item) {
      var key, rest := KeyPart(item), RestPart(item);
      if IsBlockMark(rest) {
        var block, e := ReadBlock(lines, i, indent + 2);
        return ItemEntry(indent, key, Str(block), true, e);
      }
      if rest == [] { return ItemEntry(indent, key, Dict(map[]), true, i); }
      return ItemEntry(indent, key, ParseScalar(rest), false, i);
    }
    return Item(indent, ParseScalar(item));
  }

  method ReadKeyLine(lines: seq<string>, i: nat, indent: nat, content: string) returns (line: Line)
    requires i <= |lines|
    ensures line == ReadKey(lines, i, indent, content)
  {
    hide ParseScalar;
    hide BlockText;
    hide BlockEnd;
    hide KeyPart;
    hide RestPart;
    hide ListFollows;
    var key, rest := KeyPart(content), RestPart(content);
    if IsBlockMark(rest) {
      var block, e := ReadBlock(lines, i, indent + 2);
      return KeyValue(indent, key, Str(block), e);
    }
    if rest == [] {
      var list := PeekList(lines, i, indent);
      return KeyOpens(indent, key, list);
    }
    return KeyValue(indent, key, ParseScalar(rest), i);
  }
}
