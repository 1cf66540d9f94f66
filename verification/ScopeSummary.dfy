/**
 The one-line summary of a permission's scope: fitting pattern lengths into a budget, and assembling a line
 that keeps its facts within a hard limit (win_collab/core.py).
 */
module ScopeSummary {
  import opened Basics
  import opened YamlText

  // ---------------------------------------------------------------------
  // Sums
  // ---------------------------------------------------------------------

  function Sum(xs: seq<int>): int {
    if xs == [] then 0 else xs[0] + Sum(xs[1..])
  }

  function Min(a: int, b: int): int {
    if a < b then a else b
  }

  function Max(a: int, b: int): int {
    if a < b then b else a
  }

  lemma {:induction false} SumUpdate(xs: seq<int>, i: nat, v: int)
    requires i < |xs|
    ensures Sum(xs[i := v]) == Sum(xs) - xs[i] + v
  {
    if i == 0 {
      assert xs[i := v][1..] == xs[1..];
    } else {
      assert xs[i := v][1..] == xs[1..][i - 1 := v];
      SumUpdate(xs[1..], i - 1, v);
    }
  }

  lemma {:induction false} SumZeros(xs: seq<int>)
    requires forall i :: 0 <= i < |xs| ==> xs[i] == 0
    ensures Sum(xs) == 0
  {
    if xs != [] {
      SumZeros(xs[1..]);
    }
  }

  lemma {:induction false} SumNonNegative(xs: seq<int>)
    requires forall i :: 0 <= i < |xs| ==> xs[i] >= 0
    ensures Sum(xs) >= 0
  {
    if xs != [] {
      SumNonNegative(xs[1..]);
    }
  }

  /** Every length cut down to a level. */
  function Capped(xs: seq<int>, level: int): (r: seq<int>)
    ensures |r| == |xs|
  {
    seq(|xs|, i requires 0 <= i < |xs| => Min(xs[i], level))
  }

  function Clamped(xs: seq<int>): (r: seq<int>)
    ensures |r| == |xs| && forall i :: 0 <= i < |r| ==> r[i] >= 0
  {
    seq(|xs|, i requires 0 <= i < |xs| => Max(0, xs[i]))
  }

  // ---------------------------------------------------------------------
  // Longest first
  // ---------------------------------------------------------------------

  /** In the order of a stable sort by descending length, i comes before j. */
  predicate Before(xs: seq<int>, i: int, j: int)
    requires 0 <= i < |xs| && 0 <= j < |xs|
  {
    xs[i] > xs[j] || (xs[i] == xs[j] && i < j)
  }

  predicate Indices(xs: seq<int>, order: seq<int>) {
    forall p :: 0 <= p < |order| ==> 0 <= order[p] < |xs|
  }

  predicate Ordered(xs: seq<int>, order: seq<int>) {
    Indices(xs, order) && forall p, q :: 0 <= p < q < |order| ==> Before(xs, order[p], order[q])
  }

  function Insert(xs: seq<int>, i: int, order: seq<int>): (r: seq<int>)
    requires 0 <= i < |xs| && Indices(xs, order)
    ensures |r| == |order| + 1 && Indices(xs, r)
    ensures forall x :: x in r <==> x == i || x in order
  {
    if order == [] || xs[order[0]] < xs[i] then [i] + order else [order[0]] + Insert(xs, i, order[1..])
  }

  /** sorted(range(n), key=lengths, reverse=True). */
  function Order(xs: seq<int>, n: nat): (r: seq<int>)
    requires n <= |xs|
    ensures |r| == n && Indices(xs, r) && forall x :: x in r <==> 0 <= x < n
  {
    if n == 0 then [] else Insert(xs, n - 1, Order(xs, n - 1))
  }

  lemma {:induction false} InsertKeepsOrder(xs: seq<int>, i: int, order: seq<int>)
    requires 0 <= i < |xs| && Ordered(xs, order) && forall x :: x in order ==> x < i
    ensures Ordered(xs, Insert(xs, i, order))
  {
    if order == [] || xs[order[0]] < xs[i] {
      forall q | 0 <= q < |order|
        ensures Before(xs, i, order[q])
      {
        assert q == 0 || Before(xs, order[0], order[q]);
      }
    } else {
      var rest := Insert(xs, i, order[1..]);
      assert forall x :: x in order[1..] ==> x in order;
      InsertKeepsOrder(xs, i, order[1..]);
      forall q | 0 <= q < |rest|
        ensures Before(xs, order[0], rest[q])
      {
        assert rest[q] in rest;
        if rest[q] != i {
          var p :| 0 <= p < |order[1..]| && order[1..][p] == rest[q];
          assert Before(xs, order[0], order[p + 1]);
        } else {
          assert order[0] in order;
        }
      }
    }
  }

  lemma {:induction false} OrderIsOrdered(xs: seq<int>, n: nat)
    requires n <= |xs|
    ensures Ordered(xs, Order(xs, n))
  {
    if n > 0 {
      OrderIsOrdered(xs, n - 1);
      InsertKeepsOrder(xs, n - 1, Order(xs, n - 1));
    }
  }

  // ---------------------------------------------------------------------
  // Fitting lengths into a budget
  // ---------------------------------------------------------------------

  /** No length grows, none is negative, and together they use the budget to the last character. */
  predicate Fits(xs: seq<int>, budget: int, fitted: seq<int>) {
    && |fitted| == |xs|
    && (forall i :: 0 <= i < |xs| ==> 0 <= fitted[i] <= xs[i])
    && Sum(fitted) == Min(Sum(xs), Max(0, budget))
  }

  /** The level is the highest one that all lengths together can be cut down to. */
  predicate Highest(xs: seq<int>, budget: int, level: int) {
    Sum(Capped(xs, level)) <= budget < Sum(Capped(xs, level + 1))
  }

  /** Nothing is cut below the level; what is left over goes to the longest ones first. */
  predicate Leveled(xs: seq<int>, fitted: seq<int>, level: int) {
    && |fitted| == |xs|
    && (forall i :: 0 <= i < |xs| ==> fitted[i] >= Min(xs[i], level))
    && (forall i, j :: 0 <= i < |xs| && 0 <= j < |xs| && Before(xs, i, j) && fitted[j] > Min(xs[j], level) ==>
          fitted[i] == xs[i])
  }

  method MaxOf(xs: seq<int>) returns (m: int)
    requires xs != []
    ensures m in xs && forall i :: 0 <= i < |xs| ==> xs[i] <= m
  {
    m := xs[0];
    for k := 1 to |xs|
      invariant m in xs && forall i :: 0 <= i < k ==> xs[i] <= m
    {
      if xs[k] > m {
        m := xs[k];
      }
    }
  }

  /** The binary search of _fit_pattern_lengths. */
  method FindLevel(xs: seq<int>, budget: int) returns (best: int)
    requires xs != [] && 0 < budget < Sum(xs) && forall i :: 0 <= i < |xs| ==> xs[i] >= 0
    ensures best >= 0 && Highest(xs, budget, best)
  {
    hide Sum;
    var top := MaxOf(xs);
    var lo, hi := 0, top;
    best := 0;
    assert Capped(xs, top + 1) == xs;
    NothingCapped(xs);
    while lo <= hi
      invariant 0 <= lo <= hi + 1
      invariant best == if lo == 0 then 0 else lo - 1
      invariant Sum(Capped(xs, best)) <= budget < Sum(Capped(xs, hi + 1))
    {
      var mid := (lo + hi) / 2;
      if Sum(Capped(xs, mid)) <= budget {
        best := mid;
        lo := mid + 1;
      } else {
        hi := mid - 1;
      }
    }
  }

  lemma NothingCapped(xs: seq<int>)
    requires forall i :: 0 <= i < |xs| ==> xs[i] >= 0
    ensures Sum(Capped(xs, 0)) == 0
  {
    SumZeros(Capped(xs, 0));
  }

  /** _fit_pattern_lengths. */
  method FitPatternLengths(raw: seq<int>, budget: int) returns (fitted: seq<int>, ghost level: int)
    ensures Fits(Clamped(raw), budget, fitted)
    ensures Sum(Clamped(raw)) <= budget ==> fitted == Clamped(raw)
    ensures 0 < budget < Sum(Clamped(raw)) ==> Highest(Clamped(raw), budget, level) && Leveled(Clamped(raw), fitted, level)
  {
    hide Leveled;
    hide Capped;
    hide Clamped;
    var xs := Clamped(raw);
    SumNonNegative(xs);
    level := 0;
    if Sum(xs) <= budget || xs == [] { return xs, level; }
    if budget <= 0 {
      fitted := seq(|xs|, i => 0);
      SumZeros(fitted);
      return;
    }
    var best := FindLevel(xs, budget);
    level := best;
    fitted := GiveExtra(xs, budget, best);
  }

  /** While order[..k] has been served, the extra goes in order, and whoever got some is after full ones only. */
  ghost predicate Served(xs: seq<int>, order: seq<int>, fitted: seq<int>, level: int, k: nat, extra: int)
    requires Indices(xs, order) && |fitted| == |xs|
  {
    && k <= |order|
    && (forall i :: 0 <= i < |xs| ==> Min(xs[i], level) <= fitted[i] <= xs[i])
    && (forall p :: k <= p < |order| ==> fitted[order[p]] == Min(xs[order[p]], level))
    && (extra > 0 ==> forall p :: 0 <= p < k ==> fitted[order[p]] == xs[order[p]])
    && (forall p, q :: 0 <= p < q < |order| && fitted[order[q]] > Min(xs[order[q]], level) ==>
          fitted[order[p]] == xs[order[p]])
  }

  /** The greedy pass: the remaining budget, to the longest first. */
  method GiveExtra(xs: seq<int>, budget: int, level: int) returns (fitted: seq<int>)
    requires level >= 0 && budget < Sum(xs) && Highest(xs, budget, level) && forall i :: 0 <= i < |xs| ==> xs[i] >= 0
    ensures Fits(xs, budget, fitted) && Leveled(xs, fitted, level)
  {
    hide Sum;
    hide Order;
    hide Served;
    hide Leveled;
    fitted := Capped(xs, level);
    SumNonNegative(fitted);
    var extra := budget - Sum(fitted);
    var order := Order(xs, |xs|);
    OrderIsOrdered(xs, |xs|);
    StartServing(xs, order, level, extra);
    var k := 0;
    while k < |order|
      invariant k <= |order| && |fitted| == |xs| && extra >= 0
      invariant Served(xs, order, fitted, level, k, extra)
      invariant Sum(fitted) + extra == budget
    {
      if extra <= 0 { break; }
      var i := order[k];
      var room := xs[i] - fitted[i];
      if room > 0 {
        var give := Min(extra, room);
        ServeOne(xs, order, fitted, level, k, extra, give);
        SumUpdate(fitted, i, fitted[i] + give);
        fitted := fitted[i := fitted[i] + give];
        extra := extra - give;
      } else {
        ServedBounds(xs, order, fitted, level, k, extra);
        ServeOne(xs, order, fitted, level, k, extra, 0);
        assert fitted[i := fitted[i] + 0] == fitted;
      }
      k := k + 1;
    }
    AllServed(xs, order, fitted, level, k, extra, budget);
  }

  lemma StartServing(xs: seq<int>, order: seq<int>, level: int, extra: int)
    requires level >= 0 && Indices(xs, order)
    ensures Served(xs, order, Capped(xs, level), level, 0, extra)
  {
  }

  lemma ServeOne(xs: seq<int>, order: seq<int>, fitted: seq<int>, level: int, k: nat, extra: int, give: int)
    requires Ordered(xs, order) && |fitted| == |xs| && k < |order| && extra > 0
    requires Served(xs, order, fitted, level, k, extra)
    requires give == Min(extra, xs[order[k]] - fitted[order[k]])
    ensures var i := order[k];
            Served(xs, order, fitted[i := fitted[i] + give], level, k + 1, extra - give)
  {
    assert forall p :: 0 <= p < |order| && p != k ==> order[p] != order[k] by {
      assert forall p :: 0 <= p < k ==> Before(xs, order[p], order[k]);
      assert forall p :: k < p < |order| ==> Before(xs, order[k], order[p]);
    }
  }

  lemma ServedBounds(xs: seq<int>, order: seq<int>, fitted: seq<int>, level: int, k: nat, extra: int)
    requires Indices(xs, order) && |fitted| == |xs| && Served(xs, order, fitted, level, k, extra)
    ensures forall i :: 0 <= i < |xs| ==> fitted[i] <= xs[i]
  {
  }

  /** Extra that is left over means that everything is full. */
  lemma LeftOver(xs: seq<int>, order: seq<int>, fitted: seq<int>, level: int, extra: int)
    requires order == Order(xs, |xs|) && |fitted| == |xs| && Served(xs, order, fitted, level, |order|, extra)
    ensures extra > 0 ==> fitted == xs
  {
    forall i | 0 <= i < |xs| && extra > 0
      ensures fitted[i] == xs[i]
    {
      assert i in order;
    }
  }

  lemma Position(xs: seq<int>, order: seq<int>, p: nat, q: nat)
    requires Ordered(xs, order) && p < |order| && q < |order| && Before(xs, order[p], order[q])
    ensures p < q
  {
  }

  lemma AllServed(xs: seq<int>, order: seq<int>, fitted: seq<int>, level: int, k: nat, extra: int, budget: int)
    requires order == Order(xs, |xs|) && Ordered(xs, order) && |fitted| == |xs| && extra >= 0
    requires Served(xs, order, fitted, level, k, extra) && (k == |order| || extra == 0)
    requires Sum(fitted) + extra == budget < Sum(xs) && level >= 0
    requires forall i :: 0 <= i < |xs| ==> xs[i] >= 0
    ensures Fits(xs, budget, fitted) && Leveled(xs, fitted, level)
  {
    SumNonNegative(fitted);
    if k == |order| {
      LeftOver(xs, order, fitted, level, extra);
    }
    forall i, j | 0 <= i < |xs| && 0 <= j < |xs| && Before(xs, i, j) && fitted[j] > Min(xs[j], level)
      ensures fitted[i] == xs[i]
    {
      assert i in order && j in order;
      var p, q :| 0 <= p < |order| && order[p] == i && 0 <= q < |order| && order[q] == j;
      Position(xs, order, p, q);
    }
  }

  // ---------------------------------------------------------------------
  // Shortening a text in the middle
  // ---------------------------------------------------------------------

  const ELLIPSIS := '\U{2026}'

  /** _shorten_middle. */
  function ShortenMiddle(text: string, maxLen: int): (r: string)
    ensures |r| == Min(|text|, Max(0, maxLen))
  {
    if maxLen <= 0 then []
    else if |text| <= maxLen then text
    else if maxLen == 1 then text[..1]
    else
      var inner := maxLen - 1;
      var head := inner / 2;
      text[..head] + [ELLIPSIS] + text[|text| - (inner - head)..]
  }

  /** The first h and the last t characters of the text, around an ellipsis. */
  predicate AroundEllipsis(text: string, r: string, h: nat, t: nat) {
    h + t < |text| && r == text[..h] + [ELLIPSIS] + text[|text| - t..]
  }

  /** What is left of the text: all of it, its two ends, or, in one place or none, its first letter or nothing. */
  ghost predicate Shortened(text: string, r: string) {
    || r == text
    || (|r| >= 2 && exists h: nat, t: nat :: h <= t <= h + 1 && AroundEllipsis(text, r, h, t))
    || (|r| == 1 && r <= text)
    || r == []
  }

  lemma ShortenKeepsEnds(text: string, maxLen: int)
    ensures Shortened(text, ShortenMiddle(text, maxLen))
    ensures maxLen >= |text| ==> ShortenMiddle(text, maxLen) == text
  {
    if 1 < maxLen < |text| {
      var h := (maxLen - 1) / 2;
      assert AroundEllipsis(text, ShortenMiddle(text, maxLen), h, maxLen - 1 - h);
    }
  }

  // ---------------------------------------------------------------------
  // The parts of a line
  // ---------------------------------------------------------------------

  datatype Item = Item(pattern: string, files: seq<string>, onlyPinned: bool, truncated: bool)

  /** A pattern, the facts about it that must stay, and what may go. */
  datatype Part = Part(pattern: string, protected: string, expendable: string)

  const MARKER := " [truncated]"

  function Join(sep: string, xs: seq<string>): string {
    if xs == [] then [] else if |xs| == 1 then xs[0] else xs[0] + sep + Join(sep, xs[1..])
  }

  function FirstSpace(s: string): (k: nat)
    ensures k <= |s|
    ensures s != [] && !IsSpace(s[0]) ==> k > 0
  {
    if s == [] || IsSpace(s[0]) then 0 else 1 + FirstSpace(s[1..])
  }

  /** str.split(). */
  function Words(s: string): seq<string>
    decreases |s|
  {
    var t := LStrip(s);
    if t == [] then []
    else
      var k := FirstSpace(t);
      [t[..k]] + Words(t[k..])
  }

  function Collapse(s: string): string {
    Join(" ", Words(s))
  }

  function Names(files: seq<string>): seq<string> {
    if files == [] then []
    else (if Blank(files[0]) then [] else [Collapse(files[0])]) + Names(files[1..])
  }

  function Flag(onlyPinned: bool): string {
    if onlyPinned then "only pinned" else "NOT ONLY PINNED"
  }

  /** _scope_entry_parts. */
  function PartOf(item: Item): Option<Part> {
    if Blank(item.pattern) then None
    else
      var names := Names(item.files);
      var facts := " [" + Flag(item.onlyPinned) + "] -> dir contains " + Digits(|names|) + " file(s)";
      var mark := if item.truncated then MARKER else "";
      if names == [] then Some(Part(Collapse(item.pattern), facts, mark))
      else
        var rest := Join(", ", names[1..]);
        Some(Part(Collapse(item.pattern), facts + ": " + names[0], (if rest == [] then "" else ", " + rest) + mark))
  }

  function PartsOf(items: seq<Item>): seq<Part> {
    if items == [] then []
    else (match PartOf(items[0]) case None => [] case Some(p) => [p]) + PartsOf(items[1..])
  }

  function Prefix(permission: string): string {
    "permission: " + (if Blank(permission) then "external_directory" else Collapse(permission)) + " "
  }

  // ---------------------------------------------------------------------
  // Assembling
  // ---------------------------------------------------------------------

  function Patterns(parts: seq<Part>): (r: seq<string>)
    ensures |r| == |parts|
  {
    seq(|parts|, i requires 0 <= i < |parts| => parts[i].pattern)
  }

  function Protecteds(parts: seq<Part>): (r: seq<string>)
    ensures |r| == |parts|
  {
    seq(|parts|, i requires 0 <= i < |parts| => parts[i].protected)
  }

  function Expendables(parts: seq<Part>): (r: seq<string>)
    ensures |r| == |parts|
  {
    seq(|parts|, i requires 0 <= i < |parts| => parts[i].expendable)
  }

  function Empties(n: nat): (r: seq<string>)
    ensures |r| == n
  {
    seq(n, i => "")
  }

  function Chunks(patterns: seq<string>, parts: seq<Part>, extras: seq<string>): (r: seq<string>)
    requires |patterns| == |parts| == |extras|
    ensures |r| == |parts|
  {
    seq(|parts|, i requires 0 <= i < |parts| => patterns[i] + parts[i].protected + extras[i])
  }

  function Assemble(prefix: string, patterns: seq<string>, parts: seq<Part>, extras: seq<string>): string
    requires |patterns| == |parts| == |extras|
  {
    prefix + Join("; ", Chunks(patterns, parts, extras))
  }

  function Lens(xs: seq<string>): (r: seq<int>)
    ensures |r| == |xs| && forall i :: 0 <= i < |r| ==> r[i] == |xs[i]|
  {
    seq(|xs|, i requires 0 <= i < |xs| => |xs[i]|)
  }

  lemma {:induction false} JoinLength(sep: string, xs: seq<string>)
    requires |sep| == 2 && xs != []
    ensures |Join(sep, xs)| == Sum(Lens(xs)) + 2 * (|xs| - 1)
    decreases |xs|
  {
    assert Lens(xs)[1..] == Lens(xs[1..]);
    if |xs| > 1 {
      JoinLength(sep, xs[1..]);
    } else {
      assert Lens(xs[1..]) == [];
    }
  }

  lemma {:induction false} ChunkLengths(patterns: seq<string>, parts: seq<Part>, extras: seq<string>)
    requires |patterns| == |parts| == |extras|
    ensures Sum(Lens(Chunks(patterns, parts, extras))) == Sum(Lens(patterns)) + Sum(Lens(Protecteds(parts))) + Sum(Lens(extras))
    decreases |parts|
  {
    if parts != [] {
      ChunkLengths(patterns[1..], parts[1..], extras[1..]);
      assert Lens(Chunks(patterns, parts, extras))[1..] == Lens(Chunks(patterns[1..], parts[1..], extras[1..]));
      assert Lens(patterns)[1..] == Lens(patterns[1..]);
      assert Lens(Protecteds(parts))[1..] == Lens(Protecteds(parts[1..]));
      assert Lens(extras)[1..] == Lens(extras[1..]);
    }
  }

  function ProtectedLen(prefix: string, parts: seq<Part>): int {
    |prefix| + 2 * (|parts| - 1) + Sum(Lens(Protecteds(parts)))
  }

  lemma LineLength(prefix: string, patterns: seq<string>, parts: seq<Part>, extras: seq<string>)
    requires |patterns| == |parts| == |extras| && parts != []
    ensures |Assemble(prefix, patterns, parts, extras)|
            == ProtectedLen(prefix, parts) + Sum(Lens(patterns)) + Sum(Lens(extras))
  {
    hide Sum;
    hide Join;
    hide Chunks;
    JoinLength("; ", Chunks(patterns, parts, extras));
    ChunkLengths(patterns, parts, extras);
  }

  lemma {:induction false} JoinHolds(sep: string, xs: seq<string>, i: nat) returns (a: string, b: string)
    requires i < |xs|
    ensures Join(sep, xs) == a + xs[i] + b
    decreases |xs|
  {
    if |xs| == 1 {
      a, b := "", "";
    } else if i == 0 {
      a, b := "", sep + Join(sep, xs[1..]);
      assert Join(sep, xs) == xs[0] + b;
    } else {
      var c;
      c, b := JoinHolds(sep, xs[1..], i - 1);
      a := xs[0] + sep + c;
      assert a + xs[i] + b == xs[0] + sep + (c + xs[i] + b);
    }
  }

  /** Every entry's facts stand verbatim in an assembled line, right after its pattern. */
  lemma FactsStand(prefix: string, patterns: seq<string>, parts: seq<Part>, extras: seq<string>, i: nat)
    returns (a: string, b: string)
    requires |patterns| == |parts| == |extras| && i < |parts|
    ensures Assemble(prefix, patterns, parts, extras) == a + patterns[i] + parts[i].protected + b
    ensures extras[i] <= b
  {
    hide Join;
    var c, d := JoinHolds("; ", Chunks(patterns, parts, extras), i);
    a, b := prefix + c, extras[i] + d;
    assert a + patterns[i] + parts[i].protected + b == prefix + (c + (patterns[i] + parts[i].protected + extras[i]) + d);
  }

  // ---------------------------------------------------------------------
  // What may go
  // ---------------------------------------------------------------------

  /** The expendable text itself, nothing, or a cut of it at a comma, with the truncation mark if it had one. */
  ghost predicate CutAtComma(text: string, r: string) {
    || r == text
    || r == []
    || (EndsWith(text, MARKER) && r == MARKER)
    || exists k :: 0 < k < |text| && text[k] == ',' && (r == text[..k] || (EndsWith(text, MARKER) && r == text[..k] + MARKER))
  }

  /** str.rfind(','). */
  function LastComma(s: string): (k: int)
    ensures -1 <= k < |s| && (k >= 0 ==> s[k] == ',') && forall i :: k < i < |s| ==> s[i] != ','
  {
    if s == [] then -1
    else if s[|s| - 1] == ',' then |s| - 1
    else LastComma(s[..|s| - 1])
  }

  method FitExtra(text: string, room: int) returns (extra: string)
    ensures CutAtComma(text, extra)
    ensures |extra| <= Max(0, room)
    ensures |text| <= room ==> extra == text
  {
    hide LastComma;
    if room <= 0 || text == [] { return []; }
    if |text| <= room { return text; }
    var snippet := text[..room];
    var cut := LastComma(snippet);
    if cut > 0 {
      assert snippet[cut] == text[cut] && snippet[..cut] == text[..cut];
      snippet := snippet[..cut];
    } else {
      snippet := [];
    }
    extra := snippet;
    if EndsWith(text, MARKER) && |snippet| + |MARKER| <= room {
      extra := snippet + MARKER;
      assert snippet == [] ==> extra == MARKER;
    }
  }

  method FitExtras(parts: seq<Part>, space: int) returns (extras: seq<string>)
    requires space >= 0
    ensures |extras| == |parts| && Sum(Lens(extras)) <= space
    ensures forall i :: 0 <= i < |parts| ==> CutAtComma(parts[i].expendable, extras[i])
  {
    hide Sum;
    hide CutAtComma;
    extras := [];
    var room := space;
    NoLens();
    for k := 0 to |parts|
      invariant |extras| == k && room >= 0 && Sum(Lens(extras)) + room == space
      invariant forall i :: 0 <= i < k ==> CutAtComma(parts[i].expendable, extras[i])
    {
      var extra := FitExtra(parts[k].expendable, room);
      OneMore(extras, extra);
      extras := extras + [extra];
      room := room - |extra|;
    }
  }

  lemma NoLens()
    ensures Sum(Lens([])) == 0
  {
  }

  lemma {:induction false} SumSnoc(xs: seq<int>, x: int)
    ensures Sum(xs + [x]) == Sum(xs) + x
  {
    if xs != [] {
      assert (xs + [x])[1..] == xs[1..] + [x];
      SumSnoc(xs[1..], x);
    }
  }

  lemma OneMore(xs: seq<string>, x: string)
    ensures Sum(Lens(xs + [x])) == Sum(Lens(xs)) + |x|
  {
    assert Lens(xs + [x]) == Lens(xs) + [|x|];
    SumSnoc(Lens(xs), |x|);
  }

  // ---------------------------------------------------------------------
  // The summary
  // ---------------------------------------------------------------------

  /** text[:limit], which counts from the end when the limit is negative. */
  function Cut(text: string, limit: int): string {
    if limit >= 0 then text[..Min(limit, |text|)] else text[..Max(0, |text| + limit)]
  }

  /** The pieces of a line whose patterns had to be shortened. */
  ghost predicate Pieces(prefix: string, parts: seq<Part>, limit: int, patterns: seq<string>, extras: seq<string>) {
    && |patterns| == |parts| == |extras|
    && (forall i :: 0 <= i < |parts| ==> Shortened(parts[i].pattern, patterns[i]))
    && (forall i :: 0 <= i < |parts| ==> CutAtComma(parts[i].expendable, extras[i]))
    && Fits(Lens(Patterns(parts)), limit - ProtectedLen(prefix, parts), Lens(patterns))
  }

  /** What the line is: complete; or with all its facts, shortened patterns and cut extras; or cut off. */
  ghost predicate Layout(prefix: string, parts: seq<Part>, limit: Option<int>, line: string) {
    var full := Assemble(prefix, Patterns(parts), parts, Expendables(parts));
    if limit.None? || |full| <= limit.value then line == full
    else if ProtectedLen(prefix, parts) > limit.value then
      line == Cut(Assemble(prefix, Empties(|parts|), parts, Empties(|parts|)), limit.value)
    else exists patterns, extras ::
        Pieces(prefix, parts, limit.value, patterns, extras) && line == Assemble(prefix, patterns, parts, extras)
  }

  method ShortenAll(parts: seq<Part>, budget: int) returns (patterns: seq<string>)
    ensures |patterns| == |parts| && Fits(Lens(Patterns(parts)), budget, Lens(patterns))
    ensures forall i :: 0 <= i < |parts| ==> Shortened(parts[i].pattern, patterns[i])
  {
    hide Sum;
    hide ShortenMiddle;
    hide Shortened;
    var raw := Lens(Patterns(parts));
    assert Clamped(raw) == raw;
    ghost var level;
    var lengths;
    lengths, level := FitPatternLengths(raw, budget);
    patterns := [];
    for k := 0 to |parts|
      invariant |patterns| == k
      invariant forall i :: 0 <= i < k ==> |patterns[i]| == lengths[i] && Shortened(parts[i].pattern, patterns[i])
    {
      ShortenKeepsEnds(parts[k].pattern, lengths[k]);
      patterns := patterns + [ShortenMiddle(parts[k].pattern, lengths[k])];
    }
    assert Lens(patterns) == lengths;
  }

  /** format_permission_scope_summary. */
  method Summary(permission: string, items: seq<Item>, limit: Option<int>) returns (line: Option<string>)
    ensures line.None? <==> PartsOf(items) == []
    ensures line.Some? ==> Layout(Prefix(permission), PartsOf(items), limit, line.value)
    ensures line.Some? && limit.Some? && limit.value >= 0 ==> |line.value| <= limit.value
  {
    hide Assemble;
    hide PartsOf;
    hide Prefix;
    hide Sum;
    hide Fits;
    hide Shortened;
    hide CutAtComma;
    hide Patterns;
    hide Expendables;
    hide Protecteds;
    var parts := PartsOf(items);
    if parts == [] { return None; }
    var prefix := Prefix(permission);
    var full := Assemble(prefix, Patterns(parts), parts, Expendables(parts));
    if limit.None? || |full| <= limit.value { return Some(full); }
    var none := Empties(|parts|);
    var budget := limit.value - ProtectedLen(prefix, parts);
    if budget < 0 {
      return Some(Cut(Assemble(prefix, none, parts, none), limit.value));
    }
    var patterns := ShortenAll(parts, budget);
    LineLength(prefix, patterns, parts, none);
    SumZeros(Lens(none));
    FitsBudget(Lens(Patterns(parts)), budget, Lens(patterns));
    var room := limit.value - |Assemble(prefix, patterns, parts, none)|;
    var extras := FitExtras(parts, room);
    LineLength(prefix, patterns, parts, extras);
    assert Pieces(prefix, parts, limit.value, patterns, extras);
    return Some(Assemble(prefix, patterns, parts, extras));
  }

  lemma FitsBudget(xs: seq<int>, budget: int, fitted: seq<int>)
    requires Fits(xs, budget, fitted) && budget >= 0
    ensures Sum(fitted) <= budget
  {
  }

  /** When the facts fit into the limit, every one of them is in the line, right after its shortened pattern. */
  lemma SummaryKeepsFacts(prefix: string, parts: seq<Part>, limit: int, line: string, i: nat)
    returns (a: string, pattern: string, b: string)
    requires Layout(prefix, parts, Some(limit), line) && ProtectedLen(prefix, parts) <= limit && i < |parts|
    ensures line == a + pattern + parts[i].protected + b && Shortened(parts[i].pattern, pattern)
  {
    hide Assemble;
    hide Shortened;
    hide CutAtComma;
    hide Fits;
    hide ProtectedLen;
    hide Patterns;
    hide Expendables;
    var full := Assemble(prefix, Patterns(parts), parts, Expendables(parts));
    if |full| <= limit {
      a, b := FactsStand(prefix, Patterns(parts), parts, Expendables(parts), i);
      pattern := Patterns(parts)[i];
      WholePattern(parts, i);
    } else {
      var patterns, extras :|
        Pieces(prefix, parts, limit, patterns, extras) && line == Assemble(prefix, patterns, parts, extras);
      a, b := FactsStand(prefix, patterns, parts, extras, i);
      pattern := patterns[i];
    }
  }

  lemma WholePattern(parts: seq<Part>, i: nat)
    requires i < |parts|
    ensures Patterns(parts)[i] == parts[i].pattern && Shortened(parts[i].pattern, parts[i].pattern)
  {
  }
}
