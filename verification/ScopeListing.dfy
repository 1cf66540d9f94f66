/**
 The capped listing of a directory tree behind a permission request, and the "only pinned" verdict drawn
 from it (win_collab/core.py).
 */
module ScopeListing {
  import opened Basics

  /** One directory entry; a link is a leaf and is not followed. */
  datatype Node = File | Link | Dir(entries: seq<Entry>) | Other
  datatype Entry = Entry(name: string, node: Node)

  type Path = seq<string>

  const CAP := 50
  const MAX_PINS := 8

  /** No two entries of one directory have the same name, at any depth. */
  ghost predicate TreeOk(entries: seq<Entry>)
    decreases entries
  {
    && (forall i, j :: 0 <= i < j < |entries| ==> entries[i].name != entries[j].name)
    && forall i :: 0 <= i < |entries| && entries[i].node.Dir? ==> TreeOk(entries[i].node.entries)
  }

  // ---------------------------------------------------------------------
  // All files and links
  // ---------------------------------------------------------------------

  /** Every file and link below the entries, at any depth, in the order of the walk. */
  function Leaves(entries: seq<Entry>, prefix: Path): seq<Path>
    decreases entries, 0
  {
    if entries == [] then [] else LeavesOf(entries[0], prefix) + Leaves(entries[1..], prefix)
  }

  function LeavesOf(e: Entry, prefix: Path): seq<Path>
    decreases e, 1
  {
    match e.node
    case File => [prefix + [e.name]]
    case Link => [prefix + [e.name]]
    case Dir(entries) => Leaves(entries, prefix + [e.name])
    case Other => []
  }

  /** The file or link that this path, read from the entries down, leads to. */
  predicate IsLeaf(entries: seq<Entry>, path: Path)
    decreases |path|, 0
  {
    && path != []
    && exists i :: 0 <= i < |entries| && entries[i].name == path[0] && LeadsTo(entries[i].node, path[1..])
  }

  predicate LeadsTo(node: Node, path: Path)
    decreases |path|, 1
  {
    if path == [] then node.File? || node.Link? else node.Dir? && IsLeaf(node.entries, path)
  }

  /** A path is in the walk exactly if following its names from the top ends at a file or a link. */
  lemma {:induction false} LeavesAreLeaves(entries: seq<Entry>, prefix: Path, path: Path)
    ensures prefix + path in Leaves(entries, prefix) <==> IsLeaf(entries, path)
    decreases entries, 0
  {
    if entries == [] {
      assert !IsLeaf(entries, path);
    } else {
      LeavesOfIsLeaf(entries[0], prefix, path);
      LeavesAreLeaves(entries[1..], prefix, path);
      IsLeafSplit(entries, path);
    }
  }

  predicate IsLeafOf(e: Entry, path: Path) {
    path != [] && e.name == path[0] && LeadsTo(e.node, path[1..])
  }

  lemma IsLeafSplit(entries: seq<Entry>, path: Path)
    requires entries != []
    ensures IsLeaf(entries, path) <==> IsLeafOf(entries[0], path) || IsLeaf(entries[1..], path)
  {
    if path != [] {
      if IsLeaf(entries[1..], path) {
        var i :| 0 <= i < |entries[1..]| && entries[1..][i].name == path[0] && LeadsTo(entries[1..][i].node, path[1..]);
        assert entries[i + 1] == entries[1..][i];
      }
      if IsLeaf(entries, path) && !IsLeafOf(entries[0], path) {
        var i :| 0 <= i < |entries| && entries[i].name == path[0] && LeadsTo(entries[i].node, path[1..]);
        assert entries[1..][i - 1] == entries[i];
      }
    }
  }

  lemma {:induction false} LeavesOfIsLeaf(e: Entry, prefix: Path, path: Path)
    ensures prefix + path in LeavesOf(e, prefix) <==> IsLeafOf(e, path)
    decreases e, 1
  {
    match e.node {
      case Dir(entries) =>
        LeavesStartWith(entries, prefix + [e.name]);
        if path == [] || path[0] != e.name {
          if prefix + path in Leaves(entries, prefix + [e.name]) {
            StartsThere(prefix, path, e.name);
            assert false;
          }
        } else {
          assert prefix + path == (prefix + [e.name]) + path[1..];
          LeavesAreLeaves(entries, prefix + [e.name], path[1..]);
        }
      case Other =>
      case _ =>
        SameTail(prefix, path, e.name);
    }
  }

  lemma SameTail(prefix: Path, path: Path, name: string)
    ensures prefix + path == prefix + [name] <==> path == [name]
  {
    if prefix + path == prefix + [name] {
      assert path == (prefix + path)[|prefix|..] == [name];
    }
  }

  lemma StartsThere(prefix: Path, path: Path, name: string)
    requires prefix + [name] <= prefix + path
    ensures path != [] && path[0] == name
  {
    assert (prefix + path)[|prefix|] == (prefix + [name])[|prefix|] == name;
  }

  lemma {:induction false} LeavesStartWith(entries: seq<Entry>, prefix: Path)
    ensures forall p :: p in Leaves(entries, prefix) ==> prefix <= p && |prefix| < |p|
    decreases entries, 0
  {
    if entries != [] {
      LeafStartsWith(entries[0], prefix);
      LeavesStartWith(entries[1..], prefix);
    }
  }

  lemma {:induction false} LeafStartsWith(e: Entry, prefix: Path)
    ensures forall p :: p in LeavesOf(e, prefix) ==> prefix + [e.name] <= p
    decreases e, 1
  {
    if e.node.Dir? {
      LeavesStartWith(e.node.entries, prefix + [e.name]);
    }
  }

  /** The name that a leaf below the entries has right after the prefix is one of the entries' names. */
  lemma {:induction false} LeavesNamed(entries: seq<Entry>, prefix: Path)
    ensures forall p :: p in Leaves(entries, prefix) ==>
              |prefix| < |p| && exists i :: 0 <= i < |entries| && entries[i].name == p[|prefix|]
    decreases |entries|
  {
    if entries != [] {
      LeafStartsWith(entries[0], prefix);
      LeavesNamed(entries[1..], prefix);
      forall p | p in Leaves(entries, prefix)
        ensures |prefix| < |p| && exists i :: 0 <= i < |entries| && entries[i].name == p[|prefix|]
      {
        if p in LeavesOf(entries[0], prefix) {
          assert p[|prefix|] == (prefix + [entries[0].name])[|prefix|] == entries[0].name;
        } else {
          var i :| 0 <= i < |entries[1..]| && entries[1..][i].name == p[|prefix|];
          assert entries[i + 1] == entries[1..][i];
        }
      }
    }
  }

  /** The walk meets no path twice. */
  lemma {:induction false} LeavesDistinct(entries: seq<Entry>, prefix: Path)
    requires TreeOk(entries)
    ensures NoRepeats(Leaves(entries, prefix))
    decreases entries, 0
  {
    if entries != [] {
      var a, b := LeavesOf(entries[0], prefix), Leaves(entries[1..], prefix);
      if entries[0].node.Dir? {
        LeavesDistinct(entries[0].node.entries, prefix + [entries[0].name]);
      }
      LeavesDistinct(entries[1..], prefix);
      LeafStartsWith(entries[0], prefix);
      LeavesNamed(entries[1..], prefix);
      forall i, j | 0 <= i < |a| && 0 <= j < |b|
        ensures a[i] != b[j]
      {
        assert a[i] in a && b[j] in b;
        assert a[i][|prefix|] == (prefix + [entries[0].name])[|prefix|] == entries[0].name;
      }
    }
  }

  // ---------------------------------------------------------------------
  // The capped walk
  // ---------------------------------------------------------------------

  function Take(paths: seq<Path>, n: nat): (r: seq<Path>)
    ensures |r| <= n
  {
    if |paths| <= n then paths else paths[..n]
  }

  /** Does the walk, with n entries listed before, meet one more entry of any kind once the list is full? */
  predicate Overflows(entries: seq<Entry>, prefix: Path, n: nat, cap: nat)
    decreases entries
  {
    entries != []
    && (n >= cap
        || (entries[0].node.Dir? && Overflows(entries[0].node.entries, prefix + [entries[0].name], n, cap))
        || Overflows(entries[1..], prefix, n + |LeavesOf(entries[0], prefix)|, cap))
  }

  /** A walk is cut short only when the list is full, and always when something would not fit. */
  lemma {:induction false} OverflowsIffFull(entries: seq<Entry>, prefix: Path, n: nat, cap: nat)
    ensures Overflows(entries, prefix, n, cap) ==> n + |Leaves(entries, prefix)| >= cap
    ensures n <= cap < n + |Leaves(entries, prefix)| ==> Overflows(entries, prefix, n, cap)
    decreases entries
  {
    if entries != [] {
      if entries[0].node.Dir? {
        OverflowsIffFull(entries[0].node.entries, prefix + [entries[0].name], n, cap);
      }
      OverflowsIffFull(entries[1..], prefix, n + |LeavesOf(entries[0], prefix)|, cap);
    }
  }

  lemma Unroll(entries: seq<Entry>, i: nat, prefix: Path, n: nat, cap: nat)
    requires i < |entries|
    ensures Leaves(entries[i..], prefix) == LeavesOf(entries[i], prefix) + Leaves(entries[i + 1..], prefix)
    ensures Overflows(entries[i..], prefix, n, cap) <==>
              (n >= cap
               || (entries[i].node.Dir? && Overflows(entries[i].node.entries, prefix + [entries[i].name], n, cap))
               || Overflows(entries[i + 1..], prefix, n + |LeavesOf(entries[i], prefix)|, cap))
  {
    assert entries[i..][0] == entries[i] && entries[i..][1..] == entries[i + 1..];
  }

  lemma AtEnd(entries: seq<Entry>, prefix: Path, cap: nat)
    ensures Leaves(entries[|entries|..], prefix) == [] && entries[0..] == entries
    ensures forall n: nat :: !Overflows(entries[|entries|..], prefix, n, cap)
  {
  }

  /** What the user is shown for a path. */
  function Display(path: Path): string {
    if path == [] then "" else if |path| == 1 then path[0] else Display(path[..|path| - 1]) + "/" + path[|path| - 1]
  }

  function Displays(paths: seq<Path>): (r: seq<string>)
    ensures |r| == |paths|
  {
    seq(|paths|, i requires 0 <= i < |paths| => Display(paths[i]))
  }

  /** The lists that the recursive walk appends to. */
  class Listing {
    var files: seq<string>
    var paths: seq<Path>
    var truncated: bool

    constructor ()
      ensures files == [] && paths == [] && !truncated
    {
      files, paths, truncated := [], [], false;
    }

    method Add(path: Path)
      modifies this
      requires files == Displays(paths)
      ensures paths == old(paths) + [path] && files == Displays(paths) && truncated == old(truncated)
    {
      files := files + [Display(path)];
      paths := paths + [path];
    }

    /** The inner walk of _list_scope_files; the entries come sorted by name. */
    method Walk(entries: seq<Entry>, prefix: Path, cap: nat)
      requires !truncated && |paths| <= cap && files == Displays(paths)
      modifies this
      ensures files == Displays(paths)
      ensures truncated <==> Overflows(entries, prefix, |old(paths)|, cap)
      ensures paths == Take(old(paths) + Leaves(entries, prefix), cap)
      decreases entries
    {
      hide Displays;
      hide Leaves;
      hide Overflows;
      ghost var all := paths + Leaves(entries, prefix);
      AtEnd(entries, prefix, cap);
      for i := 0 to |entries|
        invariant !truncated && |paths| <= cap && files == Displays(paths)
        invariant all == paths + Leaves(entries[i..], prefix)
        invariant Overflows(entries, prefix, |old(paths)|, cap) <==> Overflows(entries[i..], prefix, |paths|, cap)
      {
        Unroll(entries, i, prefix, |paths|, cap);
        if |paths| >= cap {
          truncated := true;
          return;
        }
        var e := entries[i];
        match e.node {
          case File => Add(prefix + [e.name]);
          case Link => Add(prefix + [e.name]);
          case Dir(inner) =>
            OverflowsIffFull(inner, prefix + [e.name], |paths|, cap);
            ghost var before := paths;
            Walk(inner, prefix + [e.name], cap);
            if truncated {
              return;
            }
            assert paths == before + Leaves(inner, prefix + [e.name]);
          case Other =>
        }
      }
    }
  }

  // ---------------------------------------------------------------------
  // The verdict
  // ---------------------------------------------------------------------

  predicate AllPinned(paths: seq<Path>, pins: set<Path>) {
    forall i :: 0 <= i < |paths| ==> paths[i] in pins
  }

  /** _list_scope_files and the verdict of external_directory_scope, for a directory that could be read. */
  method ScopeOf(entries: seq<Entry>, pins: set<Path>) returns (files: seq<string>, truncated: bool, onlyPinned: bool)
    ensures files == Displays(Take(Leaves(entries, []), CAP))
    ensures truncated <==> Overflows(entries, [], 0, CAP)
    ensures onlyPinned <==> AllPinned(Take(Leaves(entries, []), CAP), pins)
  {
    hide Displays;
    var listing := new Listing();
    assert [] + Leaves(entries, []) == Leaves(entries, []);
    assert Displays([]) == [] by {
      NoDisplays();
    }
    listing.Walk(entries, [], CAP);
    onlyPinned := true;
    for i := 0 to |listing.paths|
      invariant onlyPinned <==> AllPinned(listing.paths[..i], pins)
    {
      assert listing.paths[..i + 1] == listing.paths[..i] + [listing.paths[i]];
      onlyPinned := onlyPinned && listing.paths[i] in pins;
    }
    assert listing.paths[..|listing.paths|] == listing.paths;
    return listing.files, listing.truncated, onlyPinned;
  }

  lemma NoDisplays()
    ensures Displays([]) == []
  {
  }

  /** More distinct paths than pins cannot all be pinned. */
  lemma {:induction false} Pigeonhole(paths: seq<Path>, pins: set<Path>)
    requires NoRepeats(paths) && AllPinned(paths, pins)
    ensures |paths| <= |pins|
    decreases |paths|
  {
    if paths != [] {
      var rest, last := paths[..|paths| - 1], paths[|paths| - 1];
      Pigeonhole(rest, pins - {last});
    }
  }

  /**
   "Only pinned" is complete.  The walk stops at the cap and the verdict never looks at whether it did; with
   at most eight pins it need not: the verdict holds exactly if every file and link of the tree, at any
   depth, is pinned, and then nothing was cut off.
   */
  lemma OnlyPinnedIsComplete(entries: seq<Entry>, pins: set<Path>)
    requires TreeOk(entries) && |pins| <= MAX_PINS
    ensures AllPinned(Take(Leaves(entries, []), CAP), pins) <==> (forall path :: IsLeaf(entries, path) ==> path in pins)
    ensures AllPinned(Take(Leaves(entries, []), CAP), pins) ==> !Overflows(entries, [], 0, CAP)
  {
    var all := Leaves(entries, []);
    LeavesDistinct(entries, []);
    forall path: Path
      ensures path in all <==> IsLeaf(entries, path)
    {
      LeavesAreLeaves(entries, [], path);
      assert [] + path == path;
    }
    if AllPinned(Take(all, CAP), pins) {
      Pigeonhole(Take(all, CAP), pins);
      OverflowsIffFull(entries, [], 0, CAP);
      assert Take(all, CAP) == all;
      forall path | path in all
        ensures path in pins
      {
        var i :| 0 <= i < |all| && all[i] == path;
      }
    }
  }

  /** Nothing is listed that is not there, no path twice, and everything below the cap. */
  lemma ListingIsExact(entries: seq<Entry>, cap: nat, path: Path)
    requires TreeOk(entries)
    ensures var listed := Take(Leaves(entries, []), cap);
            && NoRepeats(listed) && (path in listed ==> IsLeaf(entries, path))
            && (!Overflows(entries, [], 0, cap) && IsLeaf(entries, path) ==> path in listed)
  {
    LeavesDistinct(entries, []);
    LeavesAreLeaves(entries, [], path);
    assert [] + path == path;
    OverflowsIffFull(entries, [], 0, cap);
  }
}
