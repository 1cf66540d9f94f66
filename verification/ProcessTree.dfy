/**
 Finding what has to be stopped together with a worker: its live descendants, and the pids and groups to
 signal (src/execution_backend/agy_run_registry.py).
 */
module ProcessTree {
  import opened Basics

  /** One line of the process table. */
  datatype Proc = Proc(ppid: nat, pgid: nat, sid: nat, zombie: bool)

  type Table = map<nat, Proc>

  // ---------------------------------------------------------------------
  // Descendants
  // ---------------------------------------------------------------------

  /** p's ancestor n generations up, as far as the table knows. */
  function Up(table: Table, p: nat, n: nat): Option<nat>
    decreases n
  {
    if n == 0 then Some(p)
    else if p in table then Up(table, table[p].ppid, n - 1)
    else None
  }

  ghost predicate Descends(table: Table, root: nat, p: nat) {
    exists n: nat :: n > 0 && Up(table, p, n) == Some(root)
  }

  /** Nobody is their own descendant. */
  ghost predicate Acyclic(table: Table) {
    forall p :: p in table ==> !Descends(table, p, p)
  }

  /** The live descendants: also those whose ancestors in between are zombies. */
  ghost function LiveDescendants(table: Table, root: nat): set<nat> {
    set p | p in table && !table[p].zombie && Descends(table, root, p)
  }

  lemma DescendsStep(table: Table, root: nat, p: nat)
    requires p in table
    ensures Descends(table, root, p) <==> table[p].ppid == root || Descends(table, root, table[p].ppid)
  {
    var q := table[p].ppid;
    assert Up(table, p, 1) == Up(table, q, 0);
    if Descends(table, root, p) {
      var n: nat :| n > 0 && Up(table, p, n) == Some(root);
      assert Up(table, q, n - 1) == Some(root);
    }
    if Descends(table, root, q) {
      var n: nat :| n > 0 && Up(table, q, n) == Some(root);
      assert Up(table, p, n + 1) == Some(root);
    }
  }

  // ---------------------------------------------------------------------
  // The children of each process
  // ---------------------------------------------------------------------

  function ChildrenOf(children: map<nat, seq<nat>>, p: nat): seq<nat> {
    if p in children then children[p] else []
  }

  /** The lists hold each of the pids `done` once, under its parent. */
  ghost predicate ChildrenOk(table: Table, done: set<nat>, children: map<nat, seq<nat>>) {
    && done <= table.Keys
    && (forall p :: NoRepeats(ChildrenOf(children, p)))
    && (forall p, c :: c in ChildrenOf(children, p) <==> c in done && table[c].ppid == p)
  }

  method Children(table: Table) returns (children: map<nat, seq<nat>>)
    ensures ChildrenOk(table, table.Keys, children)
  {
    hide ChildrenOk;
    children := map[];
    NoChildrenYet(table);
    var rest := table.Keys;
    while |rest| > 0
      invariant rest <= table.Keys && ChildrenOk(table, table.Keys - rest, children)
      decreases |rest|
    {
      var c :| c in rest;
      var p := table[c].ppid;
      ChildAdded(table, table.Keys - rest, children, c);
      children := children[p := ChildrenOf(children, p) + [c]];
      assert table.Keys - (rest - {c}) == table.Keys - rest + {c};
      rest := rest - {c};
    }
    assert table.Keys - {} == table.Keys;
  }

  lemma NoChildrenYet(table: Table)
    ensures ChildrenOk(table, table.Keys - table.Keys, map[])
  {
  }

  lemma ChildAdded(table: Table, done: set<nat>, children: map<nat, seq<nat>>, c: nat)
    requires ChildrenOk(table, done, children) && c in table && c !in done
    ensures var p := table[c].ppid;
            ChildrenOk(table, done + {c}, children[p := ChildrenOf(children, p) + [c]])
  {
    var p := table[c].ppid;
    var more := children[p := ChildrenOf(children, p) + [c]];
    assert forall q :: q != p ==> ChildrenOf(more, q) == ChildrenOf(children, q);
    assert c !in ChildrenOf(children, p);
  }

  // ---------------------------------------------------------------------
  // The search
  // ---------------------------------------------------------------------

  /** What has been popped and what is still on the stack: descendants, each once, and no child forgotten. */
  ghost predicate Searching(table: Table, root: nat, seen: set<nat>, stack: seq<nat>) {
    && seen <= table.Keys && NoRepeats(stack)
    && (forall p :: p in stack ==> p in table && p !in seen)
    && (forall p :: p in seen || p in stack ==> Descends(table, root, p))
    && (forall p :: p in table ==> (p in seen || p in stack <==> Reached(table, root, seen, p)))
  }

  /** The parent was expanded, so p was pushed. */
  predicate Reached(table: Table, root: nat, seen: set<nat>, p: nat)
    requires p in table
  {
    table[p].ppid == root || table[p].ppid in seen
  }

  lemma StartSearch(table: Table, root: nat, children: map<nat, seq<nat>>)
    requires ChildrenOk(table, table.Keys, children)
    ensures Searching(table, root, {}, ChildrenOf(children, root))
  {
    var stack := ChildrenOf(children, root);
    forall p | p in stack
      ensures Descends(table, root, p)
    {
      DescendsStep(table, root, p);
    }
    assert forall p :: p in table && table[p].ppid == root ==> p in stack;
  }

  lemma SearchOne(table: Table, root: nat, seen: set<nat>, stack: seq<nat>, children: map<nat, seq<nat>>)
    requires Searching(table, root, seen, stack) && stack != [] && ChildrenOk(table, table.Keys, children)
    requires !Descends(table, root, root)
    ensures var cur := stack[|stack| - 1];
            Searching(table, root, seen + {cur}, stack[..|stack| - 1] + ChildrenOf(children, cur))
  {
    hide Descends;
    var cur, rest := stack[|stack| - 1], stack[..|stack| - 1];
    var kids := ChildrenOf(children, cur);
    var more := rest + kids;
    assert cur in stack && cur != root;
    assert forall p :: p in stack <==> p == cur || p in rest by {
      assert stack == rest + [cur];
    }
    assert forall p :: p in more <==> p in rest || p in kids;
    KidsAreNew(table, root, seen, stack, children, cur);
    forall p | p in table
      ensures p in seen + {cur} || p in more <==> Reached(table, root, seen + {cur}, p)
    {
      assert p in kids <==> table[p].ppid == cur;
      assert p in seen || p in stack <==> Reached(table, root, seen, p);
    }
    Concat(rest, kids);
  }

  lemma Concat(a: seq<nat>, b: seq<nat>)
    requires NoRepeats(a) && NoRepeats(b) && forall p :: p in b ==> p !in a
    ensures NoRepeats(a + b)
  {
    forall i, j | 0 <= i < j < |a + b|
      ensures (a + b)[i] != (a + b)[j]
    {
      if i < |a| <= j {
        assert b[j - |a|] in b && a[i] in a;
      }
    }
  }

  lemma KidsAreNew(table: Table, root: nat, seen: set<nat>, stack: seq<nat>, children: map<nat, seq<nat>>, cur: nat)
    requires Searching(table, root, seen, stack) && cur in stack && cur != root && ChildrenOk(table, table.Keys, children)
    ensures forall p :: p in ChildrenOf(children, cur) ==>
              p in table && table[p].ppid == cur && p !in seen && p !in stack && Descends(table, root, p)
  {
    forall p | p in ChildrenOf(children, cur)
      ensures p in table && table[p].ppid == cur && p !in seen && p !in stack && Descends(table, root, p)
    {
      assert p in table.Keys && table[p].ppid == cur;
      DescendsStep(table, root, p);
      assert !Reached(table, root, seen, p);
    }
  }

  /** When nothing is left on the stack, every descendant has been seen. */
  lemma {:induction false} SeenAll(table: Table, root: nat, seen: set<nat>, p: nat, n: nat)
    requires Searching(table, root, seen, []) && n > 0 && Up(table, p, n) == Some(root)
    ensures p in seen
    decreases n
  {
    assert p in table;
    if n > 1 {
      SeenAll(table, root, seen, table[p].ppid, n - 1);
    } else {
      assert Up(table, table[p].ppid, 0) == Some(root);
    }
  }

  lemma SeenIsDescendants(table: Table, root: nat, seen: set<nat>)
    requires Searching(table, root, seen, [])
    ensures forall p :: p in seen <==> Descends(table, root, p)
  {
    forall p | Descends(table, root, p)
      ensures p in seen
    {
      var n: nat :| n > 0 && Up(table, p, n) == Some(root);
      SeenAll(table, root, seen, p, n);
    }
  }

  predicate Ascending(s: seq<nat>) {
    forall i, j :: 0 <= i < j < |s| ==> s[i] < s[j]
  }

  function InsertPid(p: nat, s: seq<nat>): (r: seq<nat>)
    ensures forall x :: x in r <==> x == p || x in s
  {
    if s == [] || p < s[0] then [p] + s else [s[0]] + InsertPid(p, s[1..])
  }

  lemma {:induction false} InsertAscending(p: nat, s: seq<nat>)
    requires Ascending(s) && p !in s
    ensures Ascending(InsertPid(p, s))
  {
    if s != [] && p > s[0] {
      InsertAscending(p, s[1..]);
      var rest := InsertPid(p, s[1..]);
      forall j | 0 <= j < |rest|
        ensures s[0] < rest[j]
      {
        assert rest[j] in rest;
        if rest[j] in s[1..] {
          var k :| 0 <= k < |s[1..]| && s[1..][k] == rest[j];
          assert s[k + 1] == rest[j];
        }
      }
    }
  }

  /** sorted(out), for an out without repetitions. */
  method Sorted(out: seq<nat>) returns (r: seq<nat>)
    requires NoRepeats(out)
    ensures Ascending(r) && forall p :: p in r <==> p in out
  {
    r := [];
    for i := 0 to |out|
      invariant Ascending(r) && forall p :: p in r <==> p in out[..i]
    {
      assert out[i] !in out[..i];
      InsertAscending(out[i], r);
      r := InsertPid(out[i], r);
      assert out[..i + 1] == out[..i] + [out[i]];
    }
    assert out[..|out|] == out;
  }

  /**
   descendant_pids.  The loop keeps no set of visited zombies, and needs none: each process has one parent,
   so it is met once, unless the root is below itself.
   */
  method DescendantPids(table: Table, root: nat) returns (r: seq<nat>)
    requires !Descends(table, root, root)
    ensures Ascending(r)
    ensures forall p :: p in r <==> p in LiveDescendants(table, root)
  {
    hide ChildrenOk;
    hide Searching;
    hide Descends;
    var children := Children(table);
    var out: seq<nat> := [];
    var stack := ChildrenOf(children, root);
    StartSearch(table, root, children);
    ghost var seen := {};
    while stack != []
      invariant Searching(table, root, seen, stack) && NoRepeats(out)
      invariant forall p :: p in out <==> p in seen && p in table && !table[p].zombie
      decreases |table.Keys - seen|
    {
      var cur := stack[|stack| - 1];
      SearchOne(table, root, seen, stack, children);
      NotSeen(table, root, seen, stack);
      stack := stack[..|stack| - 1];
      if cur in out { assert false; }
      if !(cur !in table || table[cur].zombie) {
        out := out + [cur];
      }
      stack := stack + ChildrenOf(children, cur);
      assert table.Keys - (seen + {cur}) < table.Keys - seen;
      Smaller(table.Keys - (seen + {cur}), table.Keys - seen);
      seen := seen + {cur};
    }
    SeenIsDescendants(table, root, seen);
    r := Sorted(out);
  }

  lemma NotSeen(table: Table, root: nat, seen: set<nat>, stack: seq<nat>)
    requires Searching(table, root, seen, stack) && stack != []
    ensures stack[|stack| - 1] in table && stack[|stack| - 1] !in seen
  {
    assert stack[|stack| - 1] in stack;
  }

  lemma Smaller(a: set<nat>, b: set<nat>)
    requires a < b
    ensures |a| < |b|
  {
    assert b == a + (b - a);
  }

  // ---------------------------------------------------------------------
  // What to signal
  // ---------------------------------------------------------------------

  /** A recorded tool process of the worker. */
  datatype Child = Child(pid: nat, token: string)

  /** Is this still the process that was recorded? */
  predicate StillThere(c: Child, tokens: map<nat, string>) {
    c.pid > 0 && c.token != "" && c.pid in tokens && tokens[c.pid] == c.token
  }

  predicate Live(table: Table, p: nat) {
    p in table && !table[p].zombie
  }

  /** The worker's process group and session. */
  function Leader(pid: nat, pgid: Option<nat>): nat {
    if pgid.Some? && pgid.value != 0 then pgid.value else pid
  }

  ghost function GroupMembers(table: Table, leader: nat): set<nat> {
    set p | p in table && !table[p].zombie && (table[p].sid == leader || table[p].pgid == leader)
  }

  ghost function ChildTrees(table: Table, children: seq<Child>, tokens: map<nat, string>): set<nat> {
    if children == [] then {}
    else ChildTrees(table, children[..|children| - 1], tokens)
         + if StillThere(children[|children| - 1], tokens) then
             {children[|children| - 1].pid} + LiveDescendants(table, children[|children| - 1].pid)
           else {}
  }

  /** The worker, its group and session, its descendants, and what is left of its recorded children. */
  ghost function Targets(table: Table, pid: nat, pgid: Option<nat>, children: seq<Child>, tokens: map<nat, string>): set<nat> {
    {pid} + GroupMembers(table, Leader(pid, pgid)) + LiveDescendants(table, pid) + ChildTrees(table, children, tokens)
  }

  ghost function GroupsOf(table: Table, pids: set<nat>): set<nat> {
    set p | p in pids && Live(table, p) :: table[p].pgid
  }

  lemma AcyclicRoot(table: Table, root: nat)
    requires Acyclic(table)
    ensures !Descends(table, root, root)
  {
    if root !in table {
      assert forall n: nat :: n > 0 ==> Up(table, root, n).None?;
    }
  }

  function SetOf(s: seq<nat>): (r: set<nat>)
    ensures forall p :: p in r <==> p in s
  {
    set p | p in s
  }

  /** The worker's group and session, by one pass over the table. */
  method CollectGroup(table: Table, leader: nat) returns (r: set<nat>)
    ensures r == GroupMembers(table, leader)
  {
    r := {};
    var rest := table.Keys;
    while |rest| > 0
      invariant rest <= table.Keys
      invariant forall p :: p in r <==> p in GroupMembers(table, leader) && p !in rest
      decreases |rest|
    {
      var p :| p in rest;
      if !table[p].zombie && (table[p].sid == leader || table[p].pgid == leader) {
        r := r + {p};
      }
      rest := rest - {p};
    }
  }

  method CollectGroups(table: Table, pids: set<nat>) returns (r: set<nat>)
    ensures r == GroupsOf(table, pids)
  {
    r := {};
    var rest := pids;
    while |rest| > 0
      invariant rest <= pids && r == GroupsOf(table, pids - rest)
      decreases |rest|
    {
      var p :| p in rest;
      MoreGroups(table, pids, rest, p);
      if Live(table, p) {
        r := r + {table[p].pgid};
      }
      rest := rest - {p};
    }
    assert pids - rest == pids;
  }

  lemma MoreGroups(table: Table, pids: set<nat>, rest: set<nat>, p: nat)
    requires rest <= pids && p in rest
    ensures GroupsOf(table, pids - (rest - {p}))
            == GroupsOf(table, pids - rest) + if Live(table, p) then {table[p].pgid} else {}
  {
    assert pids - (rest - {p}) == pids - rest + {p};
  }

  method CollectChildren(table: Table, children: seq<Child>, tokens: map<nat, string>) returns (r: set<nat>)
    requires Acyclic(table)
    ensures r == ChildTrees(table, children, tokens)
  {
    hide LiveDescendants;
    hide Acyclic;
    r := {};
    for i := 0 to |children|
      invariant r == ChildTrees(table, children[..i], tokens)
    {
      var c := children[i];
      assert children[..i + 1][..i] == children[..i];
      if StillThere(c, tokens) {
        AcyclicRoot(table, c.pid);
        var below := DescendantPids(table, c.pid);
        var more := SetOf(below);
        assert more == LiveDescendants(table, c.pid);
        r := r + ({c.pid} + more);
      }
    }
    assert children[..|children|] == children;
  }

  /** _posix_targets. */
  method PosixTargets(table: Table, pid: nat, pgid: Option<nat>, children: seq<Child>, tokens: map<nat, string>,
                      me: nat, myGroup: nat) returns (pids: set<nat>, groups: set<nat>)
    requires Acyclic(table)
    ensures pids == Targets(table, pid, pgid, children, tokens) - {me}
    ensures groups == {Leader(pid, pgid)} + GroupsOf(table, Targets(table, pid, pgid, children, tokens)) - {0, myGroup}
  {
    hide LiveDescendants;
    hide GroupMembers;
    hide ChildTrees;
    hide GroupsOf;
    hide Acyclic;
    var members := CollectGroup(table, Leader(pid, pgid));
    pids := {pid} + members;
    AcyclicRoot(table, pid);
    var list := DescendantPids(table, pid);
    var below := SetOf(list);
    assert below == LiveDescendants(table, pid);
    pids := pids + below;
    var trees := CollectChildren(table, children, tokens);
    pids := pids + trees;
    var more := CollectGroups(table, pids);
    groups := {Leader(pid, pgid)} + more;
    groups := groups - {0};
    groups := groups - {myGroup};
    pids := pids - {me};
  }

  /** Every live descendant is signalled, except the caller, which never signals itself or its own group. */
  lemma TargetsAreSafe(table: Table, pid: nat, pgid: Option<nat>, children: seq<Child>, tokens: map<nat, string>,
                       me: nat, myGroup: nat, p: nat)
    ensures var pids := Targets(table, pid, pgid, children, tokens) - {me};
            var groups := {Leader(pid, pgid)} + GroupsOf(table, Targets(table, pid, pgid, children, tokens)) - {0, myGroup};
            && me !in pids && myGroup !in groups && 0 !in groups
            && (Live(table, p) && Descends(table, pid, p) && p != me ==>
                  p in pids && (table[p].pgid in groups || table[p].pgid == 0 || table[p].pgid == myGroup))
  {
    if Live(table, p) && Descends(table, pid, p) {
      assert p in LiveDescendants(table, pid);
      assert p in Targets(table, pid, pgid, children, tokens);
      assert table[p].pgid in GroupsOf(table, Targets(table, pid, pgid, children, tokens));
    }
  }

  /** A recorded child whose pid now belongs to another process adds nothing. */
  lemma {:induction false} ReusedChildrenAreIgnored(table: Table, children: seq<Child>, tokens: map<nat, string>)
    requires forall i :: 0 <= i < |children| ==> !StillThere(children[i], tokens)
    ensures ChildTrees(table, children, tokens) == {}
  {
    if children != [] {
      ReusedChildrenAreIgnored(table, children[..|children| - 1], tokens);
    }
  }
}
