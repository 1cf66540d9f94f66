/**
 The record of worker runs, and what a restarted service does with the runs of a dead one
 (src/execution_backend/agy_run_registry.py).
 */
module RunRegistry {
  import opened Basics
  import opened ProcessTree

  /** A recorded run; an entry that is not an object is Malformed. */
  datatype Run =
    | Malformed
    | Run(pid: Option<nat>, pgid: Option<nat>, token: string, owner: Option<nat>, ownerToken: string, children: seq<Child>)

  datatype Outcome = AlreadyExited | PidReusedLeftAlone | Killed | KillFailed | StoppedAtShutdown
  datatype Reaped = Reaped(run: Run, outcome: Outcome, at: Option<real>)

  const KEEP_SECONDS: real := 86400.0

  /** What was read from the machine or done to it. */
  datatype Event =
    | Look(pid: nat, token: Option<string>)
    | Group(pgid: nat, alive: bool)
    | Kill(id: string, pid: nat, ok: bool)

  class World {
    ghost var log: seq<Event>

    /** process_start_token: None when nothing runs under that pid. */
    method TokenOf(pid: nat) returns (t: Option<string>)
      modifies this
      ensures log == old(log) + [Look(pid, t)]
    {
      t := *;
      log := log + [Look(pid, t)];
    }

    /** _posix_group_alive. */
    method GroupAlive(pgid: nat) returns (b: bool)
      modifies this
      ensures log == old(log) + [Group(pgid, b)]
    {
      b := *;
      log := log + [Group(pgid, b)];
    }

    /** kill_process_tree. */
    method KillTree(id: string, pid: nat) returns (ok: bool)
      modifies this
      ensures log == old(log) + [Kill(id, pid, ok)]
    {
      ok := *;
      log := log + [Kill(id, pid, ok)];
    }
  }

  // ---------------------------------------------------------------------
  // One run
  // ---------------------------------------------------------------------

  /** What is done with an entry; one that is not an object is dropped without a word. */
  datatype Verdict = Spared | Reap(outcome: Outcome) | Dropped

  /** Another service is recorded as the owner, and can be recognised. */
  predicate HasOwner(run: Run, me: nat) {
    run.Run? && run.owner.Some? && run.owner.value != me && run.ownerToken != ""
  }

  /** Nothing is done in the first n events. */
  ghost predicate OnlyLooks(evs: seq<Event>, n: int) {
    n <= |evs| && forall i :: 0 <= i < n ==> !evs[i].Kill?
  }

  /** Somebody looked, and the pid was free, or still carried the recorded token if there is one. */
  ghost predicate SeenAsRecorded(run: Run, evs: seq<Event>) {
    && run.Run? && run.pid.Some? && run.pid.value > 0
    && exists i :: 0 <= i < |evs| && evs[i].Look? && evs[i].pid == run.pid.value
                   && (evs[i].token.None? || run.token == "" || evs[i].token == Some(run.token))
  }

  /** The recorded children that can be recognised. */
  function WithToken(children: seq<Child>): seq<Child> {
    if children == [] then []
    else (if children[0].token != "" then [children[0]] else []) + WithToken(children[1..])
  }

  /** After the look at the worker itself, a recorded child was seen with its own start token. */
  ghost predicate ChildSeen(run: Run, evs: seq<Event>)
    requires run.Run?
  {
    var kids := WithToken(run.children);
    exists i :: 0 <= i < |kids| && 1 + i < |evs| && SeenAs(evs[1 + i], kids[i])
  }

  predicate SeenAs(e: Event, c: Child) {
    e == Look(c.pid, Some(c.token))
  }

  ghost predicate GroupSeen(run: Run, evs: seq<Event>)
    requires run.Run?
  {
    run.pgid.Some? && Group(run.pgid.value, true) in evs
  }

  ghost predicate Stopped(id: string, pid: nat, evs: seq<Event>, outcome: Outcome) {
    && (outcome == Killed || outcome == KillFailed) && |evs| > 1
    && OnlyLooks(evs, |evs| - 1) && evs[|evs| - 1] == Kill(id, pid, outcome == Killed)
  }

  /**
   What became of the worker of an orphaned run, by what was seen: left alone under another token, stopped
   while it or its children or its group live, else already exited.
   */
  ghost predicate JudgedWorker(id: string, run: Run, evs: seq<Event>, outcome: Outcome) {
    && run.Run?
    && if run.pid.None? || run.pid.value == 0 then outcome == AlreadyExited && evs == []
       else
         && evs != [] && evs[0].Look? && evs[0].pid == run.pid.value
         && var t := evs[0].token;
         if t.Some? && run.token != "" && t.value != run.token then outcome == PidReusedLeftAlone && |evs| == 1
         else if t.Some? || ChildSeen(run, evs) || GroupSeen(run, evs) then Stopped(id, run.pid.value, evs, outcome)
         else outcome == AlreadyExited && OnlyLooks(evs, |evs|)
  }

  /** A run is spared exactly if its owner was seen alive; else its worker is dealt with. */
  ghost predicate Judged(id: string, run: Run, me: nat, evs: seq<Event>, v: Verdict) {
    if run.Malformed? then v.Dropped? && evs == []
    else if HasOwner(run, me) then
      && !v.Dropped? && evs != [] && evs[0].Look? && evs[0].pid == run.owner.value
      && (v.Spared? <==> evs[0].token == Some(run.ownerToken))
      && (v.Spared? ==> |evs| == 1)
      && (v.Reap? ==> JudgedWorker(id, run, evs[1..], v.outcome))
    else v.Reap? && JudgedWorker(id, run, evs, v.outcome)
  }

  /** Is some recorded child still the process that was recorded? */
  method AnyChild(kids: seq<Child>, world: World) returns (found: bool, ghost evs: seq<Event>)
    modifies world
    ensures world.log == old(world.log) + evs && |evs| == |kids|
    ensures forall i :: 0 <= i < |evs| ==> evs[i].Look? && evs[i].pid == kids[i].pid
    ensures found <==> exists i :: 0 <= i < |evs| && SeenAs(evs[i], kids[i])
  {
    found := false;
    evs := [];
    for k := 0 to |kids|
      invariant world.log == old(world.log) + evs && |evs| == k
      invariant forall i :: 0 <= i < k ==> evs[i].Look? && evs[i].pid == kids[i].pid
      invariant found <==> exists i :: 0 <= i < k && SeenAs(evs[i], kids[i])
    {
      var t := world.TokenOf(kids[k].pid);
      evs := evs + [Look(kids[k].pid, t)];
      found := found || t == Some(kids[k].token);
      assert SeenAs(evs[k], kids[k]) <==> t == Some(kids[k].token);
    }
  }

  /** Is the owner of the run, another service, alive? */
  method OwnerAlive(run: Run, me: nat, world: World) returns (alive: bool, ghost evs: seq<Event>)
    requires run.Run?
    modifies world
    ensures world.log == old(world.log) + evs
    ensures !HasOwner(run, me) ==> !alive && evs == []
    ensures HasOwner(run, me) ==> |evs| == 1 && evs[0].Look? && evs[0].pid == run.owner.value
    ensures HasOwner(run, me) ==> (alive <==> evs[0].token == Some(run.ownerToken))
  {
    if run.owner.None? || run.owner.value == me || run.ownerToken == "" {
      return false, [];
    }
    var t := world.TokenOf(run.owner.value);
    return t == Some(run.ownerToken), [Look(run.owner.value, t)];
  }

  /** The body of the loop of reap_orphans, for a well-formed entry. */
  method Judge(id: string, run: Run, me: nat, world: World) returns (v: Verdict, ghost evs: seq<Event>)
    requires run.Run?
    modifies world
    ensures world.log == old(world.log) + evs && Judged(id, run, me, evs, v)
  {
    hide JudgedWorker;
    var alive;
    ghost var first;
    alive, first := OwnerAlive(run, me, world);
    if alive { return Spared, first; }
    var outcome;
    ghost var rest;
    outcome, rest := JudgeWorker(id, run, world);
    assert HasOwner(run, me) ==> (first + rest)[1..] == rest;
    assert !HasOwner(run, me) ==> first + rest == rest;
    return Reap(outcome), first + rest;
  }

  method JudgeWorker(id: string, run: Run, world: World) returns (outcome: Outcome, ghost evs: seq<Event>)
    requires run.Run?
    modifies world
    ensures world.log == old(world.log) + evs && JudgedWorker(id, run, evs, outcome)
  {
    hide ChildSeen;
    if run.pid.None? || run.pid.value == 0 { return AlreadyExited, []; }
    var pid := run.pid.value;
    var current := world.TokenOf(pid);
    evs := [Look(pid, current)];
    if current.Some? && run.token != "" && current.value != run.token {
      return PidReusedLeftAlone, evs;
    }
    if current.None? {
      var found;
      ghost var more;
      found, more := AnythingLeft(run, world, Look(pid, current));
      evs := evs + more;
      if !found { return AlreadyExited, evs; }
    }
    var ok := world.KillTree(id, pid);
    KillLast(id, run, evs, ok);
    return (if ok then Killed else KillFailed), evs + [Kill(id, pid, ok)];
  }

  /** With the worker gone: its recorded children or its group may still be running. */
  method AnythingLeft(run: Run, world: World, ghost first: Event) returns (found: bool, ghost evs: seq<Event>)
    requires run.Run? && first.Look?
    modifies world
    ensures world.log == old(world.log) + evs && OnlyLooks([first] + evs, |evs| + 1)
    ensures found <==> ChildSeen(run, [first] + evs) || GroupSeen(run, [first] + evs)
  {
    var kids := WithToken(run.children);
    found, evs := AnyChild(kids, world);
    ghost var looks := evs;
    var group := false;
    if run.pgid.Some? && run.pgid.value != 0 {
      group := world.GroupAlive(run.pgid.value);
      evs := evs + [Group(run.pgid.value, group)];
    }
    SeenAmong(run, first, looks, evs, found, group);
    found := found || group;
  }

  lemma SeenAmong(run: Run, first: Event, looks: seq<Event>, evs: seq<Event>, found: bool, group: bool)
    requires run.Run? && first.Look? && |looks| == |WithToken(run.children)|
    requires forall i :: 0 <= i < |looks| ==> looks[i].Look?
    requires found <==> exists i :: 0 <= i < |looks| && SeenAs(looks[i], WithToken(run.children)[i])
    requires if run.pgid.Some? && run.pgid.value != 0 then evs == looks + [Group(run.pgid.value, group)]
             else evs == looks && !group
    ensures found <==> ChildSeen(run, [first] + evs)
    ensures group <==> GroupSeen(run, [first] + evs)
  {
    var all, kids := [first] + evs, WithToken(run.children);
    assert forall i :: 0 <= i < |looks| ==> all[1 + i] == looks[i];
    if found {
      var i :| 0 <= i < |looks| && SeenAs(looks[i], kids[i]);
      assert SeenAs(all[1 + i], kids[i]);
    }
    if group {
      assert all[|all| - 1] == Group(run.pgid.value, true);
    }
  }

  /** A kill after what was seen makes a stopped run, and does not change what was seen. */
  lemma KillLast(id: string, run: Run, evs: seq<Event>, ok: bool)
    requires run.Run? && run.pid.Some? && run.pid.value > 0
    requires evs != [] && evs[0].Look? && evs[0].pid == run.pid.value && OnlyLooks(evs, |evs|)
    requires evs[0].token.Some? ==> run.token == "" || evs[0].token.value == run.token
    requires evs[0].token.None? ==> ChildSeen(run, evs) || GroupSeen(run, evs)
    ensures JudgedWorker(id, run, evs + [Kill(id, run.pid.value, ok)], if ok then Killed else KillFailed)
  {
    var more := evs + [Kill(id, run.pid.value, ok)];
    if evs[0].token.None? && ChildSeen(run, evs) {
      var kids := WithToken(run.children);
      var i :| 0 <= i < |kids| && 1 + i < |evs| && SeenAs(evs[1 + i], kids[i]);
      assert SeenAs(more[1 + i], kids[i]);
    }
    if GroupSeen(run, evs) {
      var k :| 0 <= k < |evs| && evs[k] == Group(run.pgid.value, true);
      assert more[k] == evs[k];
    }
  }

  /** No tree is stopped whose pid was seen to carry another token, or whose owner was seen alive, and none twice. */
  lemma KillsAreSafe(id: string, run: Run, me: nat, evs: seq<Event>, v: Verdict, i: nat)
    requires Judged(id, run, me, evs, v) && i < |evs| && evs[i].Kill?
    ensures evs[i].id == id && run.Run? && run.pid == Some(evs[i].pid) && SeenAsRecorded(run, evs)
    ensures v == Reap(if evs[i].ok then Killed else KillFailed)
    ensures HasOwner(run, me) ==> evs[0].Look? && evs[0].pid == run.owner.value && evs[0].token != Some(run.ownerToken)
    ensures i == |evs| - 1
  {
    if HasOwner(run, me) {
      assert i > 0 && evs[1..][i - 1] == evs[i];
      WorkerKill(id, run, evs[1..], v.outcome, i - 1);
      var k :| 0 <= k < |evs[1..]| && evs[1..][k].Look? && evs[1..][k].pid == run.pid.value
               && (evs[1..][k].token.None? || run.token == "" || evs[1..][k].token == Some(run.token));
      assert evs[k + 1] == evs[1..][k];
    } else {
      WorkerKill(id, run, evs, v.outcome, i);
    }
  }

  lemma WorkerKill(id: string, run: Run, evs: seq<Event>, outcome: Outcome, i: nat)
    requires JudgedWorker(id, run, evs, outcome) && i < |evs| && evs[i].Kill?
    ensures i == |evs| - 1 && SeenAsRecorded(run, evs) && outcome == (if evs[i].ok then Killed else KillFailed)
    ensures evs[i] == Kill(id, run.pid.value, evs[i].ok)
    ensures evs[0].Look? && (evs[0].token.None? ==> ChildSeen(run, evs) || GroupSeen(run, evs))
  {
    hide ChildSeen;
    hide GroupSeen;
    assert i > 0;
    assert evs[0].Look? && evs[0].pid == run.pid.value;
  }

  // ---------------------------------------------------------------------
  // The registry
  // ---------------------------------------------------------------------

  datatype Row = Row(id: string, outcome: Outcome)

  /** The judgement of one entry, with everything that was seen and done for it. */
  datatype Judgement = Judgement(id: string, evs: seq<Event>, v: Verdict)

  function Events(js: seq<Judgement>): seq<Event> {
    if js == [] then [] else Events(js[..|js| - 1]) + js[|js| - 1].evs
  }

  function RowsOf(js: seq<Judgement>): seq<Row> {
    if js == [] then []
    else
      var j := js[|js| - 1];
      RowsOf(js[..|js| - 1]) + if j.v.Reap? then [Row(j.id, j.v.outcome)] else []
  }

  function RunsAfter(was: map<string, Run>, js: seq<Judgement>): map<string, Run> {
    if js == [] then was
    else
      var j := js[|js| - 1];
      if j.v.Spared? then RunsAfter(was, js[..|js| - 1]) else RunsAfter(was, js[..|js| - 1]) - {j.id}
  }

  function ReapedAfter(was: map<string, Run>, reaped: map<string, Reaped>, js: seq<Judgement>, now: real): map<string, Reaped> {
    if js == [] then reaped
    else
      var j := js[|js| - 1];
      var r := ReapedAfter(was, reaped, js[..|js| - 1], now);
      if j.v.Reap? && j.id in was then r[j.id := Reaped(was[j.id], j.v.outcome, Some(now))] else r
  }

  function IdsOf(js: seq<Judgement>): set<string> {
    if js == [] then {} else IdsOf(js[..|js| - 1]) + {js[|js| - 1].id}
  }

  /** Each of these entries was judged on its own merits, and none twice. */
  ghost predicate Fair(was: map<string, Run>, me: nat, js: seq<Judgement>) {
    && (forall i :: 0 <= i < |js| ==> js[i].id in was && Judged(js[i].id, was[js[i].id], me, js[i].evs, js[i].v))
    && (forall i, j :: 0 <= i < j < |js| ==> js[i].id != js[j].id)
  }

  /** Old enough to be forgotten, or without a time. */
  predicate Expired(r: Reaped, now: real) {
    r.at.None? || now - r.at.value > KEEP_SECONDS
  }

  function Pruned(reaped: map<string, Reaped>, now: real): map<string, Reaped> {
    map id | id in reaped && !Expired(reaped[id], now) :: reaped[id]
  }

  class Registry {
    const me: nat
    var runs: map<string, Run>
    var reaped: map<string, Reaped>

    /** mark_stopped: this service stopped the run itself. */
    method MarkStopped(id: string, now: real)
      modifies this
      ensures id !in old(runs) ==> runs == old(runs) && reaped == old(reaped)
      ensures id in old(runs) ==>
                && runs == old(runs) - {id}
                && reaped == old(reaped)[id := Reaped(old(runs)[id], StoppedAtShutdown, Some(now))]
    {
      if id !in runs { return; }
      var entry := runs[id];
      runs := runs - {id};
      reaped := reaped[id := Reaped(entry, StoppedAtShutdown, Some(now))];
    }

    /** reap_orphans: every entry is judged once, and the two tables follow the judgements. */
    method ReapOrphans(world: World, now: real) returns (rows: seq<Row>, ghost js: seq<Judgement>)
      modifies this, world
      ensures Fair(old(runs), me, js) && IdsOf(js) == old(runs).Keys
      ensures world.log == old(world.log) + Events(js)
      ensures rows == RowsOf(js) && runs == RunsAfter(old(runs), js)
      ensures reaped == Pruned(ReapedAfter(old(runs), old(reaped), js, now), now)
    {
      hide *;
      ghost var was, were := runs, reaped;
      rows, js := [], [];
      FairStart(was, were, me, now);
      var todo := runs.Keys;
      while |todo| > 0
        invariant todo <= was.Keys && IdsOf(js) == was.Keys - todo
        invariant forall id :: id in todo ==> id in runs && runs[id] == was[id]
        invariant world.log == old(world.log) + Events(js) && Fair(was, me, js)
        invariant rows == RowsOf(js) && runs == RunsAfter(was, js) && reaped == ReapedAfter(was, were, js, now)
        decreases |todo|
      {
        var id :| id in todo;
        ghost var j;
        rows, j := ReapOne(id, world, now, rows);
        FairMore(was, me, js, j);
        AfterOneMore(was, were, js, j, now);
        js := js + [j];
        todo := todo - {id};
      }
      assert was.Keys - todo == was.Keys;
      reaped := Pruned(reaped, now);
    }

    /** One entry: keep it, drop it, or move it over with its outcome. */
    method ReapOne(id: string, world: World, now: real, rows: seq<Row>) returns (rows2: seq<Row>, ghost j: Judgement)
      requires id in runs
      modifies this, world
      ensures j.id == id && Judged(id, old(runs)[id], me, j.evs, j.v)
      ensures world.log == old(world.log) + j.evs
      ensures rows2 == rows + if j.v.Reap? then [Row(id, j.v.outcome)] else []
      ensures runs == if j.v.Spared? then old(runs) else old(runs) - {id}
      ensures reaped == if j.v.Reap? then old(reaped)[id := Reaped(old(runs)[id], j.v.outcome, Some(now))] else old(reaped)
    {
      hide JudgedWorker;
      var entry := runs[id];
      rows2 := rows;
      if entry.Malformed? {
        runs := runs - {id};
        j := Judgement(id, [], Dropped);
        return;
      }
      var v;
      ghost var evs;
      v, evs := Judge(id, entry, me, world);
      j := Judgement(id, evs, v);
      if v.Spared? { return; }
      runs := runs - {id};
      reaped := reaped[id := Reaped(entry, v.outcome, Some(now))];
      rows2 := rows + [Row(id, v.outcome)];
    }
  }

  lemma FairStart(was: map<string, Run>, were: map<string, Reaped>, me: nat, now: real)
    ensures Fair(was, me, []) && IdsOf([]) == {} && Events([]) == [] && RowsOf([]) == []
    ensures RunsAfter(was, []) == was && ReapedAfter(was, were, [], now) == were
  {
  }

  lemma AfterOneMore(was: map<string, Run>, were: map<string, Reaped>, js: seq<Judgement>, j: Judgement, now: real)
    requires j.id in was
    ensures IdsOf(js + [j]) == IdsOf(js) + {j.id} && Events(js + [j]) == Events(js) + j.evs
    ensures RowsOf(js + [j]) == RowsOf(js) + if j.v.Reap? then [Row(j.id, j.v.outcome)] else []
    ensures RunsAfter(was, js + [j]) == if j.v.Spared? then RunsAfter(was, js) else RunsAfter(was, js) - {j.id}
    ensures ReapedAfter(was, were, js + [j], now)
            == if j.v.Reap? then ReapedAfter(was, were, js, now)[j.id := Reaped(was[j.id], j.v.outcome, Some(now))]
               else ReapedAfter(was, were, js, now)
  {
    assert (js + [j])[..|js|] == js;
  }

  lemma {:induction false} IdsAre(js: seq<Judgement>)
    ensures forall id :: id in IdsOf(js) <==> exists i :: 0 <= i < |js| && js[i].id == id
    decreases |js|
  {
    if js != [] {
      var init, last := js[..|js| - 1], js[|js| - 1];
      IdsAre(init);
      forall id
        ensures id in IdsOf(js) <==> exists i :: 0 <= i < |js| && js[i].id == id
      {
        if id in IdsOf(init) {
          var i :| 0 <= i < |init| && init[i].id == id;
          assert js[i].id == id;
        }
        if i :| 0 <= i < |js| && js[i].id == id {
          assert i < |init| ==> init[i] == js[i];
        }
      }
    }
  }

  lemma FairMore(was: map<string, Run>, me: nat, js: seq<Judgement>, j: Judgement)
    requires Fair(was, me, js) && j.id in was && j.id !in IdsOf(js) && Judged(j.id, was[j.id], me, j.evs, j.v)
    ensures Fair(was, me, js + [j])
  {
    hide Judged;
    IdsAre(js);
    var more := js + [j];
    assert forall i :: 0 <= i < |more| ==> more[i] == if i < |js| then js[i] else j;
  }

  /** What the tables say about one judged run. */
  lemma {:induction false} Follows(was: map<string, Run>, reaped: map<string, Reaped>, me: nat, js: seq<Judgement>,
                                   now: real, i: nat)
    requires Fair(was, me, js) && i < |js|
    ensures js[i].id in RunsAfter(was, js) <==> js[i].v.Spared?
    ensures js[i].v.Spared? ==> RunsAfter(was, js)[js[i].id] == was[js[i].id]
    ensures js[i].v.Reap? ==> var r := ReapedAfter(was, reaped, js, now);
                              js[i].id in r && r[js[i].id] == Reaped(was[js[i].id], js[i].v.outcome, Some(now))
    decreases |js|
  {
    hide Judged;
    var n := |js| - 1;
    var init := js[..n];
    assert Fair(was, me, init);
    if i < n {
      Follows(was, reaped, me, init, now, i);
    } else {
      Untouched(was, reaped, init, now, js[n].id);
    }
  }

  /** A run that was not judged is where it was. */
  lemma {:induction false} Untouched(was: map<string, Run>, reaped: map<string, Reaped>, js: seq<Judgement>, now: real,
                                     id: string)
    requires forall i :: 0 <= i < |js| ==> js[i].id != id
    ensures id in RunsAfter(was, js) <==> id in was
    ensures id in was ==> RunsAfter(was, js)[id] == was[id]
    ensures id in ReapedAfter(was, reaped, js, now) <==> id in reaped
    ensures id in reaped ==> ReapedAfter(was, reaped, js, now)[id] == reaped[id]
    decreases |js|
  {
    if js != [] {
      Untouched(was, reaped, js[..|js| - 1], now, id);
    }
  }

  /** How often a run is reported. */
  function Times(rows: seq<Row>, id: string): nat {
    if rows == [] then 0 else Times(rows[..|rows| - 1], id) + if rows[|rows| - 1].id == id then 1 else 0
  }

  lemma TimesMore(rows: seq<Row>, row: Row, id: string)
    ensures Times(rows + [row], id) == Times(rows, id) + if row.id == id then 1 else 0
  {
    assert (rows + [row])[..|rows|] == rows;
  }

  lemma {:induction false} Reported(was: map<string, Run>, me: nat, js: seq<Judgement>, id: string)
    requires Fair(was, me, js)
    ensures Times(RowsOf(js), id) <= 1
    ensures Times(RowsOf(js), id) == 1 <==> exists i :: 0 <= i < |js| && js[i].id == id && js[i].v.Reap?
    decreases |js|
  {
    hide Judged;
    if js != [] {
      var init, last := js[..|js| - 1], js[|js| - 1];
      assert Fair(was, me, init);
      Reported(was, me, init, id);
      if last.v.Reap? {
        TimesMore(RowsOf(init), Row(last.id, last.v.outcome), id);
      } else {
        assert RowsOf(init) + [] == RowsOf(init);
      }
      assert forall i :: 0 <= i < |init| ==> init[i] == js[i];
      assert js[|init|] == last;
    }
  }

  /**
   Reaping conserves runs.  After a pass, a well-formed run is either still recorded as it was, and then its
   owner was seen alive, and it was neither reported nor touched; or it is recorded no longer, was reported
   exactly once, and is filed with that outcome.
   */
  lemma ReapingConserves(was: map<string, Run>, reaped: map<string, Reaped>, me: nat, js: seq<Judgement>, now: real,
                         id: string) returns (i: nat)
    requires Fair(was, me, js) && IdsOf(js) == was.Keys && id in was && was[id].Run?
    ensures i < |js| && js[i].id == id && Judged(id, was[id], me, js[i].evs, js[i].v)
    ensures id in RunsAfter(was, js) <==> Times(RowsOf(js), id) == 0
    ensures id in RunsAfter(was, js) ==>
              RunsAfter(was, js)[id] == was[id] && HasOwner(was[id], me)
              && js[i].evs == [Look(was[id].owner.value, Some(was[id].ownerToken))]
    ensures id !in RunsAfter(was, js) ==>
              var r := Pruned(ReapedAfter(was, reaped, js, now), now);
              && Times(RowsOf(js), id) == 1 && js[i].v.Reap?
              && id in r && r[id] == Reaped(was[id], js[i].v.outcome, Some(now))
  {
    hide JudgedWorker;
    IdsAre(js);
    i :| 0 <= i < |js| && js[i].id == id;
    Follows(was, reaped, me, js, now, i);
    Reported(was, me, js, id);
  }

  /** What was reaped before stays until it expires, unless its run id was reaped again. */
  lemma OldReapedStay(was: map<string, Run>, reaped: map<string, Reaped>, js: seq<Judgement>, now: real, id: string)
    requires id in reaped && id !in IdsOf(js)
    ensures var r := Pruned(ReapedAfter(was, reaped, js, now), now);
            (id in r <==> !Expired(reaped[id], now)) && (id in r ==> r[id] == reaped[id])
  {
    IdsAre(js);
    Untouched(was, reaped, js, now, id);
  }
}
