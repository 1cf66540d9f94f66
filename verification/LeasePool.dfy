/**
 The pool operations as the code runs them: accounts are objects changed in place, HOME locks live in a
 table of the process, and the search for a free account is a loop.
 */
module LeasePool {
  import opened Basics
  import opened LeaseRows

  class Account {
    const id: string
    const home: string
    var state: State
    var cooldown: Option<real>
    var pid: Option<int>
    var until: Option<int>
    var lease: Option<string>
    var token: Option<string>

    constructor (r: Row)
      ensures Now() == r && id == r.id && home == r.home
    {
      id, home, state, cooldown, pid, until, lease, token := r.id, r.home, r.state, r.cooldown, r.pid, r.until, r.lease, r.token;
    }

    function Now(): Row
      reads this
    {
      Row(id, home, state, cooldown, pid, until, lease, token)
    }

    /** _clear_lease_fields. */
    method Clear()
      modifies this
      ensures Now() == Cleared(old(Now()))
    {
      pid, until, lease, token := None, None, None, None;
    }

    /** reserve_account. */
    method Reserve(now: real, sec: real, me: int, id': string, start: Option<string>)
      modifies this
      ensures Now() == ReserveRow(old(Now()), now, sec, me, id', start)
    {
      state := Busy;
      pid := Some(me);
      until := Some(LeaseUntil(now, sec));
      lease := Some(id');
      token := start;
    }

    /** apply_class_to_state. */
    method ApplyClass(c: Class, coolUntil: real) returns (changed: bool)
      modifies this
      ensures Now() == ClassRow(old(Now()), c, coolUntil)
      ensures changed <==> c.Limited? || Now() != old(Now())
    {
      if c.Harmless? { return false; }
      var wanted := if c.Blocked? then Unavailable else Cooldown;
      changed := state != wanted;
      state := wanted;
      if wanted == Cooldown {
        cooldown := Some(coolUntil);
        changed := true;
      } else if cooldown.Some? {
        cooldown := None;
        changed := true;
      }
    }
  }

  /** One attempt to take a HOME lock, and its outcome. */
  datatype Probe = Probe(home: string, ok: bool)

  /** A process: its identity, its table of retained HOME locks, and what it sees of the machine. */
  class Process {
    const pid: int
    var clock: real
    /** HOMEs whose lock somebody holds. */
    var locked: set<string>
    /** HOMEs whose lock this process has retained. */
    var kept: set<string>
    ghost var probes: seq<Probe>

    ghost predicate Valid()
      reads this
    {
      kept <= locked
    }

    /** Time has passed, other processes have come, gone, and moved their locks. */
    method Look() returns (e: Env)
      requires Valid()
      modifies this`clock, this`locked
      ensures Valid() && clock >= old(clock) && e.now == clock && e.free !! locked
    {
      var later: real := *;
      var others: set<string> := *;
      var alive: set<int> := *;
      var tokens: map<int, string> := *;
      var free: set<string> := *;
      if later > clock {
        clock := later;
      }
      locked := others + kept;
      e := Env(clock, alive, tokens, free - locked);
    }

    /** A non-blocking attempt to take a HOME lock. */
    method TryLock(home: string) returns (ok: bool)
      requires Valid()
      modifies this`locked, this`probes
      ensures Valid() && probes == old(probes) + [Probe(home, ok)]
      ensures home in locked
    {
      var others: set<string> := *;
      locked := others + kept;
      ok := home !in locked;
      locked := locked + {home};
      probes := probes + [Probe(home, ok)];
    }

    /** _retain_home_lease, of a lock that was just taken. */
    method Retain(home: string)
      requires Valid() && home in locked
      modifies this`kept
      ensures Valid() && kept == old(kept) + {home}
    {
      kept := kept + {home};
    }

    /** _drop_held_home_lease. */
    method Drop(home: string)
      requires Valid()
      modifies this`kept, this`locked
      ensures Valid() && kept == old(kept) - {home}
      ensures locked == if home in old(kept) then old(locked) - {home} else old(locked)
    {
      if home in kept {
        kept := kept - {home};
        locked := locked - {home};
      }
    }
  }

  /** The switch lock: one owner, and how deep each thread is inside. */
  class SwitchLock {
    var owner: Option<nat>
    var depths: map<nat, nat>

    function Depth(t: nat): nat
      reads this
    {
      if t in depths then depths[t] else 0
    }

    ghost predicate Valid()
      reads this
    {
      forall t: nat :: Depth(t) > 0 <==> owner == Some(t)
    }

    /** Re-entrant; otherwise polls until the owner has let go or the time is up. */
    method Enter(t: nat) returns (ok: bool)
      requires Valid()
      modifies this
      ensures Valid()
      ensures ok ==> Depth(t) == old(Depth(t)) + 1 && owner == Some(t)
      ensures !ok ==> old(owner).Some? && old(Depth(t)) == 0 && Depth(t) == 0
      ensures old(Depth(t)) > 0 || old(owner).None? ==> ok
    {
      if Depth(t) > 0 {
        depths := depths[t := depths[t] + 1];
        return true;
      }
      if owner.Some? {
        var released: bool := *;
        if !released { return false; }
        depths := depths[owner.value := 0];
        owner := None;
      }
      owner := Some(t);
      depths := depths[t := 1];
      return true;
    }

    /** Only the outermost exit frees the lock. */
    method Exit(t: nat)
      requires Valid() && Depth(t) > 0
      modifies this
      ensures Valid() && Depth(t) == old(Depth(t)) - 1
      ensures owner == if old(Depth(t)) == 1 then None else Some(t)
    {
      depths := depths[t := depths[t] - 1];
      if depths[t] == 0 {
        owner := None;
      }
    }
  }

  /** The pool's JSON file. */
  class PoolFile {
    var rows: seq<Row>
  }

  // ---------------------------------------------------------------------
  // The accounts in memory
  // ---------------------------------------------------------------------

  ghost predicate Distinct(accounts: seq<Account>) {
    forall i, j :: 0 <= i < j < |accounts| ==> accounts[i] != accounts[j]
  }

  function Rows(accounts: seq<Account>): (r: seq<Row>)
    reads accounts
    ensures |r| == |accounts| && forall k :: 0 <= k < |r| ==> r[k] == accounts[k].Now()
  {
    seq(|accounts|, k requires 0 <= k < |accounts| reads accounts => accounts[k].Now())
  }

  /** load_pool: new objects, cooldowns that have passed are over. */
  method Load(file: PoolFile, now: real) returns (accounts: seq<Account>)
    ensures Distinct(accounts) && fresh(accounts)
    ensures Rows(accounts) == ApplyOp(file.rows, Cool(now))
  {
    accounts := [];
    for i := 0 to |file.rows|
      invariant |accounts| == i && Distinct(accounts) && fresh(accounts)
      invariant forall k :: 0 <= k < i ==> accounts[k].Now() == file.rows[k]
    {
      var a := new Account(file.rows[i]);
      accounts := accounts + [a];
    }
    assert Rows(accounts) == file.rows;
    var _ := ExpireCooldowns(accounts, now);
  }

  /** Rows, with each account's part of one operation done for the first i accounts. */
  ghost predicate Done(was: seq<Row>, accounts: seq<Account>, i: nat, op: Op)
    reads accounts
  {
    && |was| == |accounts| && i <= |accounts|
    && (forall k :: 0 <= k < i ==> accounts[k].Now() == OpRow(was[k], k, op))
    && (forall k :: i <= k < |accounts| ==> accounts[k].Now() == was[k])
  }

  /** Has one of the first i rows changed? */
  ghost predicate Changed(was: seq<Row>, i: nat, op: Op)
    requires i <= |was|
  {
    exists k :: 0 <= k < i && OpRow(was[k], k, op) != was[k]
  }

  lemma AllDone(was: seq<Row>, accounts: seq<Account>, op: Op)
    requires Done(was, accounts, |accounts|, op)
    ensures Rows(accounts) == ApplyOp(was, op)
    ensures Changed(was, |was|, op) <==> Rows(accounts) != was
  {
    hide OpRow;
    if Rows(accounts) != was {
      var k :| 0 <= k < |was| && Rows(accounts)[k] != was[k];
      assert OpRow(was[k], k, op) != was[k];
    }
  }

  /** expire_cooldowns. */
  method ExpireCooldowns(accounts: seq<Account>, now: real) returns (changed: bool)
    requires Distinct(accounts)
    modifies accounts
    ensures Rows(accounts) == ApplyOp(old(Rows(accounts)), Cool(now))
    ensures changed <==> Rows(accounts) != old(Rows(accounts))
  {
    hide CoolRow;
    ghost var was := Rows(accounts);
    changed := false;
    for i := 0 to |accounts|
      invariant Done(was, accounts, i, Cool(now))
      invariant changed <==> Changed(was, i, Cool(now))
    {
      var one := CoolOne(accounts[i], now);
      changed := changed || one;
    }
    AllDone(was, accounts, Cool(now));
  }

  method CoolOne(a: Account, now: real) returns (changed: bool)
    modifies a
    ensures a.Now() == CoolRow(old(a.Now()), now)
    ensures changed <==> a.Now() != old(a.Now())
  {
    changed := a.state == Cooldown && (a.cooldown.None? || now >= a.cooldown.value);
    if changed {
      a.state := Available;
      a.cooldown := None;
    }
  }

  /** expire_busy_leases. */
  method ExpireBusyLeases(accounts: seq<Account>, e: Env, process: Process) returns (changed: bool)
    requires Distinct(accounts) && process.Valid()
    modifies accounts, process`kept, process`locked
    ensures process.Valid()
    ensures Rows(accounts) == ApplyOp(old(Rows(accounts)), Sweep(e))
    ensures changed <==> Rows(accounts) != old(Rows(accounts))
    ensures process.kept == old(process.kept) - StaleHomes(old(Rows(accounts)), e)
  {
    hide SweepRow;
    hide OpRow;
    hide Stale;
    hide StaleHomes;
    ghost var was := Rows(accounts);
    NoStaleHomes(was, e);
    changed := false;
    for i := 0 to |accounts|
      invariant Done(was, accounts, i, Sweep(e)) && process.Valid()
      invariant changed <==> Changed(was, i, Sweep(e))
      invariant process.kept == old(process.kept) - StaleHomes(was[..i], e)
    {
      MoreStaleHomes(was, i, e);
      OpIsSweep(was[i], i, e);
      var one := SweepOne(accounts[i], e, process);
      changed := changed || one;
    }
    assert was[..|accounts|] == was;
    AllDone(was, accounts, Sweep(e));
  }

  lemma OpIsSweep(r: Row, k: nat, e: Env)
    ensures OpRow(r, k, Sweep(e)) == SweepRow(r, e)
  {
  }

  lemma NoStaleHomes(rows: seq<Row>, e: Env)
    ensures StaleHomes(rows[..0], e) == {}
  {
  }

  lemma MoreStaleHomes(rows: seq<Row>, i: nat, e: Env)
    requires i < |rows|
    ensures StaleHomes(rows[..i + 1], e) == StaleHomes(rows[..i], e) + (if Stale(rows[i], e) then {rows[i].home} else {})
  {
    hide Stale;
    assert rows[..i + 1] == rows[..i] + [rows[i]];
    forall h | h in StaleHomes(rows[..i], e)
      ensures h in StaleHomes(rows[..i + 1], e)
    {
      var k :| 0 <= k < i && Stale(rows[..i][k], e) && rows[..i][k].home == h;
      assert rows[..i + 1][k] == rows[..i][k];
    }
    if Stale(rows[i], e) {
      assert rows[..i + 1][i] == rows[i];
    }
  }

  method SweepOne(a: Account, e: Env, process: Process) returns (stale: bool)
    requires process.Valid()
    modifies a, process`kept, process`locked
    ensures process.Valid()
    ensures a.Now() == SweepRow(old(a.Now()), e)
    ensures stale <==> Stale(old(a.Now()), e)
    ensures stale <==> a.Now() != old(a.Now())
    ensures process.kept == if stale then old(process.kept) - {a.home} else old(process.kept)
  {
    stale := a.state == Busy && if a.until.Some? then e.now >= a.until.value as real else !PidAlive(a.pid, e);
    if stale {
      a.state := Available;
      a.Clear();
      process.Drop(a.home);
    }
  }

  /** _reclaim_dead_lease_rows. */
  method ReclaimDead(accounts: seq<Account>, e: Env, me: int) returns (ids: seq<string>)
    requires Distinct(accounts)
    modifies accounts
    ensures Rows(accounts) == ApplyOp(old(Rows(accounts)), Reclaim(e, me))
    ensures ids != [] <==> Rows(accounts) != old(Rows(accounts))
  {
    hide ReclaimRow;
    ghost var was := Rows(accounts);
    ids := [];
    for i := 0 to |accounts|
      invariant Done(was, accounts, i, Reclaim(e, me))
      invariant ids != [] <==> Changed(was, i, Reclaim(e, me))
    {
      var one := ReclaimOne(accounts[i], e, me);
      if one {
        ids := ids + [accounts[i].id];
      }
    }
    AllDone(was, accounts, Reclaim(e, me));
  }

  method ReclaimOne(a: Account, e: Env, me: int) returns (taken: bool)
    modifies a
    ensures a.Now() == ReclaimRow(old(a.Now()), e, me)
    ensures taken <==> a.Now() != old(a.Now())
  {
    if a.state != Busy || a.pid.None? || a.pid.value == me { return false; }
    if !HolderGone(a.Now(), e) { return false; }
    if a.home !in e.free { return false; }
    a.state := Available;
    a.Clear();
    return true;
  }

  /** select_account without a precheck: housekeeping, then the first available account not excluded. */
  method SelectAccount(accounts: seq<Account>, e: Env, process: Process, skipped: set<string>) returns (k: nat)
    requires Distinct(accounts) && process.Valid()
    modifies accounts, process`kept, process`locked
    ensures process.Valid() && process.kept <= old(process.kept)
    ensures Rows(accounts) == ApplyOp(ApplyOp(old(Rows(accounts)), Cool(e.now)), Sweep(e))
    ensures k == First(Rows(accounts), skipped)
  {
    var _ := ExpireCooldowns(accounts, e.now);
    var _ := ExpireBusyLeases(accounts, e, process);
    k := 0;
    while k < |accounts| && (accounts[k].state != Available || accounts[k].id in skipped)
      invariant k <= |accounts|
      invariant forall j :: 0 <= j < k ==> accounts[j].state != Available || accounts[j].id in skipped
    {
      k := k + 1;
    }
    FirstIs(Rows(accounts), skipped, k);
  }

  // ---------------------------------------------------------------------
  // The search for an account
  // ---------------------------------------------------------------------

  datatype Prepared =
    | Leased(k: nat, lease: string)
    | HomesTaken
    | NoneAvailable
    | LockTimeout

  /** In this stretch of attempts, somebody else was found holding the lock of the HOME. */
  ghost predicate FoundHeld(tries: seq<Probe>, home: string) {
    Probe(home, false) in tries
  }

  /** Account k is the first one, in pool order, that is available and whose HOME was not found held. */
  ghost predicate FirstFree(rows: seq<Row>, k: nat, tries: seq<Probe>) {
    && k < |rows| && rows[k].state == Available && Probe(rows[k].home, true) in tries
    && !FoundHeld(tries, rows[k].home)
    && forall j :: 0 <= j < k && rows[j].state == Available ==> FoundHeld(tries, rows[j].home)
  }

  /** The accounts with these ids are those whose HOME was found held; nothing was locked yet. */
  ghost predicate SkippedOk(rows: seq<Row>, skipped: set<string>, tries: seq<Probe>) {
    && (forall j :: 0 <= j < |rows| ==> (rows[j].id in skipped <==> FoundHeld(tries, rows[j].home)))
    && (forall i :: 0 <= i < |tries| ==> !tries[i].ok)
    && (skipped != {} <==> tries != [])
  }

  ghost function Ids(rows: seq<Row>): set<string> {
    set k | 0 <= k < |rows| :: rows[k].id
  }

  ghost predicate AllHousekeeping(ops: seq<Op>) {
    forall i :: 0 <= i < |ops| ==> ops[i].Cool? || ops[i].Sweep? || ops[i].Reclaim?
  }

  lemma SkipOneMore(rows: seq<Row>, skipped: set<string>, tries: seq<Probe>, k: nat)
    requires SkippedOk(rows, skipped, tries) && DistinctIds(rows) && DistinctHomes(rows) && k < |rows|
    ensures SkippedOk(rows, skipped + {rows[k].id}, tries + [Probe(rows[k].home, false)])
  {
    var more := tries + [Probe(rows[k].home, false)];
    assert more[|tries|] == Probe(rows[k].home, false);
    forall j | 0 <= j < |rows|
      ensures rows[j].id in skipped + {rows[k].id} <==> FoundHeld(more, rows[j].home)
    {
      assert rows[j].id == rows[k].id <==> rows[j].home == rows[k].home;
      assert FoundHeld(more, rows[j].home) <==> FoundHeld(tries, rows[j].home) || rows[j].home == rows[k].home;
    }
  }

  lemma FoundFree(rows: seq<Row>, skipped: set<string>, tries: seq<Probe>, k: nat)
    requires k < |rows| && rows[k].state == Available && rows[k].id !in skipped
    requires forall j :: 0 <= j < k ==> rows[j].state != Available || rows[j].id in skipped
    ensures SkippedOk(rows, skipped, tries) ==> FirstFree(rows, k, tries + [Probe(rows[k].home, true)])
  {
    var more := tries + [Probe(rows[k].home, true)];
    assert more[|tries|] == Probe(rows[k].home, true);
    assert forall h :: FoundHeld(more, h) <==> FoundHeld(tries, h);
  }

  /** SkippedOk looks at names only. */
  lemma SkippedNames(rows: seq<Row>, rows2: seq<Row>, skipped: set<string>, tries: seq<Probe>)
    requires SkippedOk(rows, skipped, tries) && |rows2| == |rows|
    requires forall k :: 0 <= k < |rows| ==> rows2[k].id == rows[k].id && rows2[k].home == rows[k].home
    ensures SkippedOk(rows2, skipped, tries)
  {
    hide FoundHeld;
  }

  lemma TwoMore(rows: seq<Row>, ops: seq<Op>, a: Op, b: Op)
    ensures Replay(rows, ops + [a, b]) == ApplyOp(ApplyOp(Replay(rows, ops), a), b)
  {
    hide ApplyOp;
    hide Replay;
    ReplayMore(rows, ops, a);
    ReplayMore(rows, ops + [a], b);
    assert ops + [a] + [b] == ops + [a, b];
  }

  ghost predicate DistinctNames(rows: seq<Row>) {
    DistinctIds(rows) && DistinctHomes(rows)
  }

  /** Nothing is left: every available account's HOME was found held. */
  ghost predicate NoneFree(rows: seq<Row>, tries: seq<Probe>) {
    forall j :: 0 <= j < |rows| && rows[j].state == Available ==> FoundHeld(tries, rows[j].home)
  }

  /**
   The loop of prepare: one more selection, one more attempt at the chosen HOME, until an attempt succeeds
   or nothing is left.
   */
  method Search(accounts: seq<Account>, process: Process) returns (k: nat, skipped: set<string>, ghost ops: seq<Op>)
    requires Distinct(accounts) && process.Valid()
    modifies accounts, process`clock, process`locked, process`kept, process`probes
    ensures process.Valid() && process.clock >= old(process.clock) && process.kept <= old(process.kept)
    ensures Rows(accounts) == Replay(old(Rows(accounts)), ops) && AllHousekeeping(ops)
    ensures old(process.probes) <= process.probes
    ensures k <= |accounts|
    ensures k < |accounts| ==> accounts[k].state == Available && accounts[k].home in process.locked
    ensures DistinctNames(old(Rows(accounts))) ==>
              var tries := process.probes[|old(process.probes)|..];
              && (k < |accounts| ==> FirstFree(Rows(accounts), k, tries))
              && (k == |accounts| ==> NoneFree(Rows(accounts), tries) && (skipped != {} <==> tries != []))
  {
    hide ApplyOp;
    hide Replay;
    hide SkippedOk;
    hide FirstFree;
    hide NoneFree;
    hide DistinctNames;
    hide Ids;
    hide First;
    hide AllHousekeeping;
    hide Stale;
    hide StaleHomes;
    ghost var was := Rows(accounts);
    ghost var start := process.probes;
    skipped := {};
    ops := [];
    NothingYet(was);
    assert process.probes[|start|..] == [];
    while true
      invariant process.Valid() && process.clock >= old(process.clock) && process.kept <= old(process.kept)
      invariant Rows(accounts) == Replay(was, ops) && AllHousekeeping(ops)
      invariant start <= process.probes
      invariant DistinctNames(was) ==> SkippedOk(Replay(was, ops), skipped, process.probes[|start|..])
      decreases Ids(was) - skipped
    {
      ghost var tries := process.probes[|start|..];
      ghost var e;
      k, e := LookAndSelect(accounts, process, skipped);
      ops := SelectedMore(was, ops, e, skipped, tries);
      if k == |accounts| {
        AllSkipped(Rows(accounts), skipped, tries);
        return;
      }
      var ok := process.TryLock(accounts[k].home);
      assert process.probes[|start|..] == tries + [Probe(accounts[k].home, ok)];
      assert Rows(accounts)[k].home == accounts[k].home && Rows(accounts)[k].id == accounts[k].id;
      if ok {
        FoundFree(Rows(accounts), skipped, tries, k);
        return;
      }
      SkippedMore(was, ops, skipped, tries, k);
      skipped := skipped + {accounts[k].id};
    }
  }

  method LookAndSelect(accounts: seq<Account>, process: Process, skipped: set<string>) returns (k: nat, ghost e: Env)
    requires Distinct(accounts) && process.Valid()
    modifies accounts, process`clock, process`locked, process`kept
    ensures process.Valid() && process.clock >= old(process.clock) && process.kept <= old(process.kept)
    ensures Rows(accounts) == ApplyOp(ApplyOp(old(Rows(accounts)), Cool(e.now)), Sweep(e))
    ensures k == First(Rows(accounts), skipped)
  {
    hide ApplyOp;
    hide First;
    var look := process.Look();
    e := look;
    k := SelectAccount(accounts, look, process, skipped);
  }

  lemma SelectedMore(was: seq<Row>, ops: seq<Op>, e: Env, skipped: set<string>, tries: seq<Probe>) returns (more: seq<Op>)
    requires AllHousekeeping(ops)
    requires DistinctNames(was) ==> SkippedOk(Replay(was, ops), skipped, tries)
    ensures AllHousekeeping(more)
    ensures Replay(was, more) == ApplyOp(ApplyOp(Replay(was, ops), Cool(e.now)), Sweep(e))
    ensures DistinctNames(was) ==> SkippedOk(Replay(was, more), skipped, tries)
  {
    hide ApplyOp;
    hide Replay;
    hide SkippedOk;
    more := ops + [Cool(e.now), Sweep(e)];
    TwoMore(was, ops, Cool(e.now), Sweep(e));
    if DistinctNames(was) {
      NamesKept(Replay(was, ops), Cool(e.now), Sweep(e));
      SkippedNames(Replay(was, ops), Replay(was, more), skipped, tries);
    }
  }

  lemma SkippedMore(was: seq<Row>, ops: seq<Op>, skipped: set<string>, tries: seq<Probe>, k: nat)
    requires k < |was|
    requires DistinctNames(was) ==> SkippedOk(Replay(was, ops), skipped, tries)
    ensures Replay(was, ops)[k].id in Ids(was)
    ensures DistinctNames(was) ==>
              var r := Replay(was, ops)[k];
              SkippedOk(Replay(was, ops), skipped + {r.id}, tries + [Probe(r.home, false)])
  {
    hide SkippedOk;
    ReplayKeepsNames(was, ops);
    ReplayKeepsDistinct(was, ops);
    if DistinctNames(was) {
      SkipOneMore(Replay(was, ops), skipped, tries, k);
    }
  }

  lemma NothingYet(rows: seq<Row>)
    ensures SkippedOk(rows, {}, []) && Replay(rows, []) == rows && AllHousekeeping([])
  {
  }

  lemma NamesKept(rows: seq<Row>, a: Op, b: Op)
    ensures var r := ApplyOp(ApplyOp(rows, a), b);
            forall k :: 0 <= k < |rows| ==> r[k].id == rows[k].id && r[k].home == rows[k].home
  {
    hide OpRow;
    forall k | 0 <= k < |rows|
      ensures ApplyOp(ApplyOp(rows, a), b)[k].id == rows[k].id && ApplyOp(ApplyOp(rows, a), b)[k].home == rows[k].home
    {
      OpKeepsName(rows[k], k, a);
      OpKeepsName(OpRow(rows[k], k, a), k, b);
    }
  }

  lemma OpKeepsName(r: Row, k: nat, op: Op)
    ensures OpRow(r, k, op).id == r.id && OpRow(r, k, op).home == r.home
  {
  }

  lemma AllSkipped(rows: seq<Row>, skipped: set<string>, tries: seq<Probe>)
    requires forall j :: 0 <= j < |rows| ==> rows[j].state != Available || rows[j].id in skipped
    ensures SkippedOk(rows, skipped, tries) ==> NoneFree(rows, tries) && (skipped != {} <==> tries != [])
  {
    hide FoundHeld;
  }

  // ---------------------------------------------------------------------
  // prepare and finish
  // ---------------------------------------------------------------------

  /** The accounts that a search of the pool left, and its verdict on them. */
  ghost predicate Verdict(before: seq<Row>, r: Prepared, tries: seq<Probe>) {
    match r
    case Leased(k, _) => FirstFree(before, k, tries)
    case HomesTaken => NoneFree(before, tries) && tries != []
    case NoneAvailable => NoneFree(before, tries) && tries == []
    case LockTimeout => false
  }

  /** What became of the file: the chosen account reserved from now on, or nothing but housekeeping. */
  ghost predicate Saved(was: seq<Row>, before: seq<Row>, rows: seq<Row>, r: Prepared, now: real, sec: real, pid: int,
                        start: Option<string>)
  {
    match r
    case Leased(k, lease) =>
      && k < |before| && before[k].state == Available
      && rows == ApplyOp(before, Reserve(k, now, sec, pid, lease, start))
    case _ => rows == before || rows == was
  }

  /**
   prepare_antigravity_environ_from_pool, without a precheck and with persistence: under the switch lock,
   load, reclaim, search, reserve, save, keep the HOME lock.
   */
  method Prepare(file: PoolFile, switch: SwitchLock, t: nat, process: Process, sec: real, lease: string,
                 start: Option<string>)
    returns (r: Prepared, ghost ops: seq<Op>)
    requires switch.Valid() && process.Valid()
    modifies file, switch, process`clock, process`locked, process`kept, process`probes
    ensures switch.Valid() && process.Valid() && old(process.probes) <= process.probes
    ensures process.clock >= old(process.clock)
    ensures r.LockTimeout? ==> file.rows == old(file.rows) && old(switch.owner).Some? && old(switch.Depth(t)) == 0
    ensures !r.LockTimeout? ==>
              var before, tries := Replay(old(file.rows), ops), process.probes[|old(process.probes)|..];
              && switch.Depth(t) == old(switch.Depth(t)) && AllHousekeeping(ops)
              && Saved(old(file.rows), before, file.rows, r, process.clock, sec, process.pid, start)
              && (DistinctNames(old(file.rows)) ==> Verdict(before, r, tries))
    ensures r.Leased? ==> r.lease == lease && file.rows[r.k].home in process.kept
  {
    hide Replay;
    hide Verdict;
    hide Saved;
    hide DistinctNames;
    hide AllHousekeeping;
    ops := [];
    var entered := switch.Enter(t);
    if !entered { return LockTimeout, ops; }
    r, ops := PrepareLocked(file, process, sec, lease, start);
    switch.Exit(t);
  }

  /** ... inside the lock. */
  method PrepareLocked(file: PoolFile, process: Process, sec: real, lease: string, start: Option<string>)
    returns (r: Prepared, ghost ops: seq<Op>)
    requires process.Valid()
    modifies file, process`clock, process`locked, process`kept, process`probes
    ensures process.Valid() && old(process.probes) <= process.probes && process.clock >= old(process.clock)
    ensures AllHousekeeping(ops) && !r.LockTimeout?
    ensures var before := Replay(old(file.rows), ops);
            && Saved(old(file.rows), before, file.rows, r, process.clock, sec, process.pid, start)
            && (DistinctNames(old(file.rows)) ==>
                  Verdict(before, r, process.probes[|old(process.probes)|..]))
    ensures |file.rows| == |old(file.rows)|
    ensures r.Leased? ==> r.lease == lease && r.k < |file.rows| && file.rows[r.k].home in process.kept
  {
    hide ApplyOp;
    hide Replay;
    hide FirstFree;
    hide NoneFree;
    hide DistinctNames;
    hide AllHousekeeping;
    hide ReserveRow;
    ghost var first, more;
    var accounts, reclaimed;
    accounts, reclaimed, first := LoadReclaimed(file, process);
    var k, skipped;
    k, skipped, more := Search(accounts, process);
    ops := OpsJoined(file.rows, first, more);
    if k == |accounts| {
      if reclaimed != [] {
        file.rows := Rows(accounts);
      }
      r := if skipped != {} then HomesTaken else NoneAvailable;
      return;
    }
    ReserveAt(file, accounts, k, process, sec, lease, start);
    r := Leased(k, lease);
  }

  method LoadReclaimed(file: PoolFile, process: Process)
    returns (accounts: seq<Account>, reclaimed: seq<string>, ghost ops: seq<Op>)
    requires process.Valid()
    modifies process`clock, process`locked
    ensures process.Valid() && process.clock >= old(process.clock)
    ensures Distinct(accounts) && fresh(accounts) && ops != [] && AllHousekeeping(ops)
    ensures Rows(accounts) == Replay(file.rows, ops)
    ensures DistinctNames(file.rows) ==> DistinctNames(Rows(accounts))
  {
    hide ApplyOp;
    hide Replay;
    hide DistinctNames;
    hide AllHousekeeping;
    accounts := Load(file, process.clock);
    var e := process.Look();
    reclaimed := ReclaimDead(accounts, e, process.pid);
    ops := LoadedOps(file.rows, old(process.clock), e, process.pid);
  }

  /** Reserve the chosen account, save, and keep its HOME lock. */
  method ReserveAt(file: PoolFile, accounts: seq<Account>, k: nat, process: Process, sec: real, lease: string,
                   start: Option<string>)
    requires Distinct(accounts) && k < |accounts| && process.Valid() && accounts[k].home in process.locked
    modifies file, accounts, process`kept
    ensures process.Valid()
    ensures file.rows == ApplyOp(old(Rows(accounts)), Reserve(k, process.clock, sec, process.pid, lease, start))
    ensures file.rows[k].home in process.kept
  {
    hide ReserveRow;
    ghost var before := Rows(accounts);
    accounts[k].Reserve(process.clock, sec, process.pid, lease, start);
    ReservedRows(before, Rows(accounts), k, process.clock, sec, process.pid, lease, start);
    file.rows := Rows(accounts);
    process.Retain(accounts[k].home);
  }

  lemma LoadedOps(rows: seq<Row>, now: real, e: Env, me: int) returns (ops: seq<Op>)
    ensures ops != [] && AllHousekeeping(ops)
    ensures Replay(rows, ops) == ApplyOp(ApplyOp(rows, Cool(now)), Reclaim(e, me))
    ensures DistinctNames(rows) ==> DistinctNames(Replay(rows, ops))
  {
    hide ApplyOp;
    ops := [Cool(now), Reclaim(e, me)];
    TwoMore(rows, [], Cool(now), Reclaim(e, me));
    assert [] + ops == ops;
    ReplayKeepsDistinct(rows, ops);
  }

  lemma {:induction false} ReplayJoin(rows: seq<Row>, a: seq<Op>, b: seq<Op>)
    ensures Replay(rows, a + b) == Replay(Replay(rows, a), b)
    decreases |b|
  {
    hide ApplyOp;
    if b == [] {
      assert a + b == a;
    } else {
      var n := |b| - 1;
      ReplayJoin(rows, a, b[..n]);
      assert (a + b)[..|a + b| - 1] == a + b[..n];
    }
  }

  lemma OpsJoined(rows: seq<Row>, a: seq<Op>, b: seq<Op>) returns (ops: seq<Op>)
    requires AllHousekeeping(a) && AllHousekeeping(b) && a != []
    ensures ops != [] && AllHousekeeping(ops) && Replay(rows, ops) == Replay(Replay(rows, a), b)
  {
    ops := a + b;
    ReplayJoin(rows, a, b);
  }

  lemma ReservedRows(before: seq<Row>, rows: seq<Row>, k: nat, now: real, sec: real, pid: int, lease: string,
                     start: Option<string>)
    requires |rows| == |before| && k < |rows| && rows[k] == ReserveRow(before[k], now, sec, pid, lease, start)
    requires forall j :: 0 <= j < |rows| && j != k ==> rows[j] == before[j]
    ensures rows == ApplyOp(before, Reserve(k, now, sec, pid, lease, start))
  {
  }

  datatype Closing = Written | Untouched | UnknownAccount | NoLock

  /** What became of the file: the owner's result on the account of that name, or nothing. */
  ghost predicate Closed(was: seq<Row>, rows: seq<Row>, now: real, me: int, id: string, lease: Option<string>,
                         c: Class, coolUntil: real, classify: bool, r: Closing)
  {
    var local := ApplyOp(was, Cool(now));
    var k := FindId(local, id);
    match r
    case NoLock => rows == was
    case UnknownAccount => k == |local| && rows == was
    case Untouched => k < |local| && FinishOp(local[k], k, lease, me, c, coolUntil, classify).None? && rows == was
    case Written =>
      && k < |local|
      && var op := FinishOp(local[k], k, lease, me, c, coolUntil, classify);
         && op.Some?
         && (rows == ApplyOp(local, op.value) || (rows == was && OpRow(local[k], k, op.value) == local[k]))
  }

  /** The HOMEs whose lock a finish drops: the account's, once its result was written. */
  function Dropped(rows: seq<Row>, id: string, r: Closing): set<string> {
    var k := FindId(rows, id);
    if r.Written? && k < |rows| then {rows[k].home} else {}
  }

  /** Cooling changes no name. */
  lemma CooledNames(rows: seq<Row>, now: real, id: string)
    ensures var local := ApplyOp(rows, Cool(now));
            && FindId(local, id) == FindId(rows, id)
            && (FindId(rows, id) < |rows| ==> local[FindId(rows, id)].home == rows[FindId(rows, id)].home)
  {
    FindIdIs(ApplyOp(rows, Cool(now)), id, FindId(rows, id));
  }

  /**
   finish_account_lease: under the switch lock, load, write the result to the account if the caller owns its
   lease, drop the HOME lock, save.
   */
  method Finish(file: PoolFile, switch: SwitchLock, t: nat, process: Process, id: string, lease: Option<string>,
                c: Class, coolUntil: real, classify: bool) returns (r: Closing)
    requires switch.Valid() && process.Valid()
    modifies file, switch, process`kept, process`locked
    ensures switch.Valid() && process.Valid() && (!r.NoLock? ==> switch.Depth(t) == old(switch.Depth(t)))
    ensures r.NoLock? ==> old(switch.owner).Some? && old(switch.Depth(t)) == 0
    ensures Closed(old(file.rows), file.rows, process.clock, process.pid, id, lease, c, coolUntil, classify, r)
    ensures process.kept == old(process.kept) - Dropped(old(file.rows), id, r)
  {
    hide ApplyOp;
    hide OpRow;
    var entered := switch.Enter(t);
    if !entered { return NoLock; }
    var accounts := Load(file, process.clock);
    ghost var local := Rows(accounts);
    var k := 0;
    while k < |accounts| && accounts[k].id != id
      invariant k <= |accounts| && Rows(accounts) == local
      invariant forall j :: 0 <= j < k ==> local[j].id != id
    {
      assert local[k].id == accounts[k].id;
      k := k + 1;
    }
    FindIdIs(local, id, k);
    CooledNames(file.rows, process.clock, id);
    if k == |accounts| {
      switch.Exit(t);
      return UnknownAccount;
    }
    r := FinishAt(file, accounts, k, process, lease, c, coolUntil, classify);
    switch.Exit(t);
  }

  /** apply_job_result_to_pool, or release_account_lease when the result is not classified. */
  method FinishAt(file: PoolFile, accounts: seq<Account>, k: nat, process: Process, lease: Option<string>, c: Class,
                  coolUntil: real, classify: bool) returns (r: Closing)
    requires Distinct(accounts) && k < |accounts| && process.Valid()
    modifies file, accounts, process`kept, process`locked
    ensures process.Valid() && (r.Written? || r.Untouched?)
    ensures var local := old(Rows(accounts));
            var op := FinishOp(local[k], k, lease, process.pid, c, coolUntil, classify);
            && (r.Untouched? ==> op.None? && file.rows == old(file.rows) && process.kept == old(process.kept))
            && (r.Written? ==> op.Some? && process.kept == old(process.kept) - {local[k].home}
                               && (file.rows == ApplyOp(local, op.value)
                                   || (file.rows == old(file.rows) && OpRow(local[k], k, op.value) == local[k])))
  {
    hide SettleRow;
    hide ReleaseRow;
    hide ApplyOp;
    var a := accounts[k];
    ghost var local := Rows(accounts);
    assert local[k] == a.Now();
    var dirty := true;
    ghost var op;
    if classify {
      if !Writable(a.Now(), lease, process.pid) { return Untouched; }
      op := Settle(k, c, coolUntil);
      dirty := SettleOne(a, c, coolUntil);
    } else {
      if !Owns(a.Now(), lease, process.pid) { return Untouched; }
      op := Release(k);
      ReleaseOne(a);
    }
    OneRow(local, Rows(accounts), k, op);
    process.Drop(a.home);
    if dirty {
      file.rows := Rows(accounts);
    }
    r := Written;
  }

  lemma OneRow(local: seq<Row>, rows: seq<Row>, k: nat, op: Op)
    requires |rows| == |local| && k < |rows| && (op == Release(k) || (op.Settle? && op.k == k))
    requires rows[k] == OpRow(local[k], k, op)
    requires forall j :: 0 <= j < |rows| && j != k ==> rows[j] == local[j]
    ensures rows == ApplyOp(local, op)
  {
  }

  method SettleOne(a: Account, c: Class, coolUntil: real) returns (changed: bool)
    modifies a
    ensures a.Now() == SettleRow(old(a.Now()), c, coolUntil)
    ensures changed <==> c.Limited? || a.Now() != old(a.Now())
  {
    changed := a.ApplyClass(c, coolUntil);
    if a.state == Busy {
      a.state := Available;
      a.Clear();
      changed := true;
    } else if a.pid.Some? || a.until.Some? || a.lease.Some? {
      a.Clear();
      changed := true;
    }
  }

  method ReleaseOne(a: Account)
    modifies a
    ensures a.Now() == ReleaseRow(old(a.Now()))
  {
    if a.state == Busy {
      a.state := Available;
    }
    a.Clear();
  }
}
