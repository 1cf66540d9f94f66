/**
 One process alone with the pool: a call of prepare is a run of protocol steps, it ends as the call's
 contract says, and it ends with a lease whenever some HOME is free.
 */
module LeaseProgress {
  import opened Basics
  import opened LeaseRows
  import opened LeaseProtocol
  import LeasePool

  /** Every attempt that found a HOME held is explained by one of these locks. */
  ghost predicate Explained(tries: seq<LeasePool.Probe>, homes: set<string>) {
    forall i :: 0 <= i < |tries| && !tries[i].ok ==> tries[i].home in homes
  }

  /** Outside the pool lock nothing moved, and thread t is one level further out of it. */
  ghost predicate Out(s: Sys, t: nat, s2: Sys)
    requires Runs(s, t) && s.threads[t].depth > 0
  {
    && s2.clock == s.clock && s2.procs == s.procs && s.log <= s2.log
    && s2.threads == s.threads[t := Thread(s.threads[t].proc, s.threads[t].depth - 1, Idle)]
    && s2.owner == if s.threads[t].depth == 1 then None else s.owner
  }

  /** A grant went to thread t, which keeps the HOME lock it took for it; or none was made. */
  ghost predicate Answered(s: Sys, t: nat, s2: Sys, lease: string, r: LeasePool.Prepared)
    requires Runs(s, t)
  {
    match r
    case Leased(k, id) =>
      && id == lease && k < |s2.file| && WasGranted(s2.log, lease) && s2.file[k].home in s2.kept
      && s2.file[k].home in s2.homes && s2.homes[s2.file[k].home] == Hold(s.threads[t].proc, lease)
    case _ => !WasGranted(s2.log, lease)
  }

  /** From s, inside the lock and with a copy of the pool in memory, thread t ends as prepare promises. */
  ghost predicate EndsAsPrepare(s: Sys, t: nat, s2: Sys, lease: string, sec: real, start: Option<string>,
                                ops: seq<Op>, r: LeasePool.Prepared, tries: seq<LeasePool.Probe>)
    requires Runs(s, t) && s.threads[t].depth > 0
  {
    && Out(s, t, s2) && Answered(s, t, s2, lease, r)
    && LeasePool.AllHousekeeping(ops)
    && LeasePool.Saved(s.file, Replay(s.file, ops), s2.file, r, s.clock, sec, s.procs[s.threads[t].proc].pid, start)
    && LeasePool.Verdict(Replay(s.file, ops), r, tries)
  }

  // ---------------------------------------------------------------------
  // The ways out
  // ---------------------------------------------------------------------

  /** One step before a run. */
  lemma Then(s: Sys, a: Action, rest: seq<Action>)
    requires Enabled(s, a) && Possible(Do(s, a), rest)
    ensures Possible(s, [a] + rest) && Outcome(s, [a] + rest) == Outcome(Do(s, a), rest)
  {
    hide Enabled;
    hide Do;
    assert ([a] + rest)[1..] == rest;
  }

  lemma Leaving(s: Sys, t: nat) returns (run: seq<Action>)
    requires Runs(s, t) && s.threads[t].depth > 0 && s.threads[t].task.Idle?
    ensures Possible(s, run)
    ensures var s2 := Outcome(s, run);
            Out(s, t, s2) && s2.file == s.file && s2.homes == s.homes && s2.kept == s.kept && s2.log == s.log
  {
    run := [Exit(t)] + [];
    Then(s, Exit(t), []);
  }

  lemma GrantSteps(s: Sys, t: nat, lease: string, sec: real, start: Option<string>)
    returns (marked: Sys, saved: Sys, kept: Sys)
    requires Works(s, t) && Inv(s) && s.threads[t].task.phase.HomeLocked? && s.threads[t].task.phase.lease == lease
    requires start.Some? ==> start.value == s.procs[s.threads[t].proc].token
    ensures Enabled(s, Mark(t, sec, start)) && marked == Do(s, Mark(t, sec, start))
    ensures Enabled(marked, SaveGrant(t)) && saved == Do(marked, SaveGrant(t))
    ensures Enabled(saved, Keep(t)) && kept == Do(saved, Keep(t))
    ensures kept.clock == s.clock && kept.procs == s.procs && kept.owner == s.owner && s.log <= kept.log
    ensures kept.threads == s.threads[t := Thread(s.threads[t].proc, s.threads[t].depth, Idle)]
    ensures var w := s.threads[t].task;
            && w.phase.k < |w.local| && WasGranted(kept.log, lease)
            && kept.homes == s.homes && w.local[w.phase.k].home in kept.kept
            && w.local[w.phase.k].home in s.homes && s.homes[w.local[w.phase.k].home] == Hold(s.threads[t].proc, lease)
            && kept.file == ApplyOp(w.local, Reserve(w.phase.k, s.clock, sec, s.procs[s.threads[t].proc].pid, lease, start))
  {
    hide Inv;
    hide Replay;
    hide Protects;
    TaskOf(s, t);
    marked := Do(s, Mark(t, sec, start));
    saved := Do(marked, SaveGrant(t));
    kept := Do(saved, Keep(t));
    assert saved.log[|s.log|].Granted?;
  }

  lemma CopyOfFile(s: Sys, t: nat)
    requires Works(s, t) && Inv(s) && s.threads[t].task.phase.HomeLocked?
    ensures var w := s.threads[t].task;
            && LeasePool.AllHousekeeping(w.ops) && w.local == Replay(s.file, w.ops)
            && w.phase.k < |w.local| && w.local[w.phase.k].state == Available
  {
    hide Inv;
    hide Replay;
    hide Protects;
    TaskOf(s, t);
  }

  /** The HOME is locked: reserve, save, keep the lock, leave. */
  lemma Grant(s: Sys, t: nat, lease: string, sec: real, start: Option<string>, tries: seq<LeasePool.Probe>)
    returns (run: seq<Action>, r: LeasePool.Prepared)
    requires Works(s, t) && Inv(s)
    requires var w := s.threads[t].task;
             w.phase.HomeLocked? && w.phase.lease == lease && LeasePool.FirstFree(w.local, w.phase.k, tries)
    requires start.Some? ==> start.value == s.procs[s.threads[t].proc].token
    ensures Possible(s, run) && r.Leased?
    ensures EndsAsPrepare(s, t, Outcome(s, run), lease, sec, start, s.threads[t].task.ops, r, tries)
  {
    hide Inv;
    hide LeasePool.FirstFree;
    var marked, saved, kept := GrantSteps(s, t, lease, sec, start);
    CopyOfFile(s, t);
    r := LeasePool.Prepared.Leased(s.threads[t].task.phase.k, lease);
    run := Leaving(kept, t);
    Then(saved, Keep(t), run);
    Then(marked, SaveGrant(t), [Keep(t)] + run);
    Then(s, Mark(t, sec, start), [SaveGrant(t)] + ([Keep(t)] + run));
    run := [Mark(t, sec, start)] + ([SaveGrant(t)] + ([Keep(t)] + run));
  }

  /** Nothing is left: save what was reclaimed, leave. */
  lemma GiveUp(s: Sys, t: nat, lease: string, sec: real, start: Option<string>, tries: seq<LeasePool.Probe>)
    returns (run: seq<Action>, r: LeasePool.Prepared)
    requires Works(s, t) && Inv(s) && !WasGranted(s.log, lease)
    requires s.threads[t].task.phase.NoneLeft? && LeasePool.NoneFree(s.threads[t].task.local, tries)
    ensures Possible(s, run) && (r.HomesTaken? || r.NoneAvailable?)
    ensures EndsAsPrepare(s, t, Outcome(s, run), lease, sec, start, s.threads[t].task.ops, r, tries)
  {
    hide Inv;
    hide LeasePool.NoneFree;
    hide WasGranted;
    TaskOf(s, t);
    r := if tries != [] then LeasePool.HomesTaken else LeasePool.NoneAvailable;
    var last := if s.threads[t].task.phase.reclaimed then Save(t) else Leave(t);
    run := Leaving(Do(s, last), t);
    Then(s, last, run);
    run := [last] + run;
  }

  // ---------------------------------------------------------------------
  // The search
  // ---------------------------------------------------------------------

  /** Between s and s2 thread t worked on its copy in memory, and may have let go HOME locks of its own. */
  ghost predicate Inside(s: Sys, t: nat, s2: Sys)
    requires t < |s.threads|
  {
    && s2.clock == s.clock && s2.procs == s.procs && s2.owner == s.owner && s2.file == s.file && s.log <= s2.log
    && |s2.threads| == |s.threads|
    && s2.threads == s.threads[t := s.threads[t].(task := s2.threads[t].task)]
  }

  lemma EndsLater(s: Sys, t: nat, s1: Sys, s2: Sys, lease: string, sec: real, start: Option<string>,
                  ops: seq<Op>, r: LeasePool.Prepared, tries: seq<LeasePool.Probe>)
    requires Runs(s, t) && s.threads[t].depth > 0 && Inside(s, t, s1)
    requires EndsAsPrepare(s1, t, s2, lease, sec, start, ops, r, tries)
    ensures EndsAsPrepare(s, t, s2, lease, sec, start, ops, r, tries)
  {
    hide LeasePool.Saved;
    hide LeasePool.Verdict;
    hide LeasePool.AllHousekeeping;
    hide WasGranted;
  }

  lemma SelectStep(s: Sys, t: nat, e: Env, lease: string, tries: seq<LeasePool.Probe>) returns (s1: Sys)
    requires Works(s, t) && Inv(s) && s.threads[t].task.phase.Searching? && Truthful(s, e) && !WasGranted(s.log, lease)
    requires LeasePool.SkippedOk(s.threads[t].task.local, s.threads[t].task.phase.skipped, tries)
    ensures Enabled(s, Select(t, e)) && s1 == Do(s, Select(t, e)) && Inv(s1) && Works(s1, t) && Inside(s, t, s1)
    ensures s1.homes.Keys <= s.homes.Keys && Truthful(s1, e) && !WasGranted(s1.log, lease)
    ensures var w, w1 := s.threads[t].task, s1.threads[t].task;
            && w1.local == ApplyOp(ApplyOp(w.local, Cool(e.now)), Sweep(e))
            && LeasePool.SkippedOk(w1.local, w.phase.skipped, tries)
            && if w1.phase.Probing? then
                 w1.phase == Probing(First(w1.local, w.phase.skipped), w.phase.skipped, w.phase.reclaimed)
                 && w1.phase.k < |w1.local|
               else w1.phase.NoneLeft? && LeasePool.NoneFree(w1.local, tries)
  {
    hide Inv;
    hide LeasePool.SkippedOk;
    hide LeasePool.NoneFree;
    StepKeepsInv(s, Select(t, e));
    s1 := Do(s, Select(t, e));
    var w := s.threads[t].task;
    LeasePool.NamesKept(w.local, Cool(e.now), Sweep(e));
    LeasePool.SkippedNames(w.local, s1.threads[t].task.local, w.phase.skipped, tries);
    if First(s1.threads[t].task.local, w.phase.skipped) == |w.local| {
      LeasePool.AllSkipped(s1.threads[t].task.local, w.phase.skipped, tries);
    }
  }

  /** An attempt at the selected HOME: it is taken, or skipped because it is held. */
  lemma TryStep(s: Sys, t: nat, e: Env, lease: string, tries: seq<LeasePool.Probe>)
    returns (s1: Sys, all: seq<LeasePool.Probe>)
    requires Works(s, t) && Inv(s) && Truthful(s, e) && !WasGranted(s.log, lease)
    requires var w := s.threads[t].task;
             && w.phase.Probing? && w.phase.k < |w.local| && w.phase.k == First(w.local, w.phase.skipped)
             && LeasePool.SkippedOk(w.local, w.phase.skipped, tries) && LeasePool.DistinctNames(w.local)
    ensures Enabled(s, TryHome(t, lease)) && s1 == Do(s, TryHome(t, lease)) && Inv(s1) && Works(s1, t) && Inside(s, t, s1)
    ensures var w, w1 := s.threads[t].task, s1.threads[t].task;
            var r := w.local[w.phase.k];
            && w1.local == w.local
            && if r.home in s.homes then
                 && s1.homes == s.homes && Truthful(s1, e) && !WasGranted(s1.log, lease)
                 && all == tries + [LeasePool.Probe(r.home, false)] && r.id !in w.phase.skipped
                 && w1.phase == Searching(w.phase.skipped + {r.id}, w.phase.reclaimed)
                 && LeasePool.SkippedOk(w1.local, w1.phase.skipped, all)
               else
                 && all == tries + [LeasePool.Probe(r.home, true)]
                 && w1.phase == HomeLocked(w.phase.k, lease) && LeasePool.FirstFree(w1.local, w1.phase.k, all)
  {
    hide Inv;
    hide LeasePool.SkippedOk;
    hide LeasePool.FirstFree;
    hide WasGranted;
    StepKeepsInv(s, TryHome(t, lease));
    s1 := Do(s, TryHome(t, lease));
    var w := s.threads[t].task;
    var held := w.local[w.phase.k].home in s.homes;
    all := tries + [LeasePool.Probe(w.local[w.phase.k].home, !held)];
    if held {
      LeasePool.SkipOneMore(w.local, w.phase.skipped, tries, w.phase.k);
    } else {
      LeasePool.FoundFree(w.local, w.phase.skipped, tries, w.phase.k);
    }
  }

  /** The names in memory are those in the file, and they are distinct if those are. */
  lemma SameNames(s: Sys, t: nat)
    requires Works(s, t) && Inv(s) && !s.threads[t].task.phase.Granting?
    ensures LeasePool.Ids(s.threads[t].task.local) == LeasePool.Ids(s.file)
    ensures DistinctIds(s.file) ==> LeasePool.DistinctNames(s.threads[t].task.local)
  {
    hide Replay;
    hide Locks;
    hide Lives;
    hide Holds;
    hide Grants;
    hide Protects;
    hide Exclusive;
    TaskOf(s, t);
    var w := s.threads[t].task;
    ReplayKeepsNames(s.file, w.ops);
    ReplayKeepsDistinct(s.file, w.ops);
    assert forall k :: 0 <= k < |s.file| ==> w.local[k].id == s.file[k].id;
  }

  /** From any point of the search on: a run of steps that ends as prepare does. */
  lemma {:induction false} SearchAlone(s: Sys, t: nat, e: Env, lease: string, sec: real, start: Option<string>,
                                       tries: seq<LeasePool.Probe>, homes: set<string>)
    returns (run: seq<Action>, ops: seq<Op>, r: LeasePool.Prepared, all: seq<LeasePool.Probe>)
    requires Works(s, t) && Inv(s) && s.threads[t].task.phase.Searching? && Truthful(s, e) && !WasGranted(s.log, lease)
    requires LeasePool.SkippedOk(s.threads[t].task.local, s.threads[t].task.phase.skipped, tries)
    requires DistinctIds(s.file) && Explained(tries, homes) && s.homes.Keys <= homes
    requires start.Some? ==> start.value == s.procs[s.threads[t].proc].token
    ensures Possible(s, run) && Explained(all, homes)
    ensures EndsAsPrepare(s, t, Outcome(s, run), lease, sec, start, ops, r, all)
    decreases LeasePool.Ids(s.file) - s.threads[t].task.phase.skipped
  {
    hide Inv;
    hide Do;
    hide Enabled;
    hide Truthful;
    hide WasGranted;
    hide DistinctIds;
    hide EndsAsPrepare;
    hide LeasePool.SkippedOk;
    hide LeasePool.NoneFree;
    hide LeasePool.FirstFree;
    hide LeasePool.DistinctNames;
    var s1 := SelectStep(s, t, e, lease, tries);
    SameNames(s1, t);
    if s1.threads[t].task.phase.NoneLeft? {
      run, r := GiveUp(s1, t, lease, sec, start, tries);
      ops, all := s1.threads[t].task.ops, tries;
    } else {
      var s2;
      s2, all := TryStep(s1, t, e, lease, tries);
      if s2.threads[t].task.phase.Searching? {
        run, ops, r, all := SearchAlone(s2, t, e, lease, sec, start, all, homes);
      } else {
        run, r := Grant(s2, t, lease, sec, start, all);
        ops := s2.threads[t].task.ops;
      }
      Then(s1, TryHome(t, lease), run);
      run := [TryHome(t, lease)] + run;
      EndsLater(s1, t, s2, Outcome(s1, run), lease, sec, start, ops, r, all);
    }
    Then(s, Select(t, e), run);
    EndsLater(s, t, s1, Outcome(s1, run), lease, sec, start, ops, r, all);
    run := [Select(t, e)] + run;
  }

  // ---------------------------------------------------------------------
  // A whole call
  // ---------------------------------------------------------------------

  /** What is available stays so through housekeeping. */
  lemma {:induction false} StaysAvailable(rows: seq<Row>, ops: seq<Op>, k: nat)
    requires LeasePool.AllHousekeeping(ops) && k < |rows| && rows[k].state == Available
    ensures Replay(rows, ops)[k].state == Available && Replay(rows, ops)[k].home == rows[k].home
  {
    if ops != [] {
      StaysAvailable(rows, ops[..|ops| - 1], k);
    }
  }

  lemma FreeIsLeased(s: Sys, ops: seq<Op>, r: LeasePool.Prepared, tries: seq<LeasePool.Probe>, k: nat)
    requires LeasePool.AllHousekeeping(ops) && LeasePool.Verdict(Replay(s.file, ops), r, tries)
    requires Explained(tries, s.homes.Keys)
    requires k < |s.file| && s.file[k].state == Available && s.file[k].home !in s.homes
    ensures r.Leased?
  {
    hide Replay;
    StaysAvailable(s.file, ops, k);
    assert Replay(s.file, ops)[k].home == s.file[k].home;
  }

  lemma Opening(s: Sys, t: nat, e: Env) returns (entered: Sys, loaded: Sys, s1: Sys)
    requires Inv(s) && Truthful(s, e)
    requires Runs(s, t) && s.threads[t].task.Idle? && (s.threads[t].depth > 0 || s.owner.None?)
    ensures Enabled(s, Enter(t)) && entered == Do(s, Enter(t))
    ensures Enabled(entered, Load(t)) && loaded == Do(entered, Load(t))
    ensures Enabled(loaded, ReclaimDead(t, e)) && s1 == Do(loaded, ReclaimDead(t, e))
    ensures Inv(s1) && Works(s1, t) && Truthful(s1, e) && Inside(entered, t, s1)
    ensures s1.threads[t].task.phase.Searching? && s1.threads[t].task.phase.skipped == {}
    ensures entered == s.(owner := Some(t), threads := s.threads[t := s.threads[t].(depth := s.threads[t].depth + 1)])
    ensures s1.homes == s.homes && s1.log == s.log
    ensures s.owner == if s.threads[t].depth == 0 then None else Some(t)
  {
    LockOf(s, t);
    hide Inv;
    entered := Do(s, Enter(t));
    loaded := Do(entered, Load(t));
    s1 := Do(loaded, ReclaimDead(t, e));
    StepKeepsInv(s, Enter(t));
    StepKeepsInv(entered, Load(t));
    StepKeepsInv(loaded, ReclaimDead(t, e));
  }

  lemma LockOf(s: Sys, t: nat)
    requires Inv(s) && t < |s.threads|
    ensures s.threads[t].depth > 0 <==> s.owner == Some(t)
  {
    assert LockOk(s, t);
  }

  /**
   Prepare is a run of the protocol.  In any reachable state in which thread t of a live process may enter the
   pool lock, its steps alone lead out of it again, to a state that meets the contract of LeasePool.Prepare
   for attempts that the held HOME locks explain; and they lead to a lease if some account is available and
   its HOME is not locked.
   */
  lemma PrepareAlone(s: Sys, t: nat, e: Env, lease: string, sec: real, start: Option<string>)
    returns (run: seq<Action>, ops: seq<Op>, r: LeasePool.Prepared, tries: seq<LeasePool.Probe>)
    requires Inv(s) && DistinctIds(s.file) && Truthful(s, e) && !WasGranted(s.log, lease)
    requires Runs(s, t) && s.threads[t].task.Idle? && (s.threads[t].depth > 0 || s.owner.None?)
    requires start.Some? ==> start.value == s.procs[s.threads[t].proc].token
    ensures Possible(s, run)
    ensures var s2 := Outcome(s, run);
            && s2.owner == s.owner && s2.threads == s.threads && s2.clock == s.clock && s2.procs == s.procs
            && Answered(s, t, s2, lease, r) && Explained(tries, s.homes.Keys)
            && LeasePool.AllHousekeeping(ops)
            && LeasePool.Saved(s.file, Replay(s.file, ops), s2.file, r, s.clock, sec, s.procs[s.threads[t].proc].pid, start)
            && LeasePool.Verdict(Replay(s.file, ops), r, tries)
    ensures (exists k :: 0 <= k < |s.file| && s.file[k].state == Available && s.file[k].home !in s.homes) ==> r.Leased?
  {
    hide Inv;
    hide WasGranted;
    hide DistinctIds;
    hide LeasePool.SkippedOk;
    hide LeasePool.Saved;
    hide LeasePool.Verdict;
    hide LeasePool.AllHousekeeping;
    hide Enabled;
    hide Do;
    hide Truthful;
    var entered, loaded, s1 := Opening(s, t, e);
    LeasePool.NothingYet(s1.threads[t].task.local);
    run, ops, r, tries := SearchAlone(s1, t, e, lease, sec, start, [], s.homes.Keys);
    EndsLater(entered, t, s1, Outcome(s1, run), lease, sec, start, ops, r, tries);
    Then(loaded, ReclaimDead(t, e), run);
    Then(entered, Load(t), [ReclaimDead(t, e)] + run);
    Then(s, Enter(t), [Load(t)] + ([ReclaimDead(t, e)] + run));
    run := [Enter(t)] + ([Load(t)] + ([ReclaimDead(t, e)] + run));
    if k :| 0 <= k < |s.file| && s.file[k].state == Available && s.file[k].home !in s.homes {
      FreeIsLeased(s, ops, r, tries, k);
    }
  }

  /** What a finish does to the copy in memory, and whether it must be saved. */
  lemma FinishStep(s: Sys, t: nat, id: string, lease: string, c: Class, coolUntil: real, classify: bool)
    returns (s1: Sys, r: LeasePool.Closing)
    requires Works(s, t) && Inv(s) && s.threads[t].task.phase.Loaded?
    requires s.threads[t].task.local == ApplyOp(s.file, Cool(s.clock))
    ensures var a := Finish(t, id, lease, c, coolUntil, classify);
            Enabled(s, a) && s1 == Do(s, a) && Works(s1, t) && Inside(s, t, s1) && s1.threads[t].task.phase.Settled?
    ensures !r.NoLock? && Finished(lease) in s1.log
    ensures s1.kept == s.kept - Retained(s, s.threads[t].proc, LeasePool.Dropped(s.file, id, r))
    ensures LeasePool.Closed(s.file, if s1.threads[t].task.phase.dirty then s1.threads[t].task.local else s.file, s.clock,
                             s.procs[s.threads[t].proc].pid, id, Some(lease), c, coolUntil, classify, r)
  {
    hide Inv;
    hide FinishOp;
    hide OpRow;
    hide ApplyOp;
    hide FindId;
    LeasePool.CooledNames(s.file, s.clock, id);
    var local := s.threads[t].task.local;
    var k := FindId(local, id);
    s1 := Do(s, Finish(t, id, lease, c, coolUntil, classify));
    if k == |local| {
      r := LeasePool.UnknownAccount;
    } else {
      var op := FinishOp(local[k], k, Some(lease), s.procs[s.threads[t].proc].pid, c, coolUntil, classify);
      r := if op.None? then LeasePool.Untouched else LeasePool.Written;
    }
    assert s1.log[|s.log|] == Finished(lease);
  }

  /**
   A finish is a run of the protocol as well: the steps of thread t alone lead through the pool lock to a state
   that meets the contract of LeasePool.Finish.
   */
  lemma FinishAlone(s: Sys, t: nat, id: string, lease: string, c: Class, coolUntil: real, classify: bool)
    returns (run: seq<Action>, r: LeasePool.Closing)
    requires Inv(s) && Runs(s, t) && s.threads[t].task.Idle? && (s.threads[t].depth > 0 || s.owner.None?)
    ensures Possible(s, run) && !r.NoLock?
    ensures var s2 := Outcome(s, run);
            && s2.owner == s.owner && s2.threads == s.threads && s2.clock == s.clock && s2.procs == s.procs
            && LeasePool.Closed(s.file, s2.file, s.clock, s.procs[s.threads[t].proc].pid, id, Some(lease), c, coolUntil,
                                classify, r)
            && s2.kept == s.kept - Retained(s, s.threads[t].proc, LeasePool.Dropped(s.file, id, r))
            && Finished(lease) in s2.log
  {
    hide Inv;
    hide LeasePool.Closed;
    hide LeasePool.Dropped;
    hide DoFinish;
    LockOf(s, t);
    var entered := Do(s, Enter(t));
    var loaded := Do(entered, Load(t));
    StepKeepsInv(s, Enter(t));
    StepKeepsInv(entered, Load(t));
    var finish := Finish(t, id, lease, c, coolUntil, classify);
    var s1;
    s1, r := FinishStep(loaded, t, id, lease, c, coolUntil, classify);
    var last := if s1.threads[t].task.phase.dirty then Save(t) else Leave(t);
    run := Leaving(Do(s1, last), t);
    Then(s1, last, run);
    Then(loaded, finish, [last] + run);
    Then(entered, Load(t), [finish] + ([last] + run));
    Then(s, Enter(t), [Load(t)] + ([finish] + ([last] + run)));
    run := [Enter(t)] + ([Load(t)] + ([finish] + ([last] + run)));
  }
}
