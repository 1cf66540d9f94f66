/**
 The account lease protocol as an interleaving of small steps: many processes and threads, one pool file
 under a re-entrant machine-wide lock, one OS lock per HOME, deaths, reused pids and a clock.
 */
module LeaseProtocol {
  import opened Basics
  import opened LeaseRows

  /** A process instance: a pid may be used again, by an instance with another start token. */
  datatype Proc = Proc(pid: int, token: string, alive: bool)

  /** Who holds a HOME lock, and for which lease it was taken. */
  datatype Hold = Hold(proc: nat, lease: string)

  /** What happened, in order: the log of a run. */
  datatype Event =
    | Granted(lease: string, home: string, proc: nat, until: int, at: real)
    | Finished(lease: string)
    | Died(proc: nat)
    | LetGo(leases: set<string>)

  datatype Phase =
    | Loaded
    | Searching(skipped: set<string>, reclaimed: bool)
    | Probing(k: nat, skipped: set<string>, reclaimed: bool)
    | NoneLeft(reclaimed: bool)
    | HomeLocked(k: nat, lease: string)
    | Marked(k: nat, lease: string)
    | Granting(home: string)
    | Settled(dirty: bool)

  /** `base` is what was loaded, `local` the copy in memory, `ops` what was done to it since. */
  datatype Task =
    | Idle
    | Peeked(rows: seq<Row>)
    | Working(base: seq<Row>, ops: seq<Op>, local: seq<Row>, phase: Phase)

  datatype Thread = Thread(proc: nat, depth: nat, task: Task)

  /** `kept` are the HOME locks in their owner's table of retained handles. */
  datatype Sys = Sys(
    clock: real,
    file: seq<Row>,
    owner: Option<nat>,
    threads: seq<Thread>,
    procs: seq<Proc>,
    homes: map<string, Hold>,
    kept: set<string>,
    log: seq<Event>)

  datatype Action =
    | Advance(to: real)
    | Spawn(pid: int, token: string)
    | StartThread(proc: nat)
    | Die(proc: nat)
    | Enter(t: nat)
    | Exit(t: nat)
    | Load(t: nat)
    | ReclaimDead(t: nat, e: Env)
    | Select(t: nat, e: Env)
    | TryHome(t: nat, lease: string)
    | Mark(t: nat, sec: real, seen: Option<string>)
    | SaveGrant(t: nat)
    | Keep(t: nat)
    | Finish(t: nat, id: string, lease: string, c: Class, coolUntil: real, classify: bool)
    | Save(t: nat)
    | Leave(t: nat)
    | Peek(t: nat)
    | PeekSweep(t: nat, e: Env)

  // ---------------------------------------------------------------------
  // Steps
  // ---------------------------------------------------------------------

  predicate Runs(s: Sys, t: nat) {
    t < |s.threads| && s.threads[t].proc < |s.procs| && s.procs[s.threads[t].proc].alive
  }

  /** Inside the switch lock, with a copy of the pool in memory. */
  predicate Works(s: Sys, t: nat) {
    Runs(s, t) && s.threads[t].depth > 0 && s.threads[t].task.Working?
  }

  /** A look at the machine that shows no live process as dead or replaced, and no held HOME lock as free. */
  predicate Truthful(s: Sys, e: Env) {
    && e.now == s.clock
    && (forall p :: 0 <= p < |s.procs| && s.procs[p].alive ==>
          s.procs[p].pid in e.alive && (s.procs[p].pid in e.tokens ==> e.tokens[s.procs[p].pid] == s.procs[p].token))
    && e.free !! s.homes.Keys
  }

  predicate WasGranted(log: seq<Event>, lease: string) {
    exists i :: 0 <= i < |log| && log[i].Granted? && log[i].lease == lease
  }

  predicate Enabled(s: Sys, a: Action) {
    match a
    case Advance(to) => to >= s.clock
    case Spawn(pid, token) =>
      pid > 0 && forall p :: 0 <= p < |s.procs| ==> s.procs[p].pid == pid ==> !s.procs[p].alive && s.procs[p].token != token
    case StartThread(p) => p < |s.procs| && s.procs[p].alive
    case Die(p) => p < |s.procs| && s.procs[p].alive
    case Enter(t) => Runs(s, t) && s.threads[t].task.Idle? && (s.threads[t].depth > 0 || s.owner.None?)
    case Exit(t) => Runs(s, t) && s.threads[t].depth > 0 && s.threads[t].task.Idle?
    case Load(t) => Runs(s, t) && s.threads[t].depth > 0 && s.threads[t].task.Idle?
    case ReclaimDead(t, e) => Works(s, t) && s.threads[t].task.phase.Loaded? && Truthful(s, e)
    case Select(t, e) => Works(s, t) && s.threads[t].task.phase.Searching? && Truthful(s, e)
    case TryHome(t, lease) =>
      && Works(s, t) && s.threads[t].task.phase.Probing? && s.threads[t].task.phase.k < |s.threads[t].task.local|
      && !WasGranted(s.log, lease)
    case Mark(t, _, token) =>
      && Works(s, t) && s.threads[t].task.phase.HomeLocked? && s.threads[t].task.phase.k < |s.threads[t].task.local|
      && (token.Some? ==> token.value == s.procs[s.threads[t].proc].token)
    case SaveGrant(t) =>
      && Works(s, t) && s.threads[t].task.phase.Marked? && s.threads[t].task.phase.k < |s.threads[t].task.local|
      && s.threads[t].task.local[s.threads[t].task.phase.k].until.Some?
    case Keep(t) => Works(s, t) && s.threads[t].task.phase.Granting?
    case Finish(t, _, _, _, _, _) => Works(s, t) && s.threads[t].task.phase.Loaded?
    case Save(t) =>
      && Works(s, t)
      && (s.threads[t].task.phase == NoneLeft(true) || s.threads[t].task.phase == Searching({}, true)
          || s.threads[t].task.phase == Settled(true))
    case Leave(t) =>
      && Works(s, t)
      && (s.threads[t].task.phase == NoneLeft(false) || s.threads[t].task.phase == Searching({}, false)
          || s.threads[t].task.phase == Settled(false))
    case Peek(t) => Runs(s, t) && s.threads[t].task.Idle?
    case PeekSweep(t, e) => Runs(s, t) && s.threads[t].task.Peeked? && Truthful(s, e)
  }

  function WithTask(s: Sys, t: nat, task: Task): Sys
    requires t < |s.threads|
  {
    s.(threads := s.threads[t := s.threads[t].(task := task)])
  }

  /** What the memory copy is after one more operation. */
  function Did(w: Task, op: Op, phase: Phase): Task
    requires w.Working?
  {
    Working(w.base, w.ops + [op], ApplyOp(w.local, op), phase)
  }

  /** Those of the HOMEs that process p itself has retained a lock for. */
  function Retained(s: Sys, p: nat, hs: set<string>): set<string> {
    set h | h in hs && h in s.kept && h in s.homes && s.homes[h].proc == p
  }

  function LeasesOf(homes: map<string, Hold>, hs: set<string>): set<string> {
    set h | h in hs && h in homes :: homes[h].lease
  }

  /** Close these HOME locks. */
  function Close(s: Sys, hs: set<string>): Sys {
    s.(homes := s.homes - hs, kept := s.kept - hs, log := s.log + [LetGo(LeasesOf(s.homes, hs))])
  }

  function HomesOf(s: Sys, p: nat): set<string> {
    set h | h in s.homes && s.homes[h].proc == p
  }

  function DoDie(s: Sys, p: nat): Sys
    requires Enabled(s, Die(p))
  {
    var threads := seq(|s.threads|, t requires 0 <= t < |s.threads| =>
      if s.threads[t].proc == p then Thread(p, 0, Idle) else s.threads[t]);
    var owner := if s.owner.Some? && s.owner.value < |s.threads| && s.threads[s.owner.value].proc == p then None else s.owner;
    var c := Close(s, HomesOf(s, p));
    c.(threads := threads, owner := owner, procs := s.procs[p := s.procs[p].(alive := false)], log := c.log + [Died(p)])
  }

  function DoSelect(s: Sys, t: nat, e: Env): Sys
    requires Enabled(s, Select(t, e))
  {
    var w := s.threads[t].task;
    var cooled := Did(w, Cool(e.now), w.phase);
    var swept := Did(cooled, Sweep(e), w.phase);
    var k := First(swept.local, w.phase.skipped);
    var phase := if k < |swept.local| then Probing(k, w.phase.skipped, w.phase.reclaimed) else NoneLeft(w.phase.reclaimed);
    WithTask(Close(s, Retained(s, s.threads[t].proc, StaleHomes(cooled.local, e))), t, swept.(phase := phase))
  }

  function DoTryHome(s: Sys, t: nat, lease: string): Sys
    requires Enabled(s, TryHome(t, lease))
  {
    var w := s.threads[t].task;
    var r := w.local[w.phase.k];
    if r.home in s.homes then WithTask(s, t, w.(phase := Searching(w.phase.skipped + {r.id}, w.phase.reclaimed)))
    else WithTask(s.(homes := s.homes[r.home := Hold(s.threads[t].proc, lease)]), t, w.(phase := HomeLocked(w.phase.k, lease)))
  }

  function DoSaveGrant(s: Sys, t: nat): Sys
    requires Enabled(s, SaveGrant(t))
  {
    var w := s.threads[t].task;
    var r := w.local[w.phase.k];
    WithTask(s.(file := w.local, log := s.log + [Granted(w.phase.lease, r.home, s.threads[t].proc, r.until.value, s.clock)]),
             t, w.(phase := Granting(r.home)))
  }

  function DoFinish(s: Sys, t: nat, id: string, lease: string, c: Class, coolUntil: real, classify: bool): Sys
    requires Enabled(s, Finish(t, id, lease, c, coolUntil, classify))
  {
    var p, w := s.threads[t].proc, s.threads[t].task;
    var k := FindId(w.local, id);
    var over := s.(log := s.log + [Finished(lease)]);
    if k == |w.local| then WithTask(over, t, w.(phase := Settled(false)))
    else
      var r := w.local[k];
      match FinishOp(r, k, Some(lease), s.procs[p].pid, c, coolUntil, classify)
      case None => WithTask(over, t, w.(phase := Settled(false)))
      case Some(op) =>
        var dirty := !classify || c.Limited? || OpRow(r, k, op) != r;
        WithTask(Close(over, Retained(over, p, {r.home})), t, Did(w, op, Settled(dirty)))
  }

  function Do(s: Sys, a: Action): Sys
    requires Enabled(s, a)
  {
    match a
    case Advance(to) => s.(clock := to)
    case Spawn(pid, token) => s.(procs := s.procs + [Proc(pid, token, true)])
    case StartThread(p) => s.(threads := s.threads + [Thread(p, 0, Idle)])
    case Die(p) => DoDie(s, p)
    case Enter(t) =>
      s.(owner := Some(t), threads := s.threads[t := s.threads[t].(depth := s.threads[t].depth + 1)])
    case Exit(t) =>
      s.(owner := if s.threads[t].depth == 1 then None else s.owner,
         threads := s.threads[t := s.threads[t].(depth := s.threads[t].depth - 1)])
    case Load(t) => WithTask(s, t, Working(s.file, [Cool(s.clock)], ApplyOp(s.file, Cool(s.clock)), Loaded))
    case ReclaimDead(t, e) =>
      var w := s.threads[t].task;
      var op := Reclaim(e, s.procs[s.threads[t].proc].pid);
      WithTask(s, t, Did(w, op, Searching({}, ApplyOp(w.local, op) != w.local)))
    case Select(t, e) => DoSelect(s, t, e)
    case TryHome(t, lease) => DoTryHome(s, t, lease)
    case Mark(t, sec, token) =>
      var p, w := s.threads[t].proc, s.threads[t].task;
      WithTask(s, t, Did(w, Reserve(w.phase.k, s.clock, sec, s.procs[p].pid, w.phase.lease, token),
                         Marked(w.phase.k, w.phase.lease)))
    case SaveGrant(t) => DoSaveGrant(s, t)
    case Keep(t) => WithTask(s.(kept := s.kept + {s.threads[t].task.phase.home}), t, Idle)
    case Finish(t, id, lease, c, coolUntil, classify) => DoFinish(s, t, id, lease, c, coolUntil, classify)
    case Save(t) => WithTask(s.(file := s.threads[t].task.local), t, Idle)
    case Leave(t) => WithTask(s, t, Idle)
    case Peek(t) => WithTask(s, t, Peeked(s.file))
    case PeekSweep(t, e) =>
      WithTask(Close(s, Retained(s, s.threads[t].proc, StaleHomes(s.threads[t].task.rows, e))), t, Idle)
  }

  /** A pool file, and nothing running yet. */
  predicate Initial(s: Sys) {
    && DistinctHomes(s.file) && s.owner.None? && s.threads == [] && s.procs == []
    && s.homes == map[] && s.kept == {} && s.log == []
  }

  ghost predicate Possible(s: Sys, run: seq<Action>)
    decreases |run|
  {
    run == [] || (Enabled(s, run[0]) && Possible(Do(s, run[0]), run[1..]))
  }

  function Outcome(s: Sys, run: seq<Action>): Sys
    requires Possible(s, run)
    decreases |run|
  {
    if run == [] then s else Outcome(Do(s, run[0]), run[1..])
  }

  // ---------------------------------------------------------------------
  // What every run keeps
  // ---------------------------------------------------------------------

  predicate Released(log: seq<Event>, lease: string) {
    exists i :: 0 <= i < |log| && log[i].LetGo? && lease in log[i].leases
  }

  /** The run of this grant has ended, or the lease has run out. */
  predicate Over(s: Sys, g: Event)
    requires g.Granted?
  {
    Finished(g.lease) in s.log || Died(g.proc) in s.log || s.clock >= g.until as real
  }

  /** A HOME is granted again only after its lock was let go by the first grant, and after that grant's end. */
  ghost predicate Exclusive(log: seq<Event>) {
    forall i, j :: 0 <= i < j < |log| && log[i].Granted? && log[j].Granted? && log[i].home == log[j].home ==>
      Yielded(log[..j], log[i], log[j].at)
  }

  predicate Yielded(past: seq<Event>, g: Event, at: real)
    requires g.Granted?
  {
    && Released(past, g.lease)
    && (Finished(g.lease) in past || Died(g.proc) in past || at >= g.until as real)
  }

  /** The switch lock is owned exactly by the thread that is inside it, however often it entered. */
  ghost predicate Locks(s: Sys) {
    && (forall t :: 0 <= t < |s.threads| ==> LockOk(s, t))
    && (s.owner.Some? ==> s.owner.value < |s.threads|)
  }

  predicate LockOk(s: Sys, t: nat)
    requires t < |s.threads|
  {
    var th := s.threads[t];
    && th.proc < |s.procs|
    && (th.depth > 0 <==> s.owner == Some(t))
    && (th.task.Working? ==> th.depth > 0)
    && (th.depth > 0 || !th.task.Idle? ==> s.procs[th.proc].alive)
  }

  ghost predicate Lives(s: Sys) {
    && (forall p :: 0 <= p < |s.procs| ==> s.procs[p].pid > 0 && (!s.procs[p].alive <==> Died(p) in s.log))
    && (forall i :: 0 <= i < |s.log| && s.log[i].Died? ==> s.log[i].proc < |s.procs|)
    && (forall p, q :: 0 <= p < q < |s.procs| && s.procs[p].alive && s.procs[q].alive ==> s.procs[p].pid != s.procs[q].pid)
  }

  ghost predicate Holds(s: Sys) {
    && s.kept <= s.homes.Keys
    && forall h :: h in s.homes ==> s.homes[h].proc < |s.procs| && s.procs[s.homes[h].proc].alive
  }

  ghost predicate Grants(s: Sys) {
    && (forall i :: 0 <= i < |s.log| && s.log[i].Granted? ==> GrantOk(s, s.log[i]))
    && (forall i, j :: 0 <= i < j < |s.log| && s.log[i].Granted? && s.log[j].Granted? ==> s.log[i].lease != s.log[j].lease)
  }

  predicate GrantOk(s: Sys, g: Event)
    requires g.Granted?
  {
    && g.proc < |s.procs|
    && (Released(s.log, g.lease) || (g.home in s.homes && s.homes[g.home] == Hold(g.proc, g.lease)))
  }

  ghost predicate Current(procs: seq<Proc>, rows: seq<Row>, g: Event)
    requires g.Granted?
  {
    g.proc < |procs| && exists k :: 0 <= k < |rows| && rows[k].home == g.home && RowOf(procs[g.proc], rows[k], g)
  }

  predicate RowOf(p: Proc, r: Row, g: Event)
    requires g.Granted?
  {
    Leased(r, g.lease, g.until, p.pid, p.token)
  }

  /** Every grant that is not over is still leased in these rows. */
  ghost predicate Protects(s: Sys, rows: seq<Row>) {
    forall i :: 0 <= i < |s.log| && s.log[i].Granted? && !Over(s, s.log[i]) ==> Current(s.procs, rows, s.log[i])
  }

  /** The HOME lock of row k was taken by process p for this lease, which nobody was granted yet. */
  predicate Pending(s: Sys, p: nat, r: Row, lease: string) {
    r.home in s.homes && s.homes[r.home] == Hold(p, lease) && r.home !in s.kept && !WasGranted(s.log, lease)
  }

  ghost predicate PhaseOk(s: Sys, p: nat, local: seq<Row>, phase: Phase)
    requires p < |s.procs|
  {
    match phase
    case Probing(k, _, _) => k < |local| && local[k].state == Available
    case HomeLocked(k, lease) => k < |local| && local[k].state == Available && Pending(s, p, local[k], lease)
    case Marked(k, lease) =>
      && k < |local| && Pending(s, p, local[k], lease) && local[k].until.Some?
      && Leased(local[k], lease, local[k].until.value, s.procs[p].pid, s.procs[p].token)
    case _ => true
  }

  predicate Housekeeping(op: Op) {
    op.Cool? || op.Sweep? || op.Reclaim?
  }

  /** Everything a task did before its last operation is housekeeping; only a grant ends with a reservation. */
  predicate OpsOk(ops: seq<Op>, phase: Phase) {
    && ops != []
    && (forall i :: 0 <= i < |ops| - 1 ==> Housekeeping(ops[i]))
    && match phase
       case Marked(k, lease) => ops[|ops| - 1].Reserve? && ops[|ops| - 1].k == k && ops[|ops| - 1].lease == lease
       case Settled(_) => !ops[|ops| - 1].Reserve?
       case _ => Housekeeping(ops[|ops| - 1])
  }

  ghost predicate TaskOk(s: Sys, p: nat, w: Task)
    requires w.Working?
  {
    p < |s.procs| && if w.phase.Granting? then
      w.phase.home in s.homes && s.homes[w.phase.home].proc == p && w.phase.home !in s.kept
    else OpsOk(w.ops, w.phase) && w.base == s.file && w.local == Replay(w.base, w.ops) && Protects(s, w.local) && PhaseOk(s, p, w.local, w.phase)
  }

  ghost predicate Tasks(s: Sys) {
    forall t :: 0 <= t < |s.threads| && s.threads[t].task.Working? ==> TaskOk(s, s.threads[t].proc, s.threads[t].task)
  }

  ghost predicate Inv(s: Sys) {
    && Locks(s) && Lives(s) && Holds(s) && Grants(s) && DistinctHomes(s.file) && Protects(s, s.file) && Tasks(s)
    && Exclusive(s.log)
  }

  // ---------------------------------------------------------------------
  // What the passing of time and the log growing keep
  // ---------------------------------------------------------------------

  /** s2 comes after s, and nothing was granted in between. */
  ghost predicate Later(s: Sys, s2: Sys) {
    && s.log <= s2.log && (forall i :: |s.log| <= i < |s2.log| ==> !s2.log[i].Granted?)
    && s.clock <= s2.clock
    && SameProcs(s.procs, s2.procs)
  }

  ghost predicate SameProcs(procs: seq<Proc>, procs2: seq<Proc>) {
    && |procs| <= |procs2|
    && forall p :: 0 <= p < |procs| ==>
         procs2[p].pid == procs[p].pid && procs2[p].token == procs[p].token && (procs2[p].alive ==> procs[p].alive)
  }

  /** A HOME lock is still held, or was let go. */
  ghost predicate HeldOrReleased(s: Sys, s2: Sys) {
    forall h :: h in s.homes ==>
      (h in s2.homes && s2.homes[h] == s.homes[h]) || Released(s2.log, s.homes[h].lease)
  }

  /** HOME locks that a process has taken but not yet put into its table of handles stay as they are. */
  ghost predicate UnkeptStay(s: Sys, s2: Sys) {
    forall h :: h in s.homes && h !in s.kept && s.homes[h].proc < |s2.procs| && s2.procs[s.homes[h].proc].alive ==>
      h in s2.homes && s2.homes[h] == s.homes[h] && h !in s2.kept
  }

  lemma CurrentLater(s: Sys, s2: Sys, rows: seq<Row>, g: Event)
    requires g.Granted? && Later(s, s2) && Current(s.procs, rows, g)
    ensures Current(s2.procs, rows, g)
  {
    hide Leased;
    var k :| 0 <= k < |rows| && rows[k].home == g.home && RowOf(s.procs[g.proc], rows[k], g);
    assert RowOf(s2.procs[g.proc], rows[k], g);
  }

  lemma ProtectsLater(s: Sys, s2: Sys, rows: seq<Row>)
    requires Protects(s, rows) && Later(s, s2)
    ensures Protects(s2, rows)
  {
    hide Current;
    forall i | 0 <= i < |s2.log| && s2.log[i].Granted? && !Over(s2, s2.log[i])
      ensures Current(s2.procs, rows, s2.log[i])
    {
      assert s2.log[i] == s.log[i] && !Over(s, s.log[i]);
      CurrentLater(s, s2, rows, s.log[i]);
    }
  }

  lemma ReleasedLater(log: seq<Event>, log2: seq<Event>, lease: string)
    requires log <= log2 && Released(log, lease)
    ensures Released(log2, lease)
  {
    var i :| 0 <= i < |log| && log[i].LetGo? && lease in log[i].leases;
    assert log2[i] == log[i];
  }

  lemma GrantsLater(s: Sys, s2: Sys)
    requires Grants(s) && Later(s, s2) && HeldOrReleased(s, s2)
    ensures Grants(s2)
  {
    hide Released;
    forall i | 0 <= i < |s2.log| && s2.log[i].Granted?
      ensures GrantOk(s2, s2.log[i])
    {
      assert s2.log[i] == s.log[i] && GrantOk(s, s.log[i]);
      if Released(s.log, s.log[i].lease) {
        ReleasedLater(s.log, s2.log, s.log[i].lease);
      }
    }
    forall i, j | 0 <= i < j < |s2.log| && s2.log[i].Granted? && s2.log[j].Granted?
      ensures s2.log[i].lease != s2.log[j].lease
    {
      assert s2.log[i] == s.log[i] && s2.log[j] == s.log[j];
    }
  }

  lemma ExclusiveLater(s: Sys, s2: Sys)
    requires Exclusive(s.log) && Later(s, s2)
    ensures Exclusive(s2.log)
  {
    hide Yielded;
    forall i, j | 0 <= i < j < |s2.log| && s2.log[i].Granted? && s2.log[j].Granted? && s2.log[i].home == s2.log[j].home
      ensures Yielded(s2.log[..j], s2.log[i], s2.log[j].at)
    {
      assert s2.log[i] == s.log[i] && s2.log[j] == s.log[j] && s2.log[..j] == s.log[..j];
    }
  }

  lemma NotGrantedLater(s: Sys, s2: Sys, lease: string)
    requires Later(s, s2) && !WasGranted(s.log, lease)
    ensures !WasGranted(s2.log, lease)
  {
    assert forall i :: 0 <= i < |s2.log| && s2.log[i].Granted? ==> s2.log[i] == s.log[i];
  }

  lemma TaskLater(s: Sys, s2: Sys, p: nat, w: Task)
    requires w.Working? && p < |s.procs| && TaskOk(s, p, w)
    requires Later(s, s2) && UnkeptStay(s, s2) && s2.file == s.file && s2.procs[p].alive
    ensures TaskOk(s2, p, w)
  {
    hide Protects;
    hide WasGranted;
    if !w.phase.Granting? {
      ProtectsLater(s, s2, w.local);
      if w.phase.HomeLocked? || w.phase.Marked? {
        NotGrantedLater(s, s2, w.phase.lease);
      }
    }
  }

  /** The frame of every step that grants nothing and saves nothing. */
  lemma InvLater(s: Sys, s2: Sys)
    requires Inv(s) && Later(s, s2) && HeldOrReleased(s, s2) && UnkeptStay(s, s2) && s2.file == s.file
    requires Locks(s2) && Lives(s2) && Holds(s2)
    requires forall t :: 0 <= t < |s2.threads| && s2.threads[t].task.Working? ==>
               TaskOk(s2, s2.threads[t].proc, s2.threads[t].task)
               || (t < |s.threads| && s.threads[t].proc == s2.threads[t].proc && s.threads[t].task == s2.threads[t].task)
    ensures Inv(s2)
  {
    hide TaskOk;
    hide Protects;
    hide Later;
    hide Exclusive;
    hide Grants;
    hide Lives;
    hide Holds;
    hide UnkeptStay;
    hide HeldOrReleased;
    ProtectsLater(s, s2, s.file);
    GrantsLater(s, s2);
    ExclusiveLater(s, s2);
    forall t | 0 <= t < |s2.threads| && s2.threads[t].task.Working?
      ensures TaskOk(s2, s2.threads[t].proc, s2.threads[t].task)
    {
      assert LockOk(s2, t);
      if !TaskOk(s2, s2.threads[t].proc, s2.threads[t].task) {
        assert LockOk(s, t);
        TaskLater(s, s2, s.threads[t].proc, s.threads[t].task);
      }
    }
  }

  // ---------------------------------------------------------------------
  // Steps that touch neither the pool file nor a memory copy
  // ---------------------------------------------------------------------

  lemma KeepsAdvance(s: Sys, to: real)
    requires Inv(s) && to >= s.clock
    ensures Inv(Do(s, Advance(to)))
  {
    hide TaskOk;
    hide Protects;
    hide Exclusive;
    hide Grants;
    hide Locks;
    hide Lives;
    hide Holds;
    var s2 := Do(s, Advance(to));
    LocksSame(s, s2);
    LivesSame(s, s2);
    InvLater(s, s2);
  }

  lemma KeepsSpawn(s: Sys, pid: int, token: string)
    requires Inv(s) && Enabled(s, Spawn(pid, token))
    ensures Inv(Do(s, Spawn(pid, token)))
  {
    hide TaskOk;
    hide Protects;
    hide Exclusive;
    hide Grants;
    var s2 := Do(s, Spawn(pid, token));
    assert forall t :: 0 <= t < |s.threads| ==> LockOk(s, t) ==> LockOk(s2, t);
    InvLater(s, s2);
  }

  lemma KeepsStartThread(s: Sys, p: nat)
    requires Inv(s) && Enabled(s, StartThread(p))
    ensures Inv(Do(s, StartThread(p)))
  {
    hide TaskOk;
    hide Protects;
    hide Exclusive;
    hide Grants;
    hide Lives;
    hide Holds;
    var s2 := Do(s, StartThread(p));
    LivesSame(s, s2);
    assert forall t :: 0 <= t < |s.threads| ==> LockOk(s, t) ==> LockOk(s2, t);
    InvLater(s, s2);
  }

  /** Threads that are not working may enter, leave, look, without the others noticing. */
  lemma KeepsThread(s: Sys, s2: Sys, t: nat)
    requires Inv(s) && t < |s.threads| && s2 == s.(threads := s2.threads, owner := s2.owner) && |s2.threads| == |s.threads|
    requires forall u :: 0 <= u < |s.threads| && u != t ==> s2.threads[u] == s.threads[u]
    requires s2.threads[t].proc == s.threads[t].proc && !s2.threads[t].task.Working?
    requires Locks(s2)
    ensures Inv(s2)
  {
    hide TaskOk;
    hide Protects;
    hide Exclusive;
    hide Grants;
    hide Locks;
    hide Lives;
    hide Holds;
    LivesSame(s, s2);
    InvLater(s, s2);
  }

  lemma LivesSame(s: Sys, s2: Sys)
    requires Lives(s) && Holds(s) && s2.procs == s.procs && s2.log == s.log && s2.homes == s.homes && s2.kept == s.kept
    ensures Lives(s2) && Holds(s2)
  {
  }

  lemma KeepsEnter(s: Sys, t: nat)
    requires Inv(s) && Enabled(s, Enter(t))
    ensures Inv(Do(s, Enter(t)))
  {
    hide TaskOk;
    hide Protects;
    hide Exclusive;
    hide Grants;
    hide Lives;
    hide Holds;
    var s2 := Do(s, Enter(t));
    assert LockOk(s, t);
    assert forall u :: 0 <= u < |s.threads| && u != t ==> LockOk(s, u) ==> LockOk(s2, u);
    KeepsThread(s, s2, t);
  }

  lemma KeepsExit(s: Sys, t: nat)
    requires Inv(s) && Enabled(s, Exit(t))
    ensures Inv(Do(s, Exit(t)))
  {
    hide TaskOk;
    hide Protects;
    hide Exclusive;
    hide Grants;
    hide Lives;
    hide Holds;
    var s2 := Do(s, Exit(t));
    assert LockOk(s, t);
    assert forall u :: 0 <= u < |s.threads| && u != t ==> LockOk(s, u) ==> LockOk(s2, u);
    KeepsThread(s, s2, t);
  }

  /** A change of t's task alone leaves the switch lock as it is. */
  lemma LocksTask(s: Sys, s2: Sys, t: nat, task: Task)
    requires Locks(s) && t < |s.threads| && s2.procs == s.procs && s2.owner == s.owner
    requires s2.threads == s.threads[t := s.threads[t].(task := task)]
    requires s.threads[t].depth > 0 || (!task.Working? && Runs(s, t))
    ensures Locks(s2)
  {
    assert LockOk(s, t);
    assert LockOk(s2, t);
    assert forall u :: 0 <= u < |s.threads| && u != t ==> LockOk(s, u) ==> LockOk(s2, u);
  }

  lemma KeepsPeek(s: Sys, t: nat)
    requires Inv(s) && Enabled(s, Peek(t))
    ensures Inv(Do(s, Peek(t)))
  {
    hide TaskOk;
    hide Protects;
    hide Exclusive;
    hide Grants;
    hide Locks;
    hide Lives;
    hide Holds;
    LocksTask(s, Do(s, Peek(t)), t, Peeked(s.file));
    KeepsThread(s, Do(s, Peek(t)), t);
  }

  lemma KeepsLeave(s: Sys, t: nat)
    requires Inv(s) && Enabled(s, Leave(t))
    ensures Inv(Do(s, Leave(t)))
  {
    hide TaskOk;
    hide Protects;
    hide Exclusive;
    hide Grants;
    hide Locks;
    hide Lives;
    hide Holds;
    LocksTask(s, Do(s, Leave(t)), t, Idle);
    KeepsThread(s, Do(s, Leave(t)), t);
  }

  // ---------------------------------------------------------------------
  // Closing HOME locks
  // ---------------------------------------------------------------------

  /** After a Close every lock is still held, or its lease is in the log as let go. */
  lemma CloseReleases(s: Sys, hs: set<string>)
    ensures HeldOrReleased(s, Close(s, hs))
  {
    var c := Close(s, hs);
    forall h | h in s.homes && h in hs
      ensures Released(c.log, s.homes[h].lease)
    {
      assert c.log[|s.log|] == LetGo(LeasesOf(s.homes, hs));
    }
  }

  lemma CloseIsLater(s: Sys, hs: set<string>)
    requires Lives(s) && Holds(s)
    ensures Later(s, Close(s, hs)) && Lives(Close(s, hs)) && Holds(Close(s, hs))
  {
    var c := Close(s, hs);
    assert forall p: nat :: Died(p) in c.log <==> Died(p) in s.log;
  }

  /** A process closes only locks from its own table. */
  lemma CloseRetained(s: Sys, p: nat, hs: set<string>)
    ensures UnkeptStay(s, Close(s, Retained(s, p, hs)))
  {
  }

  lemma KeepsPeekSweep(s: Sys, t: nat, e: Env)
    requires Inv(s) && Enabled(s, PeekSweep(t, e))
    ensures Inv(Do(s, PeekSweep(t, e)))
  {
    hide TaskOk;
    hide Protects;
    hide Exclusive;
    hide Grants;
    hide Lives;
    hide Holds;
    hide Locks;
    hide UnkeptStay;
    hide HeldOrReleased;
    hide Retained;
    hide StaleHomes;
    hide Truthful;
    hide Close;
    var hs := StaleHomes(s.threads[t].task.rows, e);
    var p := s.threads[t].proc;
    var c := Close(s, Retained(s, p, hs));
    CloseParts(s, Retained(s, p, hs));
    CloseReleases(s, Retained(s, p, hs));
    CloseIsLater(s, Retained(s, p, hs));
    CloseRetained(s, p, hs);
    LocksSame(s, c);
    InvLater(s, c);
    LocksTask(c, WithTask(c, t, Idle), t, Idle);
    KeepsThread(c, WithTask(c, t, Idle), t);
  }

  lemma CloseParts(s: Sys, hs: set<string>)
    ensures var c := Close(s, hs);
            && c.threads == s.threads && c.procs == s.procs && c.owner == s.owner && c.file == s.file && c.clock == s.clock
            && c.homes == s.homes - hs && c.kept == s.kept - hs && s.log <= c.log
            && forall i :: |s.log| <= i < |c.log| ==> c.log[i].LetGo?
  {
  }

  lemma LocksSame(s: Sys, s2: Sys)
    requires Locks(s) && s2.threads == s.threads && s2.procs == s.procs && s2.owner == s.owner
    ensures Locks(s2)
  {
    assert forall t :: 0 <= t < |s.threads| ==> LockOk(s, t) ==> LockOk(s2, t);
  }

  // ---------------------------------------------------------------------
  // Death
  // ---------------------------------------------------------------------

  lemma DeathIsLater(s: Sys, p: nat)
    requires Inv(s) && Enabled(s, Die(p))
    ensures var s2 := Do(s, Die(p)); Later(s, s2) && Lives(s2) && Holds(s2)
  {
    hide TaskOk;
    hide Protects;
    hide Exclusive;
    hide Grants;
    hide Locks;
    var s2 := Do(s, Die(p));
    assert s2.log == s.log + [LetGo(LeasesOf(s.homes, HomesOf(s, p))), Died(p)];
    assert forall q: nat :: Died(q) in s2.log <==> Died(q) in s.log || q == p;
  }

  lemma DeathReleases(s: Sys, p: nat)
    requires Inv(s) && Enabled(s, Die(p))
    ensures var s2 := Do(s, Die(p)); HeldOrReleased(s, s2) && UnkeptStay(s, s2)
  {
    hide TaskOk;
    hide Protects;
    hide Exclusive;
    hide Grants;
    hide Locks;
    var s2 := Do(s, Die(p));
    var c := Close(s, HomesOf(s, p));
    CloseReleases(s, HomesOf(s, p));
    forall h | h in s.homes && Released(c.log, s.homes[h].lease)
      ensures Released(s2.log, s.homes[h].lease)
    {
      ReleasedLater(c.log, s2.log, s.homes[h].lease);
    }
  }

  lemma DeathUnlocks(s: Sys, p: nat)
    requires Inv(s) && Enabled(s, Die(p))
    ensures Locks(Do(s, Die(p)))
  {
    hide TaskOk;
    hide Protects;
    hide Exclusive;
    hide Grants;
    var s2 := Do(s, Die(p));
    forall t | 0 <= t < |s.threads|
      ensures LockOk(s2, t)
    {
      assert LockOk(s, t);
    }
  }

  lemma KeepsDie(s: Sys, p: nat)
    requires Inv(s) && Enabled(s, Die(p))
    ensures Inv(Do(s, Die(p)))
  {
    hide TaskOk;
    hide Protects;
    hide Exclusive;
    hide Grants;
    hide Locks;
    hide Lives;
    hide Holds;
    hide HeldOrReleased;
    hide UnkeptStay;
    hide Later;
    DeathIsLater(s, p);
    DeathReleases(s, p);
    DeathUnlocks(s, p);
    InvLater(s, Do(s, Die(p)));
  }

  // ---------------------------------------------------------------------
  // Working under the switch lock
  // ---------------------------------------------------------------------

  /** Nobody else has a copy of the pool in memory that it could save. */
  lemma OnlyWorker(s: Sys, t: nat)
    requires Locks(s) && Works(s, t)
    ensures s.owner == Some(t)
    ensures forall u :: 0 <= u < |s.threads| && u != t ==> !s.threads[u].task.Working?
  {
    assert LockOk(s, t);
    assert forall u :: 0 <= u < |s.threads| && u != t ==> LockOk(s, u) ==> !s.threads[u].task.Working?;
  }

  /** The frame of a working thread's own step that saves nothing: s1 is s with locks closed or taken. */
  lemma KeepsWork(s: Sys, s1: Sys, t: nat, task: Task)
    requires Inv(s) && t < |s.threads| && s.threads[t].depth > 0
    requires s1.threads == s.threads && s1.procs == s.procs && s1.owner == s.owner && s1.file == s.file
    requires Later(s, s1) && HeldOrReleased(s, s1) && UnkeptStay(s, s1) && Lives(s1) && Holds(s1)
    requires task.Working? ==> TaskOk(WithTask(s1, t, task), s.threads[t].proc, task)
    ensures Inv(WithTask(s1, t, task))
  {
    hide TaskOk;
    hide Protects;
    hide Exclusive;
    hide Grants;
    hide Locks;
    hide Lives;
    hide Holds;
    hide Tasks;
    var s2 := WithTask(s1, t, task);
    LocksSame(s, s1);
    LocksTask(s1, s2, t, task);
    LivesSame(s1, s2);
    InvLater(s, s2);
  }

  lemma SameIsLater(s: Sys)
    ensures Later(s, s) && HeldOrReleased(s, s) && UnkeptStay(s, s)
  {
  }

  /** TaskOk looks at the shared state only. */
  lemma TaskOkShared(s: Sys, s2: Sys, p: nat, w: Task)
    requires w.Working? && TaskOk(s, p, w)
    requires s2 == s.(threads := s2.threads)
    ensures TaskOk(s2, p, w)
  {
    hide Current;
    hide Replay;
    hide Leased;
  }

  lemma TaskOf(s: Sys, t: nat)
    requires Inv(s) && Works(s, t)
    ensures TaskOk(s, s.threads[t].proc, s.threads[t].task)
  {
    hide TaskOk;
    hide Locks;
    hide Lives;
    hide Holds;
    hide Grants;
    hide Protects;
    hide Exclusive;
  }

  /** What was loaded protects what the file protects; cooling touches no lease. */
  lemma CoolProtects(s: Sys, rows: seq<Row>, now: real)
    requires Protects(s, rows)
    ensures Protects(s, ApplyOp(rows, Cool(now)))
  {
    RowsProtect(s, rows, Cool(now));
  }

  /** An operation that leaves the row of every grant in force as it is keeps the grants protected. */
  lemma RowsProtect(s: Sys, rows: seq<Row>, op: Op)
    requires Protects(s, rows)
    requires forall i, k :: 0 <= i < |s.log| && s.log[i].Granted? && !Over(s, s.log[i]) && 0 <= k < |rows|
                            && s.log[i].proc < |s.procs| && RowOf(s.procs[s.log[i].proc], rows[k], s.log[i]) ==>
               OpRow(rows[k], k, op) == rows[k]
    ensures Protects(s, ApplyOp(rows, op))
  {
    hide Over;
    hide RowOf;
    hide OpRow;
    forall i | 0 <= i < |s.log| && s.log[i].Granted? && !Over(s, s.log[i])
      ensures Current(s.procs, ApplyOp(rows, op), s.log[i])
    {
      var g := s.log[i];
      assert Current(s.procs, rows, g);
      var k :| 0 <= k < |rows| && rows[k].home == g.home && RowOf(s.procs[g.proc], rows[k], g);
      assert ApplyOp(rows, op)[k] == rows[k];
    }
  }

  lemma KeepsLoad(s: Sys, t: nat)
    requires Inv(s) && Enabled(s, Load(t))
    ensures Inv(Do(s, Load(t)))
  {
    hide Protects;
    hide Exclusive;
    hide Grants;
    hide Locks;
    hide Lives;
    hide Holds;
    hide Tasks;
    hide OpRow;
    hide ApplyOp;
    var op := Cool(s.clock);
    var local := ApplyOp(s.file, op);
    CoolProtects(s, s.file, s.clock);
    assert Replay(s.file, [op]) == local by {
      ReplayMore(s.file, [], op);
      assert [] + [op] == [op];
    }
    SameIsLater(s);
    var w := Working(s.file, [op], local, Loaded);
    assert TaskOk(s, s.threads[t].proc, w);
    TaskOkShared(s, WithTask(s, t, w), s.threads[t].proc, w);
    KeepsWork(s, s, t, w);
  }

  lemma SweepProtects(s: Sys, rows: seq<Row>, e: Env)
    requires Protects(s, rows) && e.now == s.clock
    ensures Protects(s, ApplyOp(rows, Sweep(e)))
  {
    RowsProtect(s, rows, Sweep(e));
  }

  /** A truthful look never shows the holder of a grant in force as gone. */
  lemma ReclaimProtects(s: Sys, rows: seq<Row>, e: Env, me: int)
    requires Protects(s, rows) && Lives(s) && Truthful(s, e)
    ensures Protects(s, ApplyOp(rows, Reclaim(e, me)))
  {
    forall i, k | 0 <= i < |s.log| && s.log[i].Granted? && !Over(s, s.log[i]) && 0 <= k < |rows|
                  && s.log[i].proc < |s.procs| && RowOf(s.procs[s.log[i].proc], rows[k], s.log[i])
      ensures OpRow(rows[k], k, Reclaim(e, me)) == rows[k]
    {
      var g, p := s.log[i], s.procs[s.log[i].proc];
      assert p.alive;
      ReclaimSpares(rows[k], e, me, g.lease, g.until, p.pid, p.token);
    }
    RowsProtect(s, rows, Reclaim(e, me));
  }

  lemma MarkProtects(s: Sys, rows: seq<Row>, op: Op)
    requires Protects(s, rows) && op.Reserve? && op.k < |rows| && rows[op.k].state == Available
    ensures Protects(s, ApplyOp(rows, op))
  {
    RowsProtect(s, rows, op);
  }

  lemma FinishProtects(s: Sys, rows: seq<Row>, op: Op, lease: string, me: int)
    requires Protects(s, rows) && Finished(lease) in s.log && (op.Settle? || op.Release?) && op.k < |rows|
    requires Writable(rows[op.k], Some(lease), me)
    ensures Protects(s, ApplyOp(rows, op))
  {
    RowsProtect(s, rows, op);
  }

  lemma KeepsReclaimDead(s: Sys, t: nat, e: Env)
    requires Inv(s) && Enabled(s, ReclaimDead(t, e))
    ensures Inv(Do(s, ReclaimDead(t, e)))
  {
    hide Protects;
    hide Exclusive;
    hide Grants;
    hide Locks;
    hide Lives;
    hide Holds;
    hide Tasks;
    hide OpRow;
    hide ApplyOp;
    hide Truthful;
    hide Replay;
    var w, p := s.threads[t].task, s.threads[t].proc;
    var op := Reclaim(e, s.procs[p].pid);
    TaskOf(s, t);
    ReclaimProtects(s, w.local, e, s.procs[p].pid);
    ReplayMore(w.base, w.ops, op);
    SameIsLater(s);
    var w2 := Did(w, op, Searching({}, ApplyOp(w.local, op) != w.local));
    assert TaskOk(s, p, w2);
    TaskOkShared(s, WithTask(s, t, w2), p, w2);
    KeepsWork(s, s, t, w2);
  }

  lemma KeepsSelect(s: Sys, t: nat, e: Env)
    requires Inv(s) && Enabled(s, Select(t, e))
    ensures Inv(Do(s, Select(t, e)))
  {
    hide Protects;
    hide Exclusive;
    hide Grants;
    hide Locks;
    hide Lives;
    hide Holds;
    hide Tasks;
    hide OpRow;
    hide ApplyOp;
    hide Replay;
    hide First;
    hide Close;
    hide Retained;
    hide StaleHomes;
    hide Later;
    hide HeldOrReleased;
    hide UnkeptStay;
    var w, p := s.threads[t].task, s.threads[t].proc;
    TaskOf(s, t);
    var cooled := Did(w, Cool(e.now), w.phase);
    var swept := Did(cooled, Sweep(e), w.phase);
    CoolProtects(s, w.local, e.now);
    SweepProtects(s, cooled.local, e);
    ReplayMore(w.base, w.ops, Cool(e.now));
    ReplayMore(w.base, cooled.ops, Sweep(e));
    var hs := Retained(s, p, StaleHomes(cooled.local, e));
    var c := Close(s, hs);
    CloseParts(s, hs);
    CloseReleases(s, hs);
    CloseIsLater(s, hs);
    CloseRetained(s, p, StaleHomes(cooled.local, e));
    ProtectsLater(s, c, swept.local);
    var k := First(swept.local, w.phase.skipped);
    var w2 := swept.(phase := if k < |swept.local| then Probing(k, w.phase.skipped, w.phase.reclaimed)
                              else NoneLeft(w.phase.reclaimed));
    assert TaskOk(c, p, w2);
    TaskOkShared(c, WithTask(c, t, w2), p, w2);
    KeepsWork(s, c, t, w2);
  }

  lemma KeepsTryHome(s: Sys, t: nat, lease: string)
    requires Inv(s) && Enabled(s, TryHome(t, lease))
    ensures Inv(Do(s, TryHome(t, lease)))
  {
    hide Protects;
    hide Exclusive;
    hide Grants;
    hide Locks;
    hide Lives;
    hide Tasks;
    hide Replay;
    hide WasGranted;
    var w, p := s.threads[t].task, s.threads[t].proc;
    TaskOf(s, t);
    SameIsLater(s);
    var r := w.local[w.phase.k];
    if r.home in s.homes {
      var w2 := w.(phase := Searching(w.phase.skipped + {r.id}, w.phase.reclaimed));
      TaskOkShared(s, WithTask(s, t, w2), p, w2);
      KeepsWork(s, s, t, w2);
    } else {
      var s1 := s.(homes := s.homes[r.home := Hold(p, lease)]);
      var w2 := w.(phase := HomeLocked(w.phase.k, lease));
      TakenIsLater(s, s1, r.home, Hold(p, lease));
      ProtectsLater(s, s1, w.local);
      assert TaskOk(s1, p, w2);
      TaskOkShared(s1, WithTask(s1, t, w2), p, w2);
      KeepsWork(s, s1, t, w2);
    }
  }

  lemma TakenIsLater(s: Sys, s1: Sys, home: string, hold: Hold)
    requires Lives(s) && Holds(s) && home !in s.homes && hold.proc < |s.procs| && s.procs[hold.proc].alive
    requires s1 == s.(homes := s.homes[home := hold])
    ensures Later(s, s1) && HeldOrReleased(s, s1) && UnkeptStay(s, s1) && Lives(s1) && Holds(s1)
  {
  }

  lemma KeepsMark(s: Sys, t: nat, sec: real, seen: Option<string>)
    requires Inv(s) && Enabled(s, Mark(t, sec, seen))
    ensures Inv(Do(s, Mark(t, sec, seen)))
  {
    hide Protects;
    hide Exclusive;
    hide Grants;
    hide Locks;
    hide Lives;
    hide Holds;
    hide Tasks;
    hide Replay;
    hide LeaseUntil;
    hide WasGranted;
    var w, p := s.threads[t].task, s.threads[t].proc;
    TaskOf(s, t);
    var op := Reserve(w.phase.k, s.clock, sec, s.procs[p].pid, w.phase.lease, seen);
    MarkProtects(s, w.local, op);
    ReplayMore(w.base, w.ops, op);
    SameIsLater(s);
    var w2 := Did(w, op, Marked(w.phase.k, w.phase.lease));
    assert w2.local[w.phase.k].home == w.local[w.phase.k].home;
    assert TaskOk(s, p, w2);
    TaskOkShared(s, WithTask(s, t, w2), p, w2);
    KeepsWork(s, s, t, w2);
  }

  lemma KeepsKeep(s: Sys, t: nat)
    requires Inv(s) && Enabled(s, Keep(t))
    ensures Inv(Do(s, Keep(t)))
  {
    hide Protects;
    hide Exclusive;
    hide Grants;
    hide Locks;
    hide Lives;
    hide Tasks;
    TaskOf(s, t);
    var s2 := Do(s, Keep(t));
    OnlyWorker(s, t);
    LocksTask(s, s2, t, Idle);
    SameIsLater(s);
    KeepsKept(s, s2);
  }

  /** With no copy of the pool in memory anywhere, the table of handles may grow. */
  lemma KeepsKept(s: Sys, s2: Sys)
    requires Inv(s) && s2 == s.(threads := s2.threads, kept := s2.kept) && Locks(s2) && Holds(s2)
    requires forall t :: 0 <= t < |s2.threads| ==> !s2.threads[t].task.Working?
    ensures Inv(s2)
  {
    hide Exclusive;
    hide TaskOk;
    hide Current;
    hide Locks;
    hide Holds;
    hide Released;
    hide Over;
    assert Grants(s2) by {
      assert forall i :: 0 <= i < |s.log| && s.log[i].Granted? ==> GrantOk(s, s.log[i]) ==> GrantOk(s2, s.log[i]);
    }
    assert Protects(s2, s2.file) by {
      assert forall i :: 0 <= i < |s.log| && s.log[i].Granted? ==> (Over(s, s.log[i]) <==> Over(s2, s.log[i])) by {
        OverShared(s, s2);
      }
    }
  }

  lemma OverShared(s: Sys, s2: Sys)
    requires s2.log == s.log && s2.clock == s.clock
    ensures forall i :: 0 <= i < |s.log| && s.log[i].Granted? ==> (Over(s, s.log[i]) <==> Over(s2, s.log[i]))
  {
  }

  lemma FinishedIsLater(s: Sys, lease: string)
    requires Lives(s) && Holds(s)
    ensures var s1 := s.(log := s.log + [Finished(lease)]);
            && Later(s, s1) && HeldOrReleased(s, s1) && UnkeptStay(s, s1) && Lives(s1) && Holds(s1)
            && Finished(lease) in s1.log
  {
    var s1 := s.(log := s.log + [Finished(lease)]);
    assert s1.log[|s.log|] == Finished(lease);
    assert forall p: nat :: Died(p) in s1.log <==> Died(p) in s.log;
  }

  lemma LaterTwice(s: Sys, s1: Sys, s2: Sys)
    requires Later(s, s1) && s1.homes == s.homes && s1.kept == s.kept && s1.procs == s.procs
    requires Later(s1, s2) && HeldOrReleased(s1, s2) && UnkeptStay(s1, s2)
    ensures Later(s, s2) && HeldOrReleased(s, s2) && UnkeptStay(s, s2)
  {
    hide Released;
  }

  lemma KeepsFinish(s: Sys, t: nat, id: string, lease: string, c: Class, coolUntil: real, classify: bool)
    requires Inv(s) && Enabled(s, Finish(t, id, lease, c, coolUntil, classify))
    ensures Inv(Do(s, Finish(t, id, lease, c, coolUntil, classify)))
  {
    hide Protects;
    hide Exclusive;
    hide Grants;
    hide Locks;
    hide Lives;
    hide Holds;
    hide Tasks;
    hide OpRow;
    hide ApplyOp;
    hide Replay;
    hide Close;
    hide Retained;
    hide Later;
    hide HeldOrReleased;
    hide UnkeptStay;
    hide FindId;
    var w, p := s.threads[t].task, s.threads[t].proc;
    TaskOf(s, t);
    var s1 := s.(log := s.log + [Finished(lease)]);
    FinishedIsLater(s, lease);
    ProtectsLater(s, s1, w.local);
    var k := FindId(w.local, id);
    var me := s.procs[p].pid;
    if k == |w.local| || FinishOp(w.local[k], k, Some(lease), me, c, coolUntil, classify).None? {
      var w2 := w.(phase := Settled(false));
      assert TaskOk(s1, p, w2);
      TaskOkShared(s1, WithTask(s1, t, w2), p, w2);
      KeepsWork(s, s1, t, w2);
    } else {
      var op := FinishOp(w.local[k], k, Some(lease), me, c, coolUntil, classify).value;
      FinishProtects(s1, w.local, op, lease, me);
      ReplayMore(w.base, w.ops, op);
      var hs := Retained(s1, p, {w.local[k].home});
      var s2 := Close(s1, hs);
      CloseParts(s1, hs);
      CloseReleases(s1, hs);
      CloseIsLater(s1, hs);
      CloseRetained(s1, p, {w.local[k].home});
      LaterTwice(s, s1, s2);
      var w2 := Did(w, op, Settled(!classify || c.Limited? || OpRow(w.local[k], k, op) != w.local[k]));
      ProtectsLater(s1, s2, w2.local);
      assert TaskOk(s2, p, w2);
      TaskOkShared(s2, WithTask(s2, t, w2), p, w2);
      KeepsWork(s, s2, t, w2);
    }
  }

  /** A save with nobody else at work. */
  lemma KeepsSave(s: Sys, t: nat)
    requires Inv(s) && Enabled(s, Save(t))
    ensures Inv(Do(s, Save(t)))
  {
    hide Exclusive;
    hide Current;
    hide Locks;
    hide Released;
    hide Over;
    hide Replay;
    hide Lives;
    hide Holds;
    hide DistinctHomes;
    var s2 := Do(s, Save(t));
    var w := s.threads[t].task;
    TaskOf(s, t);
    OnlyWorker(s, t);
    LocksTask(s, s2, t, Idle);
    LivesSame(s, s2);
    OverShared(s, s2);
    ReplayKeepsDistinct(w.base, w.ops);
    assert Grants(s2) by {
      assert forall i :: 0 <= i < |s.log| && s.log[i].Granted? ==> GrantOk(s, s.log[i]) ==> GrantOk(s2, s.log[i]);
    }
    assert Protects(s2, s2.file);
  }

  // ---------------------------------------------------------------------
  // Granting
  // ---------------------------------------------------------------------

  /** A row that is leased for one grant is not leased for another one of the same HOME. */
  lemma OneLeasePerHome(procs: seq<Proc>, rows: seq<Row>, k: nat, lease: string, g: Event)
    requires g.Granted? && DistinctHomes(rows) && k < |rows| && rows[k].home == g.home
    requires rows[k].lease == Some(lease) && lease != g.lease
    ensures !Current(procs, rows, g)
  {
  }

  /** An earlier grant of the HOME that is being granted now is over, and its lock was let go. */
  lemma EarlierYielded(s: Sys, p: nat, w: Task, i: nat)
    requires Inv(s) && w.Working? && w.phase.Marked? && TaskOk(s, p, w) && i < |s.log| && s.log[i].Granted?
    requires s.log[i].home == w.local[w.phase.k].home
    ensures Yielded(s.log, s.log[i], s.clock)
  {
    hide Replay;
    hide Current;
    hide Exclusive;
    hide Locks;
    hide Lives;
    hide Holds;
    hide Released;
    hide Tasks;
    hide DistinctHomes;
    var g := s.log[i];
    assert w.phase.lease != g.lease;
    ReplayKeepsDistinct(w.base, w.ops);
    OneLeasePerHome(s.procs, w.local, w.phase.k, w.phase.lease, g);
    assert GrantOk(s, g);
  }

  lemma GrantIsExclusive(s: Sys, p: nat, w: Task, g: Event)
    requires Inv(s) && w.Working? && w.phase.Marked? && TaskOk(s, p, w)
    requires g.Granted? && g.home == w.local[w.phase.k].home && g.at == s.clock
    ensures Exclusive(s.log + [g])
  {
    hide TaskOk;
    hide Yielded;
    hide Locks;
    hide Lives;
    hide Holds;
    hide Grants;
    hide Protects;
    hide Tasks;
    var log2 := s.log + [g];
    forall i, j | 0 <= i < j < |log2| && log2[i].Granted? && log2[j].Granted? && log2[i].home == log2[j].home
      ensures Yielded(log2[..j], log2[i], log2[j].at)
    {
      assert log2[..j] == s.log[..j];
      if j == |s.log| {
        assert s.log[..j] == s.log;
        EarlierYielded(s, p, w, i);
      }
    }
  }

  lemma GrantLogged(s: Sys, p: nat, w: Task, s2: Sys)
    requires Grants(s) && Lives(s) && Holds(s) && w.Working? && w.phase.Marked? && TaskOk(s, p, w)
    requires s2.homes == s.homes && s2.kept == s.kept && s2.procs == s.procs
    requires s2.log == s.log + [Granted(w.phase.lease, w.local[w.phase.k].home, p, w.local[w.phase.k].until.value, s.clock)]
    ensures Grants(s2) && Lives(s2) && Holds(s2)
  {
    hide Replay;
    hide Released;
    hide Protects;
    hide Leased;
    forall i | 0 <= i < |s2.log| && s2.log[i].Granted?
      ensures GrantOk(s2, s2.log[i])
    {
      if i < |s.log| {
        assert GrantOk(s, s.log[i]);
        if Released(s.log, s.log[i].lease) {
          ReleasedLater(s.log, s2.log, s.log[i].lease);
        }
      }
    }
    assert forall q: nat :: Died(q) in s2.log <==> Died(q) in s.log;
  }

  lemma GrantProtected(s: Sys, p: nat, w: Task, s2: Sys)
    requires w.Working? && w.phase.Marked? && TaskOk(s, p, w)
    requires s2.procs == s.procs && s2.clock == s.clock
    requires s2.log == s.log + [Granted(w.phase.lease, w.local[w.phase.k].home, p, w.local[w.phase.k].until.value, s.clock)]
    ensures Protects(s2, w.local)
  {
    hide Replay;
    hide WasGranted;
    hide Leased;
    forall i | 0 <= i < |s2.log| && s2.log[i].Granted? && !Over(s2, s2.log[i])
      ensures Current(s2.procs, w.local, s2.log[i])
    {
      if i < |s.log| {
        assert s2.log[i] == s.log[i] && !Over(s, s.log[i]);
      } else {
        assert RowOf(s2.procs[p], w.local[w.phase.k], s2.log[i]);
      }
    }
  }

  lemma KeepsSaveGrant(s: Sys, t: nat)
    requires Inv(s) && Enabled(s, SaveGrant(t))
    ensures Inv(Do(s, SaveGrant(t)))
  {
    hide Exclusive;
    hide Locks;
    hide Lives;
    hide Holds;
    hide Protects;
    hide Grants;
    hide Replay;
    hide WasGranted;
    hide DistinctHomes;
    var s2 := Do(s, SaveGrant(t));
    var w, p := s.threads[t].task, s.threads[t].proc;
    var r := w.local[w.phase.k];
    TaskOf(s, t);
    OnlyWorker(s, t);
    LocksTask(s, s2, t, w.(phase := Granting(r.home)));
    ReplayKeepsDistinct(w.base, w.ops);
    GrantLogged(s, p, w, s2);
    GrantProtected(s, p, w, s2);
    GrantIsExclusive(s, p, w, Granted(w.phase.lease, r.home, p, r.until.value, s.clock));
  }

  // ---------------------------------------------------------------------
  // Theorems
  // ---------------------------------------------------------------------

  /** Every step of every thread keeps the invariant. */
  lemma StepKeepsInv(s: Sys, a: Action)
    requires Inv(s) && Enabled(s, a)
    ensures Inv(Do(s, a))
  {
    hide Inv;
    hide Enabled;
    hide Do;
    match a {
      case Advance(to) => AdvanceEnabled(s, to); KeepsAdvance(s, to);
      case Spawn(pid, token) => KeepsSpawn(s, pid, token);
      case StartThread(p) => KeepsStartThread(s, p);
      case Die(p) => KeepsDie(s, p);
      case Enter(t) => KeepsEnter(s, t);
      case Exit(t) => KeepsExit(s, t);
      case Load(t) => KeepsLoad(s, t);
      case ReclaimDead(t, e) => KeepsReclaimDead(s, t, e);
      case Select(t, e) => KeepsSelect(s, t, e);
      case TryHome(t, lease) => KeepsTryHome(s, t, lease);
      case Mark(t, sec, seen) => KeepsMark(s, t, sec, seen);
      case SaveGrant(t) => KeepsSaveGrant(s, t);
      case Keep(t) => KeepsKeep(s, t);
      case Finish(t, id, lease, c, coolUntil, classify) => KeepsFinish(s, t, id, lease, c, coolUntil, classify);
      case Save(t) => KeepsSave(s, t);
      case Leave(t) => KeepsLeave(s, t);
      case Peek(t) => KeepsPeek(s, t);
      case PeekSweep(t, e) => KeepsPeekSweep(s, t, e);
    }
  }

  lemma AdvanceEnabled(s: Sys, to: real)
    requires Enabled(s, Advance(to))
    ensures to >= s.clock
  {
  }

  lemma {:induction false} RunKeepsInv(s: Sys, run: seq<Action>)
    requires Inv(s) && Possible(s, run)
    ensures Inv(Outcome(s, run))
    decreases |run|
  {
    hide Inv;
    hide Enabled;
    hide Do;
    if run != [] {
      StepKeepsInv(s, run[0]);
      RunKeepsInv(Do(s, run[0]), run[1..]);
    }
  }

  lemma InitialInv(s: Sys)
    requires Initial(s)
    ensures Inv(s)
  {
  }

  /**
   Lease exclusion.  In every run, whatever the interleaving, deaths, reused pids and clock: between two
   grants of one HOME the first grant's HOME lock was let go, and its run had finished, its process had
   died, or its lease had run out.
   */
  lemma LeaseExclusion(s: Sys, run: seq<Action>)
    requires Initial(s) && Possible(s, run)
    ensures Exclusive(Outcome(s, run).log)
  {
    hide Possible;
    hide Outcome;
    hide Initial;
    InitialInv(s);
    RunKeepsInv(s, run);
  }

  /** A grant to a live process whose run has not finished and whose lease has not run out is still in the file. */
  lemma LeaseStaysInFile(s: Sys, run: seq<Action>, i: nat)
    requires Initial(s) && Possible(s, run)
    ensures var e := Outcome(s, run);
            i < |e.log| && e.log[i].Granted? && !Over(e, e.log[i]) ==> Current(e.procs, e.file, e.log[i])
  {
    hide Possible;
    hide Outcome;
    hide Initial;
    hide Current;
    InitialInv(s);
    RunKeepsInv(s, run);
  }

  /** The lock is free exactly when no thread is inside it, at any depth, and never held by two threads. */
  lemma LockIsOutermost(s: Sys, run: seq<Action>, t: nat, u: nat)
    requires Initial(s) && Possible(s, run) && t < |Outcome(s, run).threads| && u < |Outcome(s, run).threads|
    ensures var e := Outcome(s, run);
            && (e.threads[t].depth > 0 <==> e.owner == Some(t))
            && (e.threads[t].depth > 0 && e.threads[u].depth > 0 ==> t == u)
  {
    hide Possible;
    hide Outcome;
    hide Initial;
    InitialInv(s);
    RunKeepsInv(s, run);
    var e := Outcome(s, run);
    assert LockOk(e, t) && LockOk(e, u);
  }

  predicate Saves(a: Action) {
    a.SaveGrant? || a.Save?
  }

  /**
   Load, change and save are one atomic change of the file: what is saved is what is in the file at that
   moment, changed only by the operations that the saving thread did itself: housekeeping, and at most one
   reservation or one finished run.
   */
  lemma SaveIsAtomic(s: Sys, run: seq<Action>, a: Action)
    requires Initial(s) && Possible(s, run) && Enabled(Outcome(s, run), a)
    ensures var e := Outcome(s, run);
            && (!Saves(a) ==> Do(e, a).file == e.file)
            && (Saves(a) ==> a.t < |e.threads| && e.threads[a.t].task.Working?
                             && Do(e, a).file == Replay(e.file, e.threads[a.t].task.ops)
                             && OpsOk(e.threads[a.t].task.ops, e.threads[a.t].task.phase))
  {
    hide Possible;
    hide Outcome;
    hide Initial;
    hide Replay;
    InitialInv(s);
    RunKeepsInv(s, run);
    if Saves(a) {
      TaskOf(Outcome(s, run), a.t);
    }
  }
}
