/**
 The engine and its store.

 Four kinds of state behave differently when the process dies:
   - `db` is what SQLite has committed; `work` is the open transaction and is lost;
   - `starts` and `actions` are the journals, written by fsync and rename, and survive;
   - `log` is what the remote has been sent, which cannot be taken back.

 Every effect returns a Status.  Fine means it returned; Raised that it threw, in which case it may
 or may not have taken place; Crashed that the process died before, during or after it.  Answers of
 the remote, of the file system and of the clock are arbitrary.
 */
module Engine {
  import opened Basics
  import opened EngineData

  datatype Db = Db(jobs: map<JobId, Job>, order: seq<JobId>, rows: seq<Row>)

  datatype Status = Fine | Raised | Crashed {
    predicate IsFailure() { !Fine? }

    function PropagateFailure(): Status
      requires IsFailure()
    {
      this
    }
  }

  /** What became of a request: already on file, filed now, or the job was stopped instead. */
  datatype Filing = OnFile | Filed | Halted

  const MAX_MAX_PARALLEL := 3
  const SCAN_ERROR_LIMIT := 3
  const SESSION_STATUS_GRACE := 5

  predicate UniqueIds(rows: seq<Row>) {
    forall i, k :: 0 <= i < k < |rows| ==> rows[i].id != rows[k].id
  }

  /** Request ids are unique, and every uuid in use was drawn before `uuid`. */
  predicate RowsOk(rows: seq<Row>, uuid: nat) {
    && UniqueIds(rows)
    && forall i :: 0 <= i < |rows| && rows[i].id.Uuid? ==> rows[i].id.n < uuid
  }

  lemma FreshIsNew(rows: seq<Row>, uuid: nat)
    requires RowsOk(rows, uuid)
    ensures RowsOk(rows, uuid + 1) && FindRow(rows, Uuid(uuid)).None?
  {
  }

  /** The tables fit together. */
  ghost predicate Tables(d: Db, uuid: nat) {
    && NoRepeats(d.order)
    && (forall j :: j in d.jobs <==> j in d.order)
    && (forall j :: j in d.jobs ==> d.jobs[j].id == j && j < uuid)
    && (forall i :: 0 <= i < |d.rows| ==> d.rows[i].job in d.jobs)
    && RowsOk(d.rows, uuid)
  }

  function InFlightJobs(jobs: map<JobId, Job>): set<JobId> {
    set j | j in jobs && InFlight(jobs[j].state)
  }

  function ActiveJobs(jobs: map<JobId, Job>): set<JobId> {
    set j | j in jobs && !Terminal(jobs[j].state) && jobs[j].state != Queued
  }

  function At<V>(m: map<JobId, V>, j: JobId): Option<V> {
    if j in m then Some(m[j]) else None
  }

  /** confirmed_owned_session_id: this store records the session on this job, and on no other. */
  predicate ConfirmedOwned(job: Job, stored: map<JobId, Job>, backend: nat) {
    && job.session.Some?
    && (forall k :: k in stored && stored[k].session == job.session ==> k == job.id)
    && job.id in stored && stored[job.id].session == job.session
    && stored[job.id].backend == Some(backend) && job.backend == Some(backend)
  }

  /** The whole database, journals and log, job by job. */
  ghost predicate AllJobs(d: Db, starts: map<JobId, StartIntent>, actions: map<JobId, ActionIntent>,
                          log: seq<Entry>)
  {
    forall j :: j in d.jobs ==>
      JobInv(d.jobs[j], d.rows, At(starts, j), At(actions, j), FactsOf(log, j))
  }

  /** One committed database may follow another. */
  ghost predicate DbEvolves(a: Db, b: Db) {
    forall j :: j in a.jobs ==> j in b.jobs && Evolves(a.jobs[j], b.jobs[j])
  }

  /** Between a and b the lead decided an open request for a permission that had been handled before. */
  ghost predicate DoubleDecided(a: Db, b: Db, j: JobId) {
    && j in a.jobs && j in b.jobs
    && exists i :: 0 <= i < |a.rows| && i < |b.rows| && OpenAt(a.rows, i, j) && b.rows[i].resolved
                   && Repeated(a.jobs[j], b.jobs[j], a.rows[i].packet.payload)
  }

  /** The permission asked about was handled before, and is noted as handled once more. */
  predicate Repeated(a: Job, b: Job, payload: Payload) {
    payload.PermissionAsk? && payload.permission.id in a.handled && b.handled == a.handled + [payload.permission.id]
  }

  /** No job notes a permission twice, except by such a decision. */
  ghost predicate HandledExplained(a: Db, b: Db) {
    forall j :: j in b.jobs ==>
      if j in a.jobs then NoRepeats(a.jobs[j].handled) ==> NoRepeats(b.jobs[j].handled) || DoubleDecided(a, b, j)
      else b.jobs[j].handled == []
  }

  ghost predicate Follows(a: Db, b: Db) {
    DbEvolves(a, b) && HandledExplained(a, b)
  }

  /** Whoever changes no `handled` but without repetition has nothing to explain. */
  lemma HandledKept(a: Db, b: Db)
    requires forall j :: j in b.jobs ==>
               if j in a.jobs then NoRepeats(a.jobs[j].handled) ==> NoRepeats(b.jobs[j].handled)
               else b.jobs[j].handled == []
    ensures HandledExplained(a, b)
  {
  }

  const EMPTY := Db(map[], [], [])

  /** In every committed database the jobs in flight are within the limit. */
  ghost predicate Bounded(history: seq<Db>, limit: nat) {
    forall i :: 0 <= i < |history| ==> |InFlightJobs(history[i].jobs)| <= limit
  }

  /** Every committed database follows from the one before it. */
  ghost predicate Chain(history: seq<Db>) {
    forall i :: 0 <= i < |history| - 1 ==> Follows(history[i], history[i + 1])
  }

  /** What a restarted process finds, and what cannot be undone. */
  datatype World = World(db: Db, starts: map<JobId, StartIntent>, actions: map<JobId, ActionIntent>,
                         log: seq<Entry>, uuid: nat, history: seq<Db>, maxParallel: nat)

  /** The state of the system between two operations, however the last one ended. */
  ghost predicate SystemInv(w: World) {
    && Tables(w.db, w.uuid)
    && AllJobs(w.db, w.starts, w.actions, w.log)
    && (forall j :: j in w.starts ==> j in w.db.jobs)
    && (forall j :: j in w.actions ==> j in w.db.jobs)
    && (forall i :: 0 <= i < |w.log| ==> w.log[i].job in w.db.jobs)
    && w.history != [] && w.history[0] == EMPTY && w.history[|w.history| - 1] == w.db
    && Chain(w.history) && Bounded(w.history, w.maxParallel)
  }

  lemma {:induction false} NoEntriesNoFacts(log: seq<Entry>, j: JobId)
    requires forall i :: 0 <= i < |log| ==> log[i].job != j
    ensures FactsOf(log, j) == NO_FACTS
  {
    if log != [] {
      NoEntriesNoFacts(log[..|log| - 1], j);
    }
  }

  /** Saving the job in hand keeps the table right, given that nothing else was touched. */
  lemma AllJobsAfter(d: Db, d': Db, b: Job,
                     starts: map<JobId, StartIntent>, starts': map<JobId, StartIntent>,
                     actions: map<JobId, ActionIntent>, actions': map<JobId, ActionIntent>,
                     log: seq<Entry>, log': seq<Entry>)
    requires AllJobs(d, starts, actions, log)
    requires forall j :: j in d.jobs ==> d.jobs[j].id == j
    requires d'.jobs == d.jobs[b.id := b] && RowsFrame(d.rows, d'.rows, b.id)
    requires JobInv(b, d'.rows, At(starts', b.id), At(actions', b.id), FactsOf(log', b.id))
    requires forall k :: k != b.id ==>
               && FactsOf(log', k) == FactsOf(log, k)
               && At(starts', k) == At(starts, k) && At(actions', k) == At(actions, k)
    ensures AllJobs(d', starts', actions', log')
  {
    hide JobInv;
    hide FactsOf;
    forall j | j in d'.jobs
      ensures JobInv(d'.jobs[j], d'.rows, At(starts', j), At(actions', j), FactsOf(log', j))
    {
      if j != b.id {
        OtherJobUndisturbed(d.jobs[j], d.rows, d'.rows, b.id, At(starts, j), At(actions, j), FactsOf(log, j));
      }
    }
  }

  lemma TablesGrow(d: Db, uuid: nat, uuid': nat)
    requires Tables(d, uuid) && uuid <= uuid'
    ensures Tables(d, uuid') && forall j :: j in d.jobs ==> d.jobs[j].id == j
  {
  }

  lemma TablesAfter(d: Db, d': Db, b: Job, uuid: nat, uuid': nat)
    requires Tables(d, uuid) && uuid <= uuid' && b.id in d.jobs
    requires d'.jobs == d.jobs[b.id := b] && d'.order == d.order
    requires RowsFrame(d.rows, d'.rows, b.id) && RowsOk(d'.rows, uuid')
    ensures Tables(d', uuid')
    ensures forall j :: j in d.jobs ==> d.jobs[j].id == j
  {
  }

  /** A job nobody has heard of yet, as submit files it. */
  lemma SubmittedInv(d: Db, job: Job, starts: map<JobId, StartIntent>, actions: map<JobId, ActionIntent>,
                     log: seq<Entry>)
    requires ValidCharter(job.charter) && job == NewJob(job.id, job.runId, job.charter, job.createdAt)
    requires forall i :: 0 <= i < |d.rows| ==> d.rows[i].job != job.id
    requires forall i :: 0 <= i < |log| ==> log[i].job != job.id
    requires job.id !in starts && job.id !in actions
    ensures JobInv(job, d.rows, At(starts, job.id), At(actions, job.id), FactsOf(log, job.id))
  {
    NoEntriesNoFacts(log, job.id);
    NoRowsNoCount(d.rows, job.id);
  }

  lemma {:induction false} NoRowsNoCount(rows: seq<Row>, j: JobId)
    requires forall i :: 0 <= i < |rows| ==> rows[i].job != j
    ensures RowCount(rows, j) == 0
  {
    if rows != [] {
      NoRowsNoCount(rows[..|rows| - 1], j);
    }
  }

  /** Saving one job changes the number in flight by at most one, and only upwards when it enters flight. */
  lemma InFlightAfter(jobs: map<JobId, Job>, j: JobId, b: Job)
    requires j in jobs
    ensures |InFlightJobs(jobs[j := b])| <= |InFlightJobs(jobs)| + 1
    ensures (InFlight(b.state) ==> InFlight(jobs[j].state)) ==>
              |InFlightJobs(jobs[j := b])| <= |InFlightJobs(jobs)|
  {
    var before, after := InFlightJobs(jobs), InFlightJobs(jobs[j := b]);
    assert after <= before + {j};
    CardinalityLe(after, before + {j});
    if InFlight(b.state) ==> InFlight(jobs[j].state) {
      assert after <= before;
      CardinalityLe(after, before);
    }
  }

  lemma {:induction false} CardinalityLe(a: set<JobId>, b: set<JobId>)
    requires a <= b
    ensures |a| <= |b|
  {
    if a != {} {
      var x :| x in a;
      CardinalityLe(a - {x}, b - {x});
    }
  }

  lemma TurnedInFlight(jobs: map<JobId, Job>, j: JobId, b: Job, mayStart: bool, started: bool, backend: nat)
    requires j in jobs && Turned(jobs[j], b, mayStart, started, backend)
    ensures |InFlightJobs(jobs[j := b])| <= |InFlightJobs(jobs)| + if started then 1 else 0
  {
    hide InFlightJobs;
    InFlightAfter(jobs, j, b);
  }

  lemma InFlightAreActive(jobs: map<JobId, Job>)
    ensures |InFlightJobs(jobs)| <= |ActiveJobs(jobs)|
  {
    CardinalityLe(InFlightJobs(jobs), ActiveJobs(jobs));
  }

  lemma DbEvolvesReflexive(d: Db)
    ensures DbEvolves(d, d)
  {
  }

  /** How far the worker's turn has come, as its transcript shows it. */
  datatype Turn = TooManySteps | Unanswered | Broken | Working | Ended

  /** The step budget counts every assistant message; the turn is judged by the last one after the last user. */
  function TurnOf(ms: seq<Message>, maxSteps: int): Turn {
    var assistants := Assistants(AfterLastUser(ms));
    if |Assistants(ms)| > maxSteps then TooManySteps
    else if assistants == [] then Unanswered
    else if assistants[|assistants| - 1].failed then Broken
    else if assistants[|assistants| - 1].finishedStop then Ended
    else Working
  }

  /** Past its deadline. */
  predicate Overdue(job: Job, now: Time) {
    job.deadline.Some? && now >= job.deadline.value
  }

  /** Longer in flight than its wall budget allows; without a dispatch time the deadline tells when it began. */
  predicate OverWall(job: Job, now: Time) {
    job.deadline.Some?
    && now - (if job.dispatchedAt.Some? then job.dispatchedAt.value else job.deadline.value - job.charter.timeoutSec)
       > job.charter.maxWall
  }

  /** What the clock decides: past the deadline the job times out, a stopping job goes on stopping, and past the
      wall budget a job in flight fails. */
  predicate SupervisedAt(a: Job, b: Job, now: Time) {
    if Overdue(a, now) then b.state == TimedOut || (b.state == Stopping && b.stopTarget == TimedOut)
    else if a.state == Stopping then b.state == a.stopTarget || (b.state == Stopping && b.stopTarget == a.stopTarget)
    else OverWall(a, now) ==> b.state == Failed || b.state == Stopping
  }

  /** The sessions on record, whatever their jobs' states. */
  function OwnedSessions(jobs: map<JobId, Job>): set<SessionId> {
    set j | j in jobs && jobs[j].session.Some? :: jobs[j].session.value
  }

  /** The first pending permission with this id and owner, as next() over a generator finds it. */
  function FirstPermission(ps: seq<Permission>, pid: PermissionId, sid: Option<SessionId>): Option<Permission> {
    if ps == [] then None
    else if ps[0].id == pid && ps[0].owner == sid then Some(ps[0])
    else FirstPermission(ps[1..], pid, sid)
  }

  function OwnedPermissions(ps: seq<Permission>, sid: Option<SessionId>): (r: seq<Permission>)
    ensures forall p :: p in r ==> p in ps && p.owner == sid
  {
    if ps == [] then []
    else (if ps[0].owner == sid then [ps[0]] else []) + OwnedPermissions(ps[1..], sid)
  }

  function OwnedQuestions(qs: seq<Question>, sid: Option<SessionId>): (r: seq<Question>)
    ensures forall q :: q in r ==> q in qs && q.owner == sid
  {
    if qs == [] then []
    else (if qs[0].owner == sid then [qs[0]] else []) + OwnedQuestions(qs[1..], sid)
  }

  /** What a decision does to the job it is about. */
  ghost predicate DecisionTook(a: Job, b: Job, payload: Payload, d: Decision) {
    && d.choice != Unknown
    && b.approved == a.approved + (if payload.PermissionAsk? && d.choice == Once then 1 else 0)
    && b.handled == a.handled + (if payload.PermissionAsk? then [payload.permission.id] else [])
    && (b.state == Passed <==> payload.ReviewAsk? && d.choice == Pass)
    && (d.choice == Approve ==> payload.ActionAsk? && !a.actionDispatched && b.actionDispatched)
    && (d.choice == DenyJob ==> b.state == Failed || b.state == Stopping)
    && (d.choice == Fail ==>
          if a.redos < a.charter.maxRedos
          then b.state == Running && b.redos == a.redos + 1
          else b.state == Failed || b.state == Stopping)
  }

  /** Dispatched to a backend other than the one the controller now talks to. */
  predicate Misplaced(job: Job, backend: nat) {
    (InFlight(job.state) || job.state == Stopping) && job.backend != Some(backend)
  }

  /** Failed locally: the session is given up, and nothing is sent. */
  function GivenUp(job: Job): Job {
    job.(session := None, state := Failed)
  }

  /** What one turn of tick may make of job a. */
  ghost predicate Turned(a: Job, b: Job, mayStart: bool, started: bool, backend: nat) {
    && (started ==> mayStart && a.state == Queued && b.dispatchedAt.Some?)
    && (a.state == Queued && !started ==> b.dispatchedAt.None?)
    && (b.state == Queued ==> !mayStart)
    && (Misplaced(a, backend) ==> b == GivenUp(a))
    && (NoRepeats(a.handled) ==> NoRepeats(b.handled))
    && (InFlight(b.state) ==> started || InFlight(a.state))
  }

  /** The jobs that left the queue for the remote between a and b. */
  ghost function Launched(a: Db, b: Db): set<JobId> {
    set j | j in a.jobs && j in b.jobs && a.jobs[j].state == Queued && b.jobs[j].dispatchedAt.Some?
  }

  lemma LaunchedStep(d: Db, v: Db, w: Db, j: JobId, started: bool)
    requires j in d.jobs && j in v.jobs && j in w.jobs && v.jobs[j] == d.jobs[j]
    requires w.jobs.Keys == v.jobs.Keys && forall k :: k in w.jobs && k != j ==> w.jobs[k] == v.jobs[k]
    requires started ==> d.jobs[j].state == Queued && w.jobs[j].dispatchedAt.Some?
    requires d.jobs[j].state == Queued && !started ==> w.jobs[j].dispatchedAt.None?
    requires d.jobs[j].state == Queued ==> d.jobs[j].dispatchedAt.None?
    ensures |Launched(d, w)| == |Launched(d, v)| + if started then 1 else 0
  {
    var a, b := Launched(d, v), Launched(d, w);
    assert j !in a;
    if started {
      assert b == a + {j};
    } else {
      assert b == a;
    }
  }

  /** The log has grown, but not by anything about job j. */
  ghost predicate SilentAbout(log: seq<Entry>, log2: seq<Entry>, j: JobId) {
    log <= log2 && forall k :: |log| <= k < |log2| ==> log2[k].job != j
  }

  lemma SilentMore(log: seq<Entry>, log1: seq<Entry>, log2: seq<Entry>, j: JobId, other: JobId)
    requires SilentAbout(log, log1, j) && log1 <= log2
    requires forall k :: |log1| <= k < |log2| ==> log2[k].job == other
    requires j != other || log2 == log1
    ensures SilentAbout(log, log2, j)
  {
  }

  /** Nothing was said about the jobs whose turn is to come, nor about those of another backend. */
  ghost predicate SilentSoFar(log: seq<Entry>, log2: seq<Entry>, order: seq<JobId>, i: nat, jobs: map<JobId, Job>,
                              backend: nat)
  {
    forall k :: 0 <= k < |order| && order[k] in jobs && (k >= i || Misplaced(jobs[order[k]], backend)) ==>
      SilentAbout(log, log2, order[k])
  }

  lemma SilentStart(order: seq<JobId>, jobs: map<JobId, Job>, backend: nat)
    ensures forall log :: SilentSoFar(log, log, order, 0, jobs, backend)
  {
  }

  lemma SilentTurn(log: seq<Entry>, log1: seq<Entry>, log2: seq<Entry>, order: seq<JobId>, i: nat, jobs: map<JobId, Job>,
                   backend: nat)
    requires SilentSoFar(log, log1, order, i, jobs, backend) && i < |order| && log1 <= log2
    requires forall k :: |log1| <= k < |log2| ==> log2[k].job == order[i]
    requires order[i] in jobs && (Misplaced(jobs[order[i]], backend) ==> log2 == log1)
    requires forall k :: 0 <= k < |order| && k != i ==> order[k] != order[i]
    ensures SilentSoFar(log, log2, order, i + 1, jobs, backend)
  {
    hide SilentAbout;
    hide Misplaced;
    forall k | 0 <= k < |order| && order[k] in jobs && (k > i || Misplaced(jobs[order[k]], backend))
      ensures SilentAbout(log, log2, order[k])
    {
      SilentMore(log, log1, log2, order[k], order[i]);
    }
  }

  lemma StopEvolves(a: Job, b: Job)
    requires !Terminal(a.state) && (b.state == Stopping || StopTarget(b.state))
    requires b == a.(state := b.state, stopTarget := b.stopTarget, abortSent := b.abortSent)
    ensures Evolves(a, b)
  {
  }

  /** The request at i was decided by d, and a is the database before, b after. */
  ghost predicate DecisionMade(a: Db, b: Db, i: nat, d: Decision) {
    && i < |a.rows| && i < |b.rows|
    && var row := a.rows[i];
    && !row.resolved && d.context == Digest(row.packet) && b.rows[i].resolved
    && row.job in a.jobs && row.job in b.jobs && InFlight(a.jobs[row.job].state)
    && DecisionTook(a.jobs[row.job], b.jobs[row.job], row.packet.payload, d)
  }

  /** `handled` of the job of row i gets a repetition exactly if the row asked about a permission handled before. */
  ghost predicate HandledAfter(a: Db, b: Db, i: nat) {
    && i < |a.rows|
    && var row := a.rows[i];
    && row.job in a.jobs && row.job in b.jobs
    && (NoRepeats(a.jobs[row.job].handled) ==>
          (NoRepeats(b.jobs[row.job].handled) <==>
             !(row.packet.payload.PermissionAsk? && row.packet.payload.permission.id in a.jobs[row.job].handled)))
  }

  lemma DecisionHandled(a: Db, b: Db, i: nat, d: Decision)
    requires DecisionMade(a, b, i, d) && OpenAt(a.rows, i, a.rows[i].job)
    requires b.jobs.Keys == a.jobs.Keys && forall k :: k in a.jobs && k != a.rows[i].job ==> b.jobs[k] == a.jobs[k]
    ensures HandledAfter(a, b, i) && HandledExplained(a, b)
  {
    hide NoRepeats;
    var j := a.rows[i].job;
    var payload := a.rows[i].packet.payload;
    if payload.PermissionAsk? && NoRepeats(a.jobs[j].handled) {
      OneMoreRepeats(a.jobs[j].handled, payload.permission.id);
    }
    assert a.jobs[j].handled + [] == a.jobs[j].handled;
  }

  class Engine {
    var db: Db
    var work: Db
    var starts: map<JobId, StartIntent>
    var actions: map<JobId, ActionIntent>
    var uuid: nat
    var backend: nat
    var cur: Job                 // the job record in hand
    const maxParallel: nat
    ghost var log: seq<Entry>
    ghost var history: seq<Db>   // every database ever committed

    // -------------------------------------------------------------------
    // Predicates
    // -------------------------------------------------------------------

    ghost predicate Inv()
      reads this
    {
      SystemInv(TheWorld())
    }

    ghost function TheWorld(): World
      reads this
    {
      World(db, starts, actions, log, uuid, history, maxParallel)
    }

    ghost function Known(j: JobId): Facts
      reads this`log
    {
      FactsOf(log, j)
    }

    /** What the committed database says about the job in hand is right, should the process die now. */
    ghost predicate Safe()
      reads this
    {
      && cur.id in db.jobs && db.jobs[cur.id].id == cur.id && db.jobs[cur.id].charter == cur.charter
      && JobInv(db.jobs[cur.id], db.rows, At(starts, cur.id), At(actions, cur.id), Known(cur.id))
    }

    /** ... and would still be right with these journals and these facts. */
    ghost predicate SafeWith(start: Option<StartIntent>, action: Option<ActionIntent>, f: Facts)
      reads this
    {
      && cur.id in db.jobs && db.jobs[cur.id].id == cur.id && db.jobs[cur.id].charter == cur.charter
      && JobInv(db.jobs[cur.id], db.rows, start, action, f)
    }

    ghost predicate Core()
      reads this
    {
      && RowsOk(work.rows, uuid)
      && JobCore(cur, work.rows, At(starts, cur.id), At(actions, cur.id), Known(cur.id))
    }

    ghost predicate Good()
      reads this
    {
      Core() && JobState(cur, work.rows, At(starts, cur.id), Known(cur.id))
    }

    /** Only the job in hand was touched, and nothing was committed. */
    twostate predicate Frame()
      reads this
    {
      && db == old(db) && work.jobs == old(work.jobs) && work.order == old(work.order)
      && backend == old(backend) && history == old(history) && old(uuid) <= uuid
      && cur.id == old(cur.id) && cur.charter == old(cur.charter) && cur.runId == old(cur.runId)
      && RowsFrame(old(work.rows), work.rows, cur.id)
      && (forall k :: k != cur.id ==>
            && FactsOf(log, k) == old(FactsOf(log, k))
            && At(starts, k) == old(At(starts, k)) && At(actions, k) == old(At(actions, k)))
      && (forall i :: |old(log)| <= i < |log| ==> log[i].job == cur.id)
      && old(log) <= log
    }

    /** Neither the log nor the history of commits ever loses an entry. */
    twostate predicate Grows()
      reads this
    {
      old(log) <= log && old(history) <= history
    }

    // -------------------------------------------------------------------
    // Effects
    // -------------------------------------------------------------------

    /** A call to the remote.  `done` is logged when it returns, `maybe` when that is not known. */
    method Call(done: Effect, maybe: Effect) returns (s: Status)
      requires Safe()
      requires SafeWith(At(starts, cur.id), At(actions, cur.id), Note(Known(cur.id), done))
      requires SafeWith(At(starts, cur.id), At(actions, cur.id), Note(Known(cur.id), maybe))
      modifies this`log
      ensures Frame() && Safe()
      ensures s == Fine ==> Known(cur.id) == Note(old(Known(cur.id)), done)
      ensures s != Fine ==> Known(cur.id) == old(Known(cur.id)) || Known(cur.id) == Note(old(Known(cur.id)), maybe)
      ensures s == Fine ==> log == old(log) + [Entry(cur.id, done)]
    {
      hide JobInv;
      hide FactsOf;
      LogFrame(done);
      LogFrame(maybe);
      s := *;
      var issued: bool := *;
      if s == Fine {
        log := log + [Entry(cur.id, done)];
      } else if issued {
        log := log + [Entry(cur.id, maybe)];
      }
    }

    /** One more effect of the job in hand changes what the log says about that job only. */
    lemma LogFrame(e: Effect)
      ensures forall k :: FactsOf(log + [Entry(cur.id, e)], k)
                          == if k == cur.id then Note(FactsOf(log, k), e) else FactsOf(log, k)
    {
      forall k
        ensures FactsOf(log + [Entry(cur.id, e)], k)
                == if k == cur.id then Note(FactsOf(log, k), e) else FactsOf(log, k)
      {
        FactsAppend(log, Entry(cur.id, e), k);
      }
    }

    /** A call that dispatches nothing. */
    method CallBenign(done: Effect, maybe: Effect) returns (s: Status)
      requires Safe() && !Counted(done) && !Counted(maybe)
      modifies this`log
      ensures Frame() && Safe()
      ensures GrewBenignly(old(Known(cur.id)), Known(cur.id))
      ensures s == Fine ==> Known(cur.id) == Note(old(Known(cur.id)), done)
      ensures s == Fine ==> log == old(log) + [Entry(cur.id, done)]
    {
      hide JobInv;
      BenignFactsKeepJob(db.jobs[cur.id], db.rows, At(starts, cur.id), At(actions, cur.id), Known(cur.id),
                         Note(Known(cur.id), done));
      BenignFactsKeepJob(db.jobs[cur.id], db.rows, At(starts, cur.id), At(actions, cur.id), Known(cur.id),
                         Note(Known(cur.id), maybe));
      s := Call(done, maybe);
    }

    /** Put an observation on the log. */
    ghost method Observe(e: Effect)
      requires Safe() && !Counted(e)
      modifies this`log
      ensures Frame() && Safe()
      ensures GrewBenignly(old(Known(cur.id)), Known(cur.id))
      ensures Known(cur.id) == Note(old(Known(cur.id)), e)
    {
      hide JobInv;
      hide FactsOf;
      LogFrame(e);
      BenignFactsKeepJob(db.jobs[cur.id], db.rows, At(starts, cur.id), At(actions, cur.id), Known(cur.id),
                         Note(Known(cur.id), e));
      log := log + [Entry(cur.id, e)];
    }

    /** start_journal(job, data): fsync a temporary file, then rename it. */
    method WriteStart(intent: StartIntent) returns (s: Status)
      requires Safe() && SafeWith(Some(intent), At(actions, cur.id), Known(cur.id))
      modifies this`starts
      ensures Frame() && Safe()
      ensures s == Fine ==> At(starts, cur.id) == Some(intent)
      ensures At(starts, cur.id) == Some(intent) || At(starts, cur.id) == old(At(starts, cur.id))
      ensures starts.Keys <= old(starts.Keys) + {cur.id}
    {
      s := *;
      var written: bool := *;
      if s == Fine || written {
        starts := starts[cur.id := intent];
      }
    }

    /** action_journal(job, data). */
    method WriteAction(intent: ActionIntent) returns (s: Status)
      requires Safe() && SafeWith(At(starts, cur.id), Some(intent), Known(cur.id))
      modifies this`actions
      ensures Frame() && Safe()
      ensures s == Fine ==> At(actions, cur.id) == Some(intent)
      ensures At(actions, cur.id) == Some(intent) || At(actions, cur.id) == old(At(actions, cur.id))
      ensures actions.Keys <= old(actions.Keys) + {cur.id}
    {
      s := *;
      var written: bool := *;
      if s == Fine || written {
        actions := actions[cur.id := intent];
      }
    }

    method GetStatus() returns (s: Status, st: Option<Statuses>)
    {
      s, st := *, *;
    }

    method GetPermissions() returns (s: Status, ps: Option<seq<Permission>>)
    {
      s, ps := *, *;
    }

    method GetQuestions() returns (s: Status, qs: Option<seq<Question>>)
    {
      s, qs := *, *;
    }

    method GetMessages() returns (s: Status, ms: Option<seq<Message>>)
    {
      s, ms := *, *;
    }

    method Now() returns (t: Time)
    {
      t := *;
    }

    /** A verdict the model takes as it comes: a file check, a size check, a policy scan. */
    method Verdict() returns (b: bool)
    {
      b := *;
    }

    // -------------------------------------------------------------------
    // Stopping and asking
    // -------------------------------------------------------------------

    /** Engine.stop: abort once, then wait until the remote shows the session idle or gone. */
    method Stop(target: State) returns (s: Status)
      requires StopTarget(target) && Safe() && Core()
      modifies this`log, this`cur, this`work
      ensures Frame() && Safe() && s != Raised
      ensures s == Fine ==> Good() && (cur.state == target || (cur.state == Stopping && cur.stopTarget == target))
      ensures cur == old(cur).(state := cur.state, stopTarget := cur.stopTarget, abortSent := cur.abortSent)
      ensures old(cur).session.None? ==> s == Fine && cur == old(cur).(state := target)
      ensures old(cur).session.None? ==> log == old(log)
      ensures GrewBenignly(old(Known(cur.id)), Known(cur.id))
      ensures s == Fine && cur.state == Stopping ==> cur.session.Some?
      ensures s == Fine && cur.state == target ==> work.rows == ResolveJob(old(work.rows), cur.id)
      ensures s == Fine && cur.state == Stopping ==> work.rows == old(work.rows)
    {
      hide JobInv;
      hide JobCore;
      hide JobState;
      hide FactsOf;
      s := StopBody(target);
      if s == Fine {
        if cur.state == Stopping {
          StoppingInv(cur, work.rows, At(starts, cur.id), At(actions, cur.id), Known(cur.id));
        } else {
          StoppedInv(cur, work.rows, At(starts, cur.id), At(actions, cur.id), Known(cur.id));
          work := work.(rows := ResolveJob(work.rows, cur.id));
        }
      }
    }

    /** The part of stop before the inbox is emptied. */
    method StopBody(target: State) returns (s: Status)
      requires StopTarget(target) && Safe() && Core()
      modifies this`log, this`cur
      ensures Frame() && Safe() && s != Raised
      ensures s == Fine ==> Core()
      ensures s == Fine ==>
                || (cur.state == target && StopConfirmed(cur, Known(cur.id)))
                || (cur.state == Stopping && cur.stopTarget == target && cur.session.Some?)
      ensures cur == old(cur).(state := cur.state, stopTarget := cur.stopTarget, abortSent := cur.abortSent)
      ensures old(cur).session.None? ==> s == Fine && cur == old(cur).(state := target)
      ensures old(cur).session.None? ==> log == old(log)
      ensures GrewBenignly(old(Known(cur.id)), Known(cur.id))
    {
      hide JobInv;
      hide JobCore;
      hide JobState;
      hide FactsOf;
      hide RowsOk;
      var next := cur.(state := target);
      if cur.session.Some? {
        next := cur.(state := Stopping, stopTarget := target);
        CoreKept(cur, next, work.rows, At(starts, cur.id), At(actions, cur.id), Known(cur.id), Known(cur.id));
        cur := next;
        s := SendAbort();
        if s == Crashed { return; }
        if s == Raised { return Fine; }
        var quiet;
        s, quiet := SeenQuiet();
        if s == Crashed || !quiet { return; }
        next := cur.(state := target);
      }
      CoreKept(cur, next, work.rows, At(starts, cur.id), At(actions, cur.id), Known(cur.id), Known(cur.id));
      cur := next;
      s := Fine;
    }

    /** POST /session/{id}/abort, unless it has been accepted before. */
    method SendAbort() returns (s: Status)
      requires Safe() && Core() && cur.session.Some?
      modifies this`log, this`cur
      ensures Frame() && Safe()
      ensures s != Crashed ==> Core()
      ensures cur == old(cur).(abortSent := cur.abortSent)
      ensures s == Fine ==> cur.abortSent && cur.session.value in Known(cur.id).aborted
      ensures GrewBenignly(old(Known(cur.id)), Known(cur.id))
      ensures old(cur).abortSent ==> s == Fine && log == old(log)
      ensures !old(cur).abortSent && s == Fine ==> log == old(log) + [Entry(cur.id, Abort(cur.session.value, true))]
    {
      hide JobInv;
      hide JobCore;
      hide JobState;
      hide FactsOf;
      hide RowsOk;
      ghost var job, rows, start, action := cur, work.rows, At(starts, cur.id), At(actions, cur.id);
      ghost var f := Known(cur.id);
      AbortOnRecord(job, rows, start, action, f);
      s := Fine;
      if !cur.abortSent {
        var sid := cur.session.value;
        s := CallBenign(Abort(sid, true), Abort(sid, false));
        if s == Fine {
          cur := cur.(abortSent := true);
        }
        CoreKept(job, cur, rows, start, action, f, Known(cur.id));
      }
    }

    /** GET /session/status after the abort: idle, or no longer listed, is the confirmation. */
    method SeenQuiet() returns (s: Status, quiet: bool)
      requires Safe() && Core() && cur.session.Some? && cur.session.value in Known(cur.id).aborted
      modifies this`log
      ensures Frame() && Safe() && Core() && s != Raised
      ensures quiet ==> cur.session.value in Known(cur.id).quieted
      ensures GrewBenignly(old(Known(cur.id)), Known(cur.id))
    {
      hide JobInv;
      hide JobCore;
      hide JobState;
      hide FactsOf;
      hide RowsOk;
      quiet := false;
      var st;
      s, st := GetStatus();
      if s == Crashed { return; }
      if s == Raised || st.None? { return Fine, false; }
      ghost var f := Known(cur.id);
      quiet := Quiet(st.value, cur.session.value);
      Observe(StatusSeen(cur.session.value, quiet));
      CoreKept(cur, cur, work.rows, At(starts, cur.id), At(actions, cur.id), f, Known(cur.id));
    }

    /** Engine.fail_need_human: local and final; no abort against a remote that may be another one. */
    method FailNeedHuman() returns (s: Status)
      requires Safe() && Core()
      modifies this`log, this`cur, this`work
      ensures Frame() && Safe() && s == Fine && Good()
      ensures cur == old(cur).(session := None, state := Failed)
      ensures log == old(log)
    {
      hide JobInv;
      hide JobCore;
      hide JobState;
      hide FactsOf;
      hide RowsOk;
      CoreKept(cur, cur.(session := None), work.rows, At(starts, cur.id), At(actions, cur.id), Known(cur.id),
               Known(cur.id));
      cur := cur.(session := None);
      s := Stop(Failed);
    }

    /** Dispatched, not stopped, and no verdict pending: the state in which a scan works. */
    ghost predicate Live()
      reads this
    {
      && Core() && Dispatchable(cur, At(starts, cur.id), Known(cur.id)) && NoVerdictOpen(work.rows, cur.id)
      && (cur.state == Running || cur.state == AwaitingPermission)
    }

    /** Nothing but request rows, budgets and replies moved. */
    twostate predicate Steady()
      reads this
    {
      cur == old(cur).(scans := cur.scans, leadRequests := cur.leadRequests, handled := cur.handled)
      && old(cur).scans <= cur.scans && old(cur).leadRequests <= cur.leadRequests
      && old(cur).handled <= cur.handled
    }

    /** The job was stopped instead: it fails, at once or when the remote confirms. */
    twostate predicate Halting()
      reads this
    {
      && Good() && (cur.state == Failed || cur.state == Stopping)
      && cur == old(cur).(state := cur.state, stopTarget := cur.stopTarget, abortSent := cur.abortSent)
    }

    /** A new row for the job in hand is the last row of the table. */
    twostate predicate FiledLast(payload: Payload, rid: RequestId)
      reads this
    {
      var n := |old(work.rows)|;
      && cur == old(cur).(leadRequests := old(cur).leadRequests + 1)
      && |work.rows| == n + 1 && work.rows[..n] == old(work.rows)
      && OpenAt(work.rows, n, cur.id) && work.rows[n].packet.payload == payload && work.rows[n].id == rid
    }

    /** Engine.request: the row is filed once per request id, within the budget and the size limit. */
    method Request(payload: Payload, rid: RequestId) returns (s: Status, filing: Filing)
      requires Safe() && Live()
      requires payload.ActionAsk? ==>
                 cur.charter.kind == SystemInstall && payload.proposal == cur.charter.action
      requires rid.Uuid? ==> rid.n < uuid
      modifies this`log, this`cur, this`work
      ensures Frame() && Safe() && s != Raised && uuid == old(uuid) && cur.handled == old(cur).handled
      ensures s == Fine && filing == OnFile ==>
                cur == old(cur) && work == old(work) && Live() && FindRow(work.rows, rid).Some?
      ensures s == Fine && filing == Filed ==>
                && FindRow(old(work.rows), rid).None? && FiledLast(payload, rid)
                && Core() && Dispatchable(cur, At(starts, cur.id), Known(cur.id))
      ensures s == Fine && filing == Halted ==> Halting()
    {
      hide JobInv;
      hide JobCore;
      hide JobState;
      hide FactsOf;
      hide RowsOk;
      if FindRow(work.rows, rid).Some? {
        return Fine, OnFile;
      }
      var tooLarge := Verdict();
      if cur.leadRequests >= cur.charter.maxLeadRequests || tooLarge {
        s := Stop(Failed);
        return s, Halted;
      }
      File(payload, rid);
      return Fine, Filed;
    }

    /** The INSERT and the counter. */
    method File(payload: Payload, rid: RequestId)
      requires Core() && cur.leadRequests < cur.charter.maxLeadRequests
      requires payload.ActionAsk? ==>
                 cur.charter.kind == SystemInstall && payload.proposal == cur.charter.action
      requires FindRow(work.rows, rid).None? && (rid.Uuid? ==> rid.n < uuid)
      modifies this`cur, this`work
      ensures Frame() && FiledLast(payload, rid) && Core()
    {
      hide JobInv;
      hide JobCore;
      hide JobState;
      hide FactsOf;
      var packet := Packet(rid, cur.id, cur.runId, cur.session, cur.charter, payload);
      var row := Row(rid, cur.id, packet, false);
      FiledCore(cur, work.rows, row, At(starts, cur.id), At(actions, cur.id), Known(cur.id));
      work := work.(rows := work.rows + [row]);
      cur := cur.(leadRequests := cur.leadRequests + 1);
    }

    /** Close the job's requests whose subject is no longer pending at the remote. */
    method ResolveStale(stale: Payload -> bool)
      requires Safe() && Live()
      modifies this`work
      ensures Frame() && Safe() && Live() && cur == old(cur)
      ensures |work.rows| == |old(work.rows)|
      ensures forall i :: 0 <= i < |work.rows| ==>
                var r := old(work.rows)[i];
                work.rows[i] == if OpenAt(old(work.rows), i, cur.id) && stale(r.packet.payload)
                                then r.(resolved := true) else r
    {
      hide JobInv;
      hide JobCore;
      hide JobState;
      hide FactsOf;
      ghost var was := work.rows;
      var i := 0;
      while i < |work.rows|
        invariant 0 <= i <= |work.rows| == |was|
        invariant work.jobs == old(work.jobs) && work.order == old(work.order)
        invariant forall k :: 0 <= k < |was| ==>
                    work.rows[k] == if k < i && OpenAt(was, k, cur.id) && stale(was[k].packet.payload)
                                    then was[k].(resolved := true) else was[k]
      {
        var r := work.rows[i];
        if r.job == cur.id && !r.resolved && stale(r.packet.payload) {
          work := work.(rows := work.rows[i := r.(resolved := true)]);
        }
        i := i + 1;
      }
      ClosedCore(cur, was, work.rows, At(starts, cur.id), At(actions, cur.id), Known(cur.id));
    }

    /** scan, first half: every pending permission is rejected outright or put to the lead. */
    method ScanPermissions(ours: seq<Permission>) returns (s: Status, stopped: bool)
      requires Safe() && Live()
      modifies this`log, this`cur, this`work
      ensures Frame() && Safe() && uuid == old(uuid)
      ensures s == Fine && stopped ==> Good() && (cur.state == Failed || cur.state == Stopping)
      ensures s != Crashed && !(s == Fine && stopped) ==> Live() && Steady()
      ensures s != Crashed ==> Evolves(old(cur), cur)
      ensures NoRepeats(old(cur).handled) ==> NoRepeats(cur.handled)
    {
      hide JobInv;
      hide JobCore;
      hide JobState;
      hide FactsOf;
      hide RowsOk;
      var i := 0;
      s, stopped := Fine, false;
      while i < |ours|
        invariant Frame() && Safe() && Live() && Steady() && uuid == old(uuid) && s == Fine && !stopped
        invariant NoRepeats(old(cur).handled) ==> NoRepeats(cur.handled)
      {
        s, stopped := ScanPermission(ours[i]);
        if s != Fine || stopped { return; }
        i := i + 1;
      }
    }

    method ScanPermission(p: Permission) returns (s: Status, stopped: bool)
      requires Safe() && Live()
      modifies this`log, this`cur, this`work
      ensures Frame() && Safe() && uuid == old(uuid)
      ensures s == Fine && stopped ==> Halting()
      ensures s != Crashed && !(s == Fine && stopped) ==> Live() && Steady()
      ensures NoRepeats(old(cur).handled) ==> NoRepeats(cur.handled)
      ensures s == Fine && !stopped ==>
                || p.id in cur.handled || FindRow(work.rows, PermissionRequest(cur.runId, p.id)).Some?
    {
      hide JobInv;
      hide JobCore;
      hide JobState;
      hide FactsOf;
      hide RowsOk;
      if p.id in cur.handled { return Fine, false; }
      var rejected := Verdict();   // hard_reject
      if rejected {
        s := RejectOutright(p.id);
        return s, false;
      }
      var filing;
      s, filing := Request(PermissionAsk(p), PermissionRequest(cur.runId, p.id));
      return s, filing == Halted;
    }

    method RejectOutright(pid: PermissionId) returns (s: Status)
      requires Safe() && Live() && pid !in cur.handled
      modifies this`log, this`cur
      ensures Frame() && Safe() && Live()
      ensures s == Fine ==> log == old(log) + [Entry(cur.id, PermissionReply(pid, false, true))]
      ensures cur == old(cur).(handled := if s == Fine then old(cur).handled + [pid] else old(cur).handled)
    {
      hide JobInv;
      hide JobCore;
      hide JobState;
      hide FactsOf;
      ghost var job, f := cur, Known(cur.id);
      s := CallBenign(PermissionReply(pid, false, true), PermissionReply(pid, false, false));
      if s == Fine {
        cur := cur.(handled := cur.handled + [pid]);
      }
      CoreKept(job, cur, work.rows, At(starts, cur.id), At(actions, cur.id), f, Known(cur.id));
    }

    /** scan, second half: every pending question is put to the lead. */
    method ScanQuestions(ours: seq<Question>) returns (s: Status, stopped: bool)
      requires Safe() && Live()
      modifies this`log, this`cur, this`work
      ensures Frame() && Safe() && s != Raised && uuid == old(uuid)
      ensures s == Fine && stopped ==> Good() && (cur.state == Failed || cur.state == Stopping)
      ensures s == Fine && !stopped ==> Live() && Steady()
      ensures s == Fine ==> Evolves(old(cur), cur)
      ensures cur.handled == old(cur).handled
    {
      hide JobInv;
      hide JobCore;
      hide JobState;
      hide FactsOf;
      hide RowsOk;
      hide NoVerdictOpen;
      hide Dispatchable;
      var i := 0;
      s, stopped := Fine, false;
      while i < |ours|
        invariant Frame() && Safe() && Live() && Steady() && uuid == old(uuid) && s == Fine && !stopped
        invariant cur.handled == old(cur).handled
      {
        s, stopped := ScanQuestion(ours[i]);
        if s != Fine || stopped { return; }
        i := i + 1;
      }
    }

    method ScanQuestion(q: Question) returns (s: Status, stopped: bool)
      requires Safe() && Live()
      modifies this`log, this`cur, this`work
      ensures Frame() && Safe() && s != Raised && uuid == old(uuid)
      ensures s == Fine && stopped ==> Halting()
      ensures s == Fine && !stopped ==> Live() && Steady()
      ensures cur.handled == old(cur).handled
      ensures s == Fine && !stopped ==> FindRow(work.rows, QuestionRequest(cur.runId, q.id)).Some?
    {
      hide JobInv;
      hide JobCore;
      hide JobState;
      hide FactsOf;
      hide RowsOk;
      var filing;
      s, filing := Request(QuestionAsk(q), QuestionRequest(cur.runId, q.id));
      return s, s == Fine && filing == Halted;
    }

    // -------------------------------------------------------------------
    // Scanning
    // -------------------------------------------------------------------

    /** Stop a job over budget: abort it if the session is surely ours, otherwise only give it up. */
    method StopOverBudget() returns (s: Status)
      requires Safe() && Core() && InFlight(cur.state)
      modifies this`log, this`cur, this`work
      ensures Frame() && Safe() && s != Raised && uuid == old(uuid)
      ensures cur.handled == old(cur).handled
      ensures s == Fine ==> Good() && (cur.state == Failed || cur.state == Stopping) && Evolves(old(cur), cur)
    {
      hide JobInv;
      hide JobCore;
      hide JobState;
      hide FactsOf;
      hide RowsOk;
      if ConfirmedOwned(cur, work.jobs, backend) {
        s := Stop(Failed);
      } else {
        s := FailNeedHuman();
      }
    }

    /** _settle_idle_transcript: does the transcript say that the worker is done? */
    method SettleIdle(ms: seq<Message>) returns (s: Status, settled: bool)
      requires Safe() && Live() && AllResolved(work.rows, cur.id)
      modifies this`log, this`cur, this`work, this`uuid
      ensures Frame() && Safe()
      ensures cur.handled == old(cur).handled
      ensures s == Fine && settled ==> Good() && cur.state != Running && cur.state != AwaitingPermission
      ensures s == Raised || (s == Fine && !settled) ==> cur == old(cur) && work == old(work) && Live()
      ensures s == Fine ==> Evolves(old(cur), cur)
      ensures s == Fine ==> (!settled <==> TurnOf(ms, cur.charter.maxSteps).Unanswered? || TurnOf(ms, cur.charter.maxSteps).Working?)
      ensures s == Fine && (cur.state == AwaitingReview || cur.state == AwaitingAction) ==>
                TurnOf(ms, cur.charter.maxSteps).Ended?
    {
      hide JobInv;
      hide JobCore;
      hide JobState;
      hide FactsOf;
      hide RowsOk;
      hide TurnOf;
      hide Tools;
      hide AfterLastUser;
      settled := true;
      match TurnOf(ms, cur.charter.maxSteps) {
        case TooManySteps =>
          s := StopOverBudget();
        case Unanswered =>
          s, settled := Fine, false;
        case Broken =>
          s := Stop(Failed);
        case Working =>
          s, settled := Fine, false;
        case Ended =>
          s := AskForVerdict(Tools(AfterLastUser(ms)));
          if s == Raised { settled := false; }
      }
    }

    /** A finished turn: the proposal of a system install that was not executed yet, else the artifacts. */
    method AskForVerdict(tools: seq<ToolUse>) returns (s: Status)
      requires Safe() && Live() && AllResolved(work.rows, cur.id)
      modifies this`log, this`cur, this`work, this`uuid
      ensures Frame() && Safe()
      ensures cur.handled == old(cur).handled
      ensures s == Fine ==> Good() && cur.state != Running && cur.state != AwaitingPermission
      ensures s == Fine ==> Evolves(old(cur), cur)
      ensures s == Raised ==> cur == old(cur) && work == old(work) && Live()
      ensures s == Fine && cur.state == AwaitingAction ==>
                cur.charter.kind == SystemInstall && !old(cur).actionDispatched && !UsedCompleted(tools, SHELL_TOOLS)
      ensures s == Fine && cur.state == AwaitingReview ==>
                cur.charter.kind == FileTask || old(cur).actionDispatched
    {
      hide JobInv;
      hide JobCore;
      hide JobState;
      hide FactsOf;
      hide RowsOk;
      hide UsedCompleted;
      hide Evolves;
      if cur.charter.kind == SystemInstall && !cur.actionDispatched {
        s := ProposeAction(tools);
      } else {
        s := AskReview(tools);
      }
    }

    /** The worker of a system install must have proposed exactly the charter's action, and run nothing. */
    method ProposeAction(tools: seq<ToolUse>) returns (s: Status)
      requires Safe() && Live() && AllResolved(work.rows, cur.id)
      requires cur.charter.kind == SystemInstall && !cur.actionDispatched
      modifies this`log, this`cur, this`work, this`uuid
      ensures Frame() && Safe() && s != Raised
      ensures cur.handled == old(cur).handled
      ensures s == Fine ==> Good() && cur.state != Running && cur.state != AwaitingPermission
      ensures s == Fine ==> Evolves(old(cur), cur)
      ensures s == Fine && cur.state == AwaitingAction ==> !UsedCompleted(tools, SHELL_TOOLS)
      ensures s == Fine ==> cur.state != AwaitingReview
    {
      hide JobInv;
      hide JobCore;
      hide JobState;
      hide FactsOf;
      hide RowsOk;
      var proposed: Option<PublicAction> := *;   // the request file, None when missing or malformed
      var packageOk := Verdict();
      if UsedCompleted(tools, SHELL_TOOLS) || !(proposed == Some(cur.charter.action)) || !packageOk {
        s := Stop(Failed);
        return;
      }
      s := AskVerdict(ActionAsk(proposed.value));
    }

    /** Otherwise the artifacts, and what the worker did to make them, go to review. */
    method AskReview(tools: seq<ToolUse>) returns (s: Status)
      requires Safe() && Live() && AllResolved(work.rows, cur.id)
      modifies this`log, this`cur, this`work, this`uuid
      ensures Frame() && Safe()
      ensures cur.handled == old(cur).handled
      ensures s == Fine ==> Good() && cur.state != Running && cur.state != AwaitingPermission
      ensures s == Fine ==> cur.state != AwaitingAction
      ensures s == Fine ==> Evolves(old(cur), cur)
      ensures s == Raised ==> cur == old(cur) && work == old(work) && Live()
      ensures s == Fine && cur.state == AwaitingReview ==>
                && work.rows != []
                && var payload := work.rows[|work.rows| - 1].packet.payload;
                && payload.ReviewAsk? && payload.approvedAction == cur.approvedAction
                && (UsedCompleted(tools, cur.charter.forbiddenTools) ==> payload.violations)
                && (payload.violations && cur.charter.kind == FileTask ==> UsedCompleted(tools, cur.charter.forbiddenTools))
    {
      hide JobInv;
      hide JobCore;
      hide JobState;
      hide FactsOf;
      hide RowsOk;
      hide UsedCompleted;
      var readable := Verdict();
      if !readable { return Raised; }
      var snapshot: Option<Snapshot> := *;
      var traceViolation := Verdict();           // system_action_trace_violations
      var violations := UsedCompleted(tools, cur.charter.forbiddenTools)
                        || (cur.charter.kind == SystemInstall && traceViolation);
      var artifacts := if snapshot.Some? then snapshot.value else map[];
      s := AskVerdict(ReviewAsk(artifacts, snapshot.None?, violations, cur.approvedAction));
    }

    /** File a review or an action request and wait for it. */
    method AskVerdict(payload: Payload) returns (s: Status)
      requires Safe() && Live() && AllResolved(work.rows, cur.id)
      requires payload.ReviewAsk? || payload.ActionAsk?
      requires payload.ActionAsk? ==>
                 && cur.charter.kind == SystemInstall && !cur.actionDispatched
                 && payload.proposal == cur.charter.action
      modifies this`log, this`cur, this`work, this`uuid
      ensures Frame() && Safe() && s != Raised
      ensures cur.handled == old(cur).handled
      ensures s == Fine ==> Good() && Evolves(old(cur), cur)
      ensures s == Fine ==>
                || cur.state == Failed || cur.state == Stopping
                || (cur.state == (if payload.ReviewAsk? then AwaitingReview else AwaitingAction)
                    && cur.approvedAction == old(cur).approvedAction
                    && work.rows != [] && work.rows[|work.rows| - 1].packet.payload == payload)
    {
      hide JobInv;
      hide JobCore;
      hide JobState;
      hide FactsOf;
      hide RowsOk;
      hide FindRow;
      hide NoVerdictOpen;
      FreshIsNew(work.rows, uuid);
      var rid := Uuid(uuid);
      uuid := uuid + 1;
      var filing;
      s, filing := Request(payload, rid);
      if s != Fine || filing != Filed { return; }
      Await(if payload.ReviewAsk? then AwaitingReview else AwaitingAction);
    }

    method Await(next: State)
      requires Core() && Dispatchable(cur, At(starts, cur.id), Known(cur.id))
      requires work.rows != [] && OpenAt(work.rows, |work.rows| - 1, cur.id)
      requires AllResolved(work.rows[..|work.rows| - 1], cur.id)
      requires var payload := work.rows[|work.rows| - 1].packet.payload;
               || (next == AwaitingReview && payload.ReviewAsk?)
               || (next == AwaitingAction && payload.ActionAsk? && !cur.actionDispatched)
      modifies this`cur
      ensures Good() && cur == old(cur).(state := next)
    {
      hide JobInv;
      hide JobCore;
      hide JobState;
      hide FactsOf;
      hide RowsOk;
      var job := cur.(state := next);
      CoreKept(cur, job, work.rows, At(starts, cur.id), At(actions, cur.id), Known(cur.id), Known(cur.id));
      AwaitingInv(job, work.rows, At(starts, cur.id), At(actions, cur.id), Known(cur.id));
      cur := job;
    }

    /** Engine.scan. */
    method Scan() returns (s: Status)
      requires Safe() && Live()
      modifies this`log, this`cur, this`work, this`uuid
      ensures Frame() && Safe()
      ensures s != Crashed ==> Good() && cur.state != Queued && Evolves(old(cur), cur)
      ensures s == Raised ==> Live()
      ensures s == Raised ==> cur.scanErrors == old(cur).scanErrors
      ensures s == Fine && cur.state == Running ==> AllResolved(work.rows, cur.id)
      ensures NoRepeats(old(cur).handled) ==> NoRepeats(cur.handled)
    {
      hide JobInv;
      hide JobCore;
      hide JobState;
      hide FactsOf;
      hide RowsOk;
      hide FindRow;
      hide NoVerdictOpen;
      hide Dispatchable;
      hide AllResolved;
      var busy, stopped;
      s, busy, stopped := ScanInbox();
      LiveIsGood();
      if s != Fine || stopped { return; }
      if busy {
        SetLiveState(AwaitingPermission);
        return;
      }
      s := ScanStatus();
    }

    /** The pending permissions and questions of the job's session; `busy` when any is left to decide. */
    method ScanInbox() returns (s: Status, busy: bool, stopped: bool)
      requires Safe() && Live()
      modifies this`log, this`cur, this`work
      ensures Frame() && Safe() && uuid == old(uuid)
      ensures s == Fine && stopped ==> Good() && (cur.state == Failed || cur.state == Stopping)
      ensures s != Crashed && !(s == Fine && stopped) ==> Live()
      ensures s != Crashed && !(s == Fine && stopped) ==> cur.scanErrors == old(cur).scanErrors
      ensures s == Fine && !stopped && !busy ==> AllResolved(work.rows, cur.id)
      ensures s != Crashed ==> Evolves(old(cur), cur)
      ensures NoRepeats(old(cur).handled) ==> NoRepeats(cur.handled)
    {
      hide JobInv;
      hide JobCore;
      hide JobState;
      hide FactsOf;
      hide RowsOk;
      hide FindRow;
      hide NoVerdictOpen;
      hide Dispatchable;
      hide NoRepeats;
      var pending;
      s, busy, stopped := ScanPendingPermissions();
      if s != Fine || stopped { return; }
      s, pending, stopped := ScanPendingQuestions();
      if s != Fine || stopped { return; }
      busy := busy || pending || !AllResolved(work.rows, cur.id);
    }

    method ScanPendingPermissions() returns (s: Status, pending: bool, stopped: bool)
      requires Safe() && Live()
      modifies this`log, this`cur, this`work
      ensures Frame() && Safe() && uuid == old(uuid)
      ensures s == Fine && stopped ==> Good() && (cur.state == Failed || cur.state == Stopping)
      ensures s != Crashed && !(s == Fine && stopped) ==> Live() && Steady()
      ensures s != Crashed ==> Evolves(old(cur), cur)
      ensures NoRepeats(old(cur).handled) ==> NoRepeats(cur.handled)
    {
      hide JobInv;
      hide JobCore;
      hide JobState;
      hide FactsOf;
      hide RowsOk;
      hide FindRow;
      hide NoVerdictOpen;
      hide Dispatchable;
      hide NoRepeats;
      pending, stopped := false, false;
      var ps;
      s, ps := GetPermissions();
      if s != Fine { return; }
      if ps.None? { return Raised, false, false; }
      var ours := OwnedPermissions(ps.value, cur.session);
      s, stopped := ScanOwned(ours);
      pending := ours != [];
    }

    method ScanOwned(ours: seq<Permission>) returns (s: Status, stopped: bool)
      requires Safe() && Live()
      modifies this`log, this`cur, this`work
      ensures Frame() && Safe() && uuid == old(uuid)
      ensures s == Fine && stopped ==> Good() && (cur.state == Failed || cur.state == Stopping)
      ensures s != Crashed && !(s == Fine && stopped) ==> Live() && Steady()
      ensures s != Crashed ==> Evolves(old(cur), cur)
      ensures NoRepeats(old(cur).handled) ==> NoRepeats(cur.handled)
    {
      hide JobInv;
      hide JobCore;
      hide JobState;
      hide FactsOf;
      hide RowsOk;
      hide FindRow;
      hide NoVerdictOpen;
      hide Dispatchable;
      hide NoRepeats;
      CountScan();
      var pids := set p | p in ours :: p.id;
      ResolveStale((payload: Payload) => payload.PermissionAsk? && payload.permission.id !in pids);
      s, stopped := ScanPermissions(ours);
    }

    method CountScan()
      requires Live()
      modifies this`cur
      ensures Live() && cur == old(cur).(scans := old(cur).scans + 1)
    {
      hide JobInv;
      hide JobCore;
      hide JobState;
      CoreKept(cur, cur.(scans := cur.scans + 1), work.rows, At(starts, cur.id), At(actions, cur.id), Known(cur.id),
               Known(cur.id));
      cur := cur.(scans := cur.scans + 1);
    }

    method ScanPendingQuestions() returns (s: Status, pending: bool, stopped: bool)
      requires Safe() && Live()
      modifies this`log, this`cur, this`work
      ensures Frame() && Safe() && uuid == old(uuid)
      ensures s == Fine && stopped ==> Good() && (cur.state == Failed || cur.state == Stopping)
      ensures s != Crashed && !(s == Fine && stopped) ==> Live() && Steady()
      ensures s != Crashed ==> Evolves(old(cur), cur)
      ensures cur.handled == old(cur).handled
    {
      hide JobInv;
      hide JobCore;
      hide JobState;
      hide FactsOf;
      hide RowsOk;
      hide FindRow;
      hide NoVerdictOpen;
      hide Dispatchable;
      pending, stopped := false, false;
      var qs;
      s, qs := GetQuestions();
      if s != Fine { return; }
      if qs.None? { return Raised, false, false; }
      var ours := OwnedQuestions(qs.value, cur.session);
      var qids := set q | q in ours :: q.id;
      ResolveStale((payload: Payload) => payload.QuestionAsk? && payload.question.id !in qids);
      s, stopped := ScanQuestions(ours);
      pending := ours != [];
    }

    lemma LiveIsGood()
      ensures Live() ==> Good() && cur.session.Some? && cur.deadline.Some?
    {
      if Live() {
        LiveInv(cur, work.rows, At(starts, cur.id), At(actions, cur.id), Known(cur.id));
      }
    }

    method SetLiveState(next: State)
      requires Live() && (next == Running || next == AwaitingPermission)
      modifies this`cur
      ensures Live() && Good() && cur == old(cur).(state := next)
    {
      hide JobInv;
      hide JobCore;
      hide JobState;
      CoreKept(cur, cur.(state := next), work.rows, At(starts, cur.id), At(actions, cur.id), Known(cur.id),
               Known(cur.id));
      cur := cur.(state := next);
      LiveIsGood();
    }

    /** The session's status, and the transcript when the status says nothing or idle. */
    method ScanStatus() returns (s: Status)
      requires Safe() && Live() && AllResolved(work.rows, cur.id)
      modifies this`log, this`cur, this`work, this`uuid
      ensures Frame() && Safe()
      ensures s != Crashed ==> Good() && cur.state != Queued && Evolves(old(cur), cur)
      ensures s == Raised ==> Live()
      ensures s == Raised ==> cur.scanErrors == old(cur).scanErrors
      ensures s == Fine && cur.state == Running ==> AllResolved(work.rows, cur.id)
      ensures cur.handled == old(cur).handled
    {
      hide TurnOf;
      hide JobInv;
      hide JobCore;
      hide JobState;
      hide FactsOf;
      hide RowsOk;
      hide FindRow;
      hide NoVerdictOpen;
      hide Dispatchable;
      LiveIsGood();
      var st;
      s, st := GetStatus();
      if s != Fine { return; }
      if st.None? { return Raised; }
      var sid := cur.session.value;
      if ExplicitlyGone(st.value, sid) {
        s := FailNeedHuman();
        return;
      }
      if sid !in st.value.info {
        var now := Now();
        var anchor := if cur.dispatchedAt.Some? then cur.dispatchedAt.value else cur.createdAt;
        if now - anchor < SESSION_STATUS_GRACE {
          SetLiveState(Running);
          return Fine;
        }
        s := SettleMissing();
        return;
      }
      s := ScanListed(st.value.info[sid]);
    }

    /** The session is on the list: running unless idle, and then the transcript decides. */
    method ScanListed(info: SessionInfo) returns (s: Status)
      requires Safe() && Live() && AllResolved(work.rows, cur.id)
      modifies this`log, this`cur, this`work, this`uuid
      ensures Frame() && Safe()
      ensures s != Crashed ==> Good() && cur.state != Queued && Evolves(old(cur), cur)
      ensures s == Raised ==> Live()
      ensures s == Raised ==> cur.scanErrors == old(cur).scanErrors
      ensures s == Fine && cur.state == Running ==> AllResolved(work.rows, cur.id)
      ensures info.kind.Some? && info.kind.value != Idle ==> s == Fine && cur.state == Running
      ensures cur.handled == old(cur).handled
    {
      hide TurnOf;
      hide JobInv;
      hide JobCore;
      hide JobState;
      hide FactsOf;
      hide RowsOk;
      hide FindRow;
      hide NoVerdictOpen;
      hide Dispatchable;
      SetMisses(0);
      if info.kind.Some? && info.kind.value != Idle {
        SetLiveState(Running);
        return Fine;
      }
      var settled, answered;
      s, settled, answered := ReadTranscript();
    }

    /** GET the messages, and let the transcript decide; `answered` says that the worker has begun its turn. */
    method ReadTranscript() returns (s: Status, settled: bool, answered: bool)
      requires Safe() && Live() && AllResolved(work.rows, cur.id)
      modifies this`log, this`cur, this`work, this`uuid
      ensures Frame() && Safe()
      ensures s != Crashed ==> Good() && cur.state != Queued && Evolves(old(cur), cur)
      ensures s == Raised || (s == Fine && !settled) ==> Live()
      ensures s == Raised ==> cur.scanErrors == old(cur).scanErrors
      ensures s == Fine ==> if settled then cur.state != Running else work == old(work)
      ensures cur.handled == old(cur).handled
    {
      hide JobInv;
      hide JobCore;
      hide JobState;
      hide FactsOf;
      hide RowsOk;
      hide FindRow;
      hide NoVerdictOpen;
      hide Dispatchable;
      hide TurnOf;
      hide Assistants;
      hide AfterLastUser;
      LiveIsGood();
      settled, answered := false, false;
      var ms;
      s, ms := GetMessages();
      if s != Fine { return; }
      if ms.None? { return Raised, false, false; }
      s, settled := SettleIdle(ms.value);
      answered := Assistants(AfterLastUser(ms.value)) != [];
      LiveIsGood();
    }

    /** The status map no longer lists the session: the transcript decides, or three misses in a row do. */
    method SettleMissing() returns (s: Status)
      requires Safe() && Live() && AllResolved(work.rows, cur.id)
      modifies this`log, this`cur, this`work, this`uuid
      ensures Frame() && Safe()
      ensures s != Crashed ==> Good() && cur.state != Queued && Evolves(old(cur), cur)
      ensures s == Raised ==> Live()
      ensures s == Raised ==> cur.scanErrors == old(cur).scanErrors
      ensures s == Fine && cur.state == Running ==> AllResolved(work.rows, cur.id)
      ensures cur.handled == old(cur).handled
    {
      hide TurnOf;
      hide JobInv;
      hide JobCore;
      hide JobState;
      hide FactsOf;
      hide RowsOk;
      hide FindRow;
      hide NoVerdictOpen;
      hide Dispatchable;
      LiveIsGood();
      var settled, answered;
      s, settled, answered := ReadTranscript();
      if s != Fine { return; }
      if settled {
        ForgetMisses();
        return;
      }
      if answered {
        SetLiveState(Running);
        return;
      }
      s := NoteStatusMiss();
    }

    /** _note_status_soft_miss: keep waiting, but not for ever. */
    method NoteStatusMiss() returns (s: Status)
      requires Safe() && Live()
      modifies this`log, this`cur, this`work
      ensures Frame() && Safe() && s == Fine && Good() && Evolves(old(cur), cur) && uuid == old(uuid)
      ensures cur.statusMisses == old(cur).statusMisses + 1 && cur.handled == old(cur).handled
      ensures cur.state == if cur.statusMisses >= SCAN_ERROR_LIMIT then Failed else Running
      ensures cur.state == Running ==> work == old(work)
    {
      hide JobInv;
      hide JobCore;
      hide JobState;
      hide FactsOf;
      hide RowsOk;
      hide Dispatchable;
      SetMisses(cur.statusMisses + 1);
      if cur.statusMisses >= SCAN_ERROR_LIMIT {
        s := FailNeedHuman();
        return;
      }
      SetLiveState(Running);
      s := Fine;
    }

    method SetMisses(n: nat)
      requires Live()
      modifies this`cur
      ensures Live() && cur == old(cur).(statusMisses := n)
    {
      hide JobInv;
      hide JobCore;
      hide JobState;
      CoreKept(cur, cur.(statusMisses := n), work.rows, At(starts, cur.id), At(actions, cur.id), Known(cur.id),
               Known(cur.id));
      cur := cur.(statusMisses := n);
    }

    method ForgetMisses()
      requires Good()
      modifies this`cur
      ensures Good() && cur == old(cur).(statusMisses := 0)
    {
      hide JobInv;
      StreaksIrrelevant(cur, cur.(statusMisses := 0), work.rows, At(starts, cur.id), At(actions, cur.id),
                        Known(cur.id));
      cur := cur.(statusMisses := 0);
    }

    // -------------------------------------------------------------------
    // Starting
    // -------------------------------------------------------------------

    /** A queued job in hand, exactly as it is committed. */
    ghost predicate FreshlyQueued()
      reads this
    {
      && Safe() && Good() && cur.state == Queued && db.jobs[cur.id].state == Queued
    }

    /** The committed job is still queued, so a start journal and its effects do not contradict it. */
    ghost predicate StartingUp()
      reads this
    {
      Safe() && Core() && db.jobs[cur.id].state == Queued && cur.state == Starting
      && NoVerdictOpen(work.rows, cur.id) && !cur.abortSent && cur.deadline.Some? && cur.backend.Some?
    }

    /** _desktop_blocked: refuse, before anything is sent, a desktop that somebody else is using. */
    method DesktopBlocked() returns (s: Status, blocked: bool, claimed: bool, st: Option<Statuses>)
      requires StartingUp()
      modifies this`log, this`cur, this`work
      ensures Frame() && Safe() && uuid == old(uuid)
      ensures s == Fine && blocked ==> Good() && cur == old(cur).(session := None, state := Failed)
      ensures !(s == Fine && blocked) ==> cur == old(cur) && work == old(work)
      ensures log == old(log)
      ensures s == Fine ==>
                (blocked <==> !claimed || st.None? || ForeignBusy(st.value, OwnedSessions(old(work).jobs)))
    {
      hide JobInv;
      hide JobCore;
      hide JobState;
      hide FactsOf;
      hide RowsOk;
      claimed := Verdict();   // claim_desktop
      blocked, st := true, None;
      if !claimed {
        s := FailNeedHuman();
        return;
      }
      s, st := GetStatus();
      if s != Fine {
        blocked := false;
        return;
      }
      blocked := st.None? || ForeignBusy(st.value, OwnedSessions(work.jobs));
      if blocked {
        s := FailNeedHuman();
      }
    }

    /** The dispatch of one queued job: journal, POST /session, journal, journal, prompt. */
    method Dispatch() returns (s: Status)
      requires StartingUp() && At(starts, cur.id).None? && cur.session.None?
      requires Known(cur.id).creates == 0 && Known(cur.id).initials == 0 && Known(cur.id).prompted == {}
      modifies this`log, this`cur, this`starts
      ensures Frame() && Safe() && work == old(work) && uuid == old(uuid)
      ensures starts.Keys <= old(starts.Keys) + {cur.id}
      ensures s == Fine ==> Live() && cur.dispatchedAt.Some?
      ensures s == Raised ==> StartingUp()
      ensures s == Raised ==> cur.dispatchedAt == old(cur).dispatchedAt
      ensures cur == old(cur).(session := cur.session, state := cur.state, dispatchedAt := cur.dispatchedAt)
    {
      hide JobInv;
      hide JobCore;
      hide JobState;
      hide FactsOf;
      hide RowsOk;
      s := Journal(StartIntent(Creating, None));
      if s != Fine { return; }
      s := CreateRemoteSession();
      if s != Fine { return; }
      s := Journal(StartIntent(Created, cur.session));
      if s != Fine { return; }
      var acknowledged := Verdict();     // the session policy was echoed back
      if !acknowledged { return Raised; }
      s := Journal(StartIntent(PromptIssued, cur.session));
      if s != Fine { return; }
      s := SendInitialPrompt();
    }

    /** One write of the start journal while the job is starting. */
    method Journal(intent: StartIntent) returns (s: Status)
      requires StartingUp()
      requires Known(cur.id).initials == 0
      modifies this`starts
      ensures Frame() && StartingUp()
      ensures s == Fine ==> At(starts, cur.id) == Some(intent)
      ensures starts.Keys <= old(starts.Keys) + {cur.id}
    {
      hide JobInv;
      hide JobState;
      hide FactsOf;
      hide RowsOk;
      ghost var start := At(starts, cur.id);
      StartedQueued(db.jobs[cur.id], db.rows, start, Some(intent), At(actions, cur.id), Known(cur.id), Known(cur.id));
      StartedCore(cur, work.rows, start, Some(intent), At(actions, cur.id), Known(cur.id), Known(cur.id));
      s := WriteStart(intent);
    }

    /** POST /session. */
    method CreateRemoteSession() returns (s: Status)
      requires StartingUp() && At(starts, cur.id).Some? && cur.session.None?
      requires Known(cur.id).creates == 0 && Known(cur.id).initials == 0
      modifies this`log, this`cur
      ensures Frame() && Safe()
      ensures s != Crashed ==> StartingUp()
      ensures Known(cur.id).initials == 0 && Known(cur.id).prompted == old(Known(cur.id).prompted)
      ensures s == Fine ==> Known(cur.id).creates == 1 && cur.session.Some?
      ensures cur == old(cur).(session := cur.session)
    {
      hide JobInv;
      hide JobState;
      hide FactsOf;
      hide RowsOk;
      ghost var start, action, f := At(starts, cur.id), At(actions, cur.id), Known(cur.id);
      StartedQueued(db.jobs[cur.id], db.rows, start, start, action, f, Note(f, CreateSession));
      StartedCore(cur, work.rows, start, start, action, f, Note(f, CreateSession));
      s := Call(CreateSession, CreateSession);
      if s != Fine { return; }
      var created: Option<SessionId> := *;
      if created.None? { return Raised; }
      CoreKept(cur, cur.(session := created), work.rows, start, action, Known(cur.id), Known(cur.id));
      cur := cur.(session := created);
    }

    /** POST /session/{id}/prompt_async with the charter. */
    method SendInitialPrompt() returns (s: Status)
      requires StartingUp() && cur.session.Some?
      requires At(starts, cur.id) == Some(StartIntent(PromptIssued, cur.session))
      requires Known(cur.id).creates == 1 && Known(cur.id).initials == 0 && Known(cur.id).prompted == {}
      modifies this`log, this`cur
      ensures Frame() && Safe()
      ensures s == Raised ==> StartingUp()
      ensures s != Fine ==> cur == old(cur)
      ensures s == Fine ==> Live() && cur.dispatchedAt.Some?
      ensures cur == old(cur).(state := cur.state, dispatchedAt := cur.dispatchedAt)
    {
      hide JobInv;
      hide JobState;
      hide FactsOf;
      hide RowsOk;
      ghost var start, action, f := At(starts, cur.id), At(actions, cur.id), Known(cur.id);
      ghost var e := Prompt(cur.session.value, Initial);
      StartedQueued(db.jobs[cur.id], db.rows, start, start, action, f, Note(f, e));
      StartedCore(cur, work.rows, start, start, action, f, Note(f, e));
      s := Call(Prompt(cur.session.value, Initial), Prompt(cur.session.value, Initial));
      if s != Fine { return; }
      var now := Now();
      var job := cur.(state := Running, dispatchedAt := Some(now));
      CoreKept(cur, job, work.rows, start, action, Known(cur.id), Known(cur.id));
      cur := job;
    }

    /** The body of tick for a queued job that may start. */
    method StartQueued() returns (s: Status)
      requires FreshlyQueued()
      modifies this`log, this`cur, this`work, this`starts
      ensures Frame() && Safe() && uuid == old(uuid) && s != Raised
      ensures cur.handled == old(cur).handled
      ensures starts.Keys <= old(starts.Keys) + {cur.id}
      ensures s == Fine ==> Good() && cur.state != Queued && !(cur.state == Passed)
      ensures s == Fine ==> Evolves(old(cur), cur)
      ensures s == Fine && InFlight(cur.state) ==> Live() && cur.dispatchedAt.Some?
      ensures s == Fine && !InFlight(cur.state) ==> cur.dispatchedAt.None?
      ensures old(At(starts, cur.id)).Some? ==>
                GrewBenignly(old(Known(cur.id)), Known(cur.id)) && starts == old(starts)
                && (s == Fine ==> !InFlight(cur.state))
    {
      hide JobInv;
      hide JobCore;
      hide JobState;
      hide FactsOf;
      hide RowsOk;
      s := TryStart();
      if s == Raised {
        s := Stop(Failed);
      }
    }

    /** ... up to its exception handler. */
    method TryStart() returns (s: Status)
      requires FreshlyQueued()
      modifies this`log, this`cur, this`work, this`starts
      ensures Frame() && Safe() && uuid == old(uuid)
      ensures cur.handled == old(cur).handled
      ensures starts.Keys <= old(starts.Keys) + {cur.id}
      ensures s != Crashed ==> Core() && Evolves(old(cur), cur.(state := Starting))
      ensures s == Fine ==> Good() && (cur.state == Failed || (Live() && cur.dispatchedAt.Some?))
      ensures old(At(starts, cur.id)).Some? ==> s == Raised && log == old(log) && starts == old(starts)
      ensures log != old(log) ==> cur.backend == Some(backend) && cur.deadline.Some?
      ensures s == Raised || (s == Fine && cur.state == Failed) ==> cur.dispatchedAt.None?
    {
      hide JobInv;
      hide JobCore;
      hide JobState;
      hide FactsOf;
      hide RowsOk;
      hide NoVerdictOpen;
      hide Dispatchable;
      hide InFlight;
      QueuedMeans(cur, work.rows, At(starts, cur.id), At(actions, cur.id), Known(cur.id));
      var readable := Verdict();
      if !readable { return Raised; }
      var interrupted := At(starts, cur.id);      // read the journal
      if interrupted.Some? {
        CoreKept(cur, cur.(session := interrupted.value.session), work.rows, At(starts, cur.id), At(actions, cur.id),
                 Known(cur.id), Known(cur.id));
        cur := cur.(session := interrupted.value.session);
        return Raised;
      }
      SetStarting();
      s := StartUp();
    }

    /** The desktop check, and the dispatch. */
    method StartUp() returns (s: Status)
      requires StartingUp() && At(starts, cur.id).None? && cur.session.None? && cur.dispatchedAt.None?
      requires Known(cur.id).creates == 0 && Known(cur.id).initials == 0 && Known(cur.id).prompted == {}
      modifies this`log, this`cur, this`work, this`starts
      ensures Frame() && Safe() && uuid == old(uuid)
      ensures starts.Keys <= old(starts.Keys) + {cur.id}
      ensures s != Crashed ==> Core()
      ensures s == Fine ==> Good() && (cur.state == Failed || (Live() && cur.dispatchedAt.Some?))
      ensures s == Raised || (s == Fine && cur.state == Failed) ==> cur.dispatchedAt.None?
      ensures cur == old(cur).(session := cur.session, state := cur.state, dispatchedAt := cur.dispatchedAt)
    {
      hide JobInv;
      hide JobCore;
      hide JobState;
      hide FactsOf;
      hide RowsOk;
      hide NoVerdictOpen;
      hide Dispatchable;
      var blocked, claimed, st;
      s, blocked, claimed, st := DesktopBlocked();
      if s != Fine || blocked { return; }
      s := Dispatch();
      LiveIsGood();
    }

    /** The deadline and the backend are on record before anything is sent. */
    method SetStarting()
      requires FreshlyQueued() && At(starts, cur.id).None?
      modifies this`cur
      ensures StartingUp() && cur.backend == Some(backend)
      ensures cur == old(cur).(state := Starting, deadline := cur.deadline, backend := cur.backend)
      ensures cur.session.None? && cur.dispatchedAt.None?
      ensures Known(cur.id).creates == 0 && Known(cur.id).initials == 0 && Known(cur.id).prompted == {}
    {
      hide JobInv;
      hide JobCore;
      hide JobState;
      hide FactsOf;
      hide RowsOk;
      QueuedMeans(cur, work.rows, At(starts, cur.id), At(actions, cur.id), Known(cur.id));
      var now := Now();
      var job := cur.(state := Starting, deadline := Some(now + cur.charter.timeoutSec), backend := Some(backend));
      CoreKept(cur, job, work.rows, At(starts, cur.id), At(actions, cur.id), Known(cur.id), Known(cur.id));
      cur := job;
    }

    // -------------------------------------------------------------------
    // One cycle
    // -------------------------------------------------------------------

    /** What tick does with one job, loaded into `cur` from the table. */
    method Advance(mayStart: bool) returns (s: Status, started: bool)
      requires Safe() && Good() && db.jobs[cur.id] == cur
      modifies this`log, this`cur, this`work, this`starts, this`uuid
      ensures Frame() && Safe() && s != Raised
      ensures starts.Keys <= old(starts.Keys) + {cur.id}
      ensures s == Fine ==> Good() && Evolves(old(cur), cur)
      ensures s == Fine ==> Turned(old(cur), cur, mayStart, started, backend)
      ensures Misplaced(old(cur), backend) ==> s == Fine && log == old(log)
    {
      hide JobInv;
      hide JobCore;
      hide JobState;
      hide FactsOf;
      hide RowsOk;
      hide Dispatchable;
      hide NoRepeats;
      hide Evolves;
      s, started := Fine, false;
      EvolvesReflexive(cur);
      if cur.state == Queued && mayStart {
        s := StartQueued();
        if s != Fine { return; }
        started := InFlight(cur.state);
      }
      StateMeans();
      ghost var mid := cur;
      if Terminal(cur.state) || cur.state == Queued { return; }
      var now;
      s, now := Supervise();
      if s == Fine {
        EvolvesTransitive(old(cur), mid, cur);
        if started {
          DispatchTimeStays(mid, cur);
        }
      }
    }

    /** A job that was dispatched: still ours, still in time?  Then go on with it. */
    method Supervise() returns (s: Status, now: Time)
      requires Safe() && Good() && (InFlight(cur.state) || cur.state == Stopping)
      modifies this`log, this`cur, this`work, this`uuid
      ensures Frame() && Safe() && s != Raised
      ensures s == Fine ==> Good() && cur.state != Queued && Evolves(old(cur), cur)
      ensures old(cur).backend != Some(backend) ==>
                s == Fine && cur == old(cur).(session := None, state := Failed) && log == old(log)
      ensures s == Fine && old(cur).backend == Some(backend) ==> SupervisedAt(old(cur), cur, now)
      ensures old(cur).state == Stopping && s == Fine ==> !InFlight(cur.state) && cur.dispatchedAt == old(cur).dispatchedAt
      ensures s == Fine && NoRepeats(old(cur).handled) ==> NoRepeats(cur.handled)
    {
      hide JobInv;
      hide JobCore;
      hide JobState;
      hide FactsOf;
      hide RowsOk;
      hide Dispatchable;
      hide NoRepeats;
      StateMeans();
      now := Now();
      if cur.backend != Some(backend) {
        s := FailNeedHuman();
        return;
      }
      if Overdue(cur, now) {
        s := StopLate();
        return;
      }
      hide SupervisedAt;
      s := SuperviseInTime(now);
    }

    method StopLate() returns (s: Status)
      requires Safe() && Good() && (InFlight(cur.state) || cur.state == Stopping)
      modifies this`log, this`cur, this`work
      ensures Frame() && Safe() && s != Raised && uuid == old(uuid)
      ensures s == Fine ==> Good() && (cur.state == TimedOut || (cur.state == Stopping && cur.stopTarget == TimedOut))
      ensures s == Fine ==> Evolves(old(cur), cur) && cur.handled == old(cur).handled && cur.dispatchedAt == old(cur).dispatchedAt
    {
      hide JobInv;
      hide JobCore;
      hide JobState;
      hide FactsOf;
      hide RowsOk;
      hide Dispatchable;
      s := Stop(TimedOut);
    }

    /** Before the deadline: a stopping job is stopped further, one in flight is looked at. */
    method SuperviseInTime(now: Time) returns (s: Status)
      requires Safe() && Good() && (InFlight(cur.state) || cur.state == Stopping) && !Overdue(cur, now)
      modifies this`log, this`cur, this`work, this`uuid
      ensures Frame() && Safe() && s != Raised
      ensures s == Fine ==> Good() && cur.state != Queued && Evolves(old(cur), cur) && SupervisedAt(old(cur), cur, now)
      ensures old(cur).state == Stopping && s == Fine ==> !InFlight(cur.state) && cur.dispatchedAt == old(cur).dispatchedAt
      ensures s == Fine && NoRepeats(old(cur).handled) ==> NoRepeats(cur.handled)
    {
      hide JobInv;
      hide JobCore;
      hide JobState;
      hide FactsOf;
      hide RowsOk;
      hide Dispatchable;
      hide NoRepeats;
      StateMeans();
      if cur.state == Stopping {
        s := Stop(cur.stopTarget);
        return;
      }
      s := SuperviseInFlight(now);
    }

    /** The wall budget, and a scan when one is due. */
    method SuperviseInFlight(now: Time) returns (s: Status)
      requires Safe() && Good() && InFlight(cur.state) && cur.deadline.Some?
      modifies this`log, this`cur, this`work, this`uuid
      ensures Frame() && Safe() && s != Raised
      ensures s == Fine ==> Good() && cur.state != Queued && Evolves(old(cur), cur)
      ensures s == Fine && OverWall(old(cur), now) ==> cur.state == Failed || cur.state == Stopping
      ensures s == Fine && NoRepeats(old(cur).handled) ==> NoRepeats(cur.handled)
    {
      hide JobInv;
      hide JobCore;
      hide JobState;
      hide FactsOf;
      hide RowsOk;
      hide Dispatchable;
      hide NoRepeats;
      StateMeans();
      if OverWall(cur, now) {
        s := StopOverBudget();
        return;
      }
      var due := Verdict();     // next_scan has come
      if cur.state == AwaitingReview || cur.state == AwaitingAction || !due {
        return Fine;
      }
      var erred, unauthorized;
      s, erred, unauthorized := ScanGuarded();
    }

    lemma StateMeans()
      requires Good()
      ensures cur.state != Starting
      ensures cur.state == Queued ==> cur.dispatchedAt.None?
      ensures InFlight(cur.state) ==> cur.deadline.Some? && cur.session.Some?
      ensures cur.state == Stopping ==> StopTarget(cur.stopTarget)
      ensures cur.state == Running || cur.state == AwaitingPermission ==> Live()
    {
    }

    /** scan with its exception handler: three errors in a row, or a rejected credential, end the job. */
    method ScanGuarded() returns (s: Status, erred: bool, unauthorized: bool)
      requires Safe() && Live()
      modifies this`log, this`cur, this`work, this`uuid
      ensures Frame() && Safe() && s != Raised
      ensures s == Fine ==> Good() && cur.state != Queued && Evolves(old(cur), cur)
      ensures s == Fine && !erred ==> cur.scanErrors == 0 || Terminal(cur.state) || cur.state == Stopping
      ensures s == Fine && erred ==>
                && cur.scanErrors == old(cur).scanErrors + 1
                && if unauthorized || cur.scanErrors >= SCAN_ERROR_LIMIT then cur.state == Failed && cur.session.None?
                   else cur.state == Running || cur.state == AwaitingPermission
      ensures s == Fine && NoRepeats(old(cur).handled) ==> NoRepeats(cur.handled)
    {
      hide JobInv;
      hide JobCore;
      hide JobState;
      hide FactsOf;
      hide RowsOk;
      hide Dispatchable;
      hide NoRepeats;
      erred, unauthorized := false, false;
      s := Scan();
      if s == Crashed { return; }
      if s == Fine {
        if !Terminal(cur.state) && cur.state != Stopping {
          SetScanErrors(0);
        }
        return;
      }
      erred := true;
      SetScanErrors(cur.scanErrors + 1);
      unauthorized := Verdict();
      if unauthorized || cur.scanErrors >= SCAN_ERROR_LIMIT {
        s := FailNeedHuman();
      }
      s := Fine;
    }

    method SetScanErrors(n: nat)
      requires Good()
      modifies this`cur
      ensures Good() && cur == old(cur).(scanErrors := n)
    {
      hide JobInv;
      StreaksIrrelevant(cur, cur.(scanErrors := n), work.rows, At(starts, cur.id), At(actions, cur.id), Known(cur.id));
      cur := cur.(scanErrors := n);
    }

    // -------------------------------------------------------------------
    // Transactions
    // -------------------------------------------------------------------

    /** The committed state is right, and so is the open transaction. */
    ghost predicate Open()
      reads this
    {
      && Inv()
      && Tables(work, uuid) && AllJobs(work, starts, actions, log)
      && work.jobs.Keys == db.jobs.Keys && work.order == db.order && DbEvolves(db, work)
    }

    method Begin()
      requires Inv()
      modifies this`work
      ensures Open() && work == db
    {
      work := db;
      DbEvolvesReflexive(db);
    }

    /** COMMIT.  A failing commit is rolled back; a crash may fall on either side of it. */
    method Commit() returns (s: Status)
      requires Inv() && Tables(work, uuid) && AllJobs(work, starts, actions, log) && Follows(db, work)
      requires db.jobs.Keys <= work.jobs.Keys && |InFlightJobs(work.jobs)| <= maxParallel
      modifies this`db, this`work, this`history
      ensures Inv() && work == db
      ensures old(history) <= history
      ensures db == old(db) || db == old(work)
      ensures s == Fine ==> db == old(work)
      ensures s == Raised ==> db == old(db)
    {
      hide AllJobs;
      hide Follows;
      hide InFlightJobs;
      hide Tables;
      s := *;
      var durable: bool := *;
      if s == Fine || (s == Crashed && durable) {
        db := work;
        history := history + [db];
      }
      work := db;
    }

    /** tick for one job, and the save. */
    method TickJob(j: JobId, mayStart: bool) returns (s: Status, started: bool)
      requires Open() && j in work.jobs && work.jobs[j] == db.jobs[j]
      modifies this`log, this`cur, this`work, this`starts, this`uuid
      ensures Inv() && db == old(db) && s != Raised
      ensures s == Fine ==>
                && Open()
                && (forall k :: k in work.jobs && k != j ==> work.jobs[k] == old(work.jobs)[k])
                && |InFlightJobs(work.jobs)| <= |InFlightJobs(old(work.jobs))| + (if started then 1 else 0)
      ensures history == old(history) && old(log) <= log && backend == old(backend) && work.order == old(work.order)
      ensures s == Fine ==> Turned(old(work.jobs)[j], work.jobs[j], mayStart, started, backend)
      ensures forall k :: |old(log)| <= k < |log| ==> log[k].job == j
      ensures s == Fine && Misplaced(old(work.jobs)[j], backend) ==> log == old(log)
    {
      hide JobInv;
      hide JobCore;
      hide JobState;
      hide FactsOf;
      hide Evolves;
      hide AllJobs;
      hide DbEvolves;
      hide Tables;
      hide Turned;
      hide Misplaced;
      hide InFlightJobs;
      cur := work.jobs[j];
      label Loaded:
      LoadedIsGood(j);
      s, started := Advance(mayStart);
      StillCommitted@Loaded(j);
      if s != Fine { return; }
      TurnedInFlight(work.jobs, j, cur, mayStart, started, backend);
      Savable@Loaded(j);
      work := work.(jobs := work.jobs[j := cur]);
    }

    /** The job in hand may be written back. */
    twostate lemma Savable(j: JobId)
      requires old(Open()) && j in old(work.jobs) && j == cur.id && old(cur) == old(work.jobs)[j]
      requires Frame() && Good() && Evolves(db.jobs[j], cur)
      requires starts.Keys <= old(starts.Keys) + {cur.id} && actions.Keys <= old(actions.Keys) + {cur.id}
      ensures var w := work.(jobs := work.jobs[j := cur]);
              Tables(w, uuid) && AllJobs(w, starts, actions, log) && DbEvolves(db, w)
              && w.jobs.Keys == db.jobs.Keys && w.order == db.order
    {
      hide JobCore;
      hide JobState;
      hide FactsOf;
      hide Evolves;
      hide Tables;
      hide RowsOk;
      hide AllJobs;
      TablesAfter(old(work), work.(jobs := work.jobs[j := cur]), cur, old(uuid), uuid);
      AllJobsAfter(old(work), work.(jobs := work.jobs[j := cur]), cur, old(starts), starts, old(actions), actions,
                   old(log), log);
    }

    lemma LoadedIsGood(j: JobId)
      requires Open() && j in work.jobs && work.jobs[j] == db.jobs[j] && cur == work.jobs[j]
      ensures Safe() && Good() && cur.id == j && j in db.jobs
    {
      hide JobCore;
      hide JobState;
      hide FactsOf;
    }

    /** What was sent and journalled for one job leaves the committed state right. */
    twostate lemma StillCommitted(j: JobId)
      requires old(Inv()) && j in db.jobs && j == cur.id && Frame() && Safe()
      requires starts.Keys <= old(starts.Keys) + {cur.id} && actions.Keys <= old(actions.Keys) + {cur.id}
      ensures Inv()
    {
      hide JobInv;
      hide JobCore;
      hide JobState;
      hide FactsOf;
      hide AllJobs;
      hide Tables;
      hide Chain;
      hide InFlightJobs;
      TablesGrow(db, old(uuid), uuid);
      AllJobsAfter(db, db, db.jobs[j], old(starts), starts, old(actions), actions, old(log), log);
    }

    // -------------------------------------------------------------------
    // Decisions of the lead
    // -------------------------------------------------------------------

    /** The row at i is the open request the decision is about, and the job takes decisions. */
    ghost predicate Deciding(i: nat)
      reads this
    {
      && Safe() && Good() && InFlight(cur.state)
      && i < |work.rows| && OpenAt(work.rows, i, cur.id)
    }

    /** The job in hand is right once the request at i is closed. */
    ghost predicate GoodOnceClosed(i: nat)
      reads this
    {
      && i < |work.rows| && work.rows[i].job == cur.id && RowsOk(Close(work.rows, i), uuid)
      && JobInv(cur, Close(work.rows, i), At(starts, cur.id), At(actions, cur.id), Known(cur.id))
    }

    lemma StoppedOnceClosed(i: nat)
      requires Good() && (cur.state == Failed || cur.state == Stopping || cur.state == Running)
      requires i < |work.rows| && work.rows[i].job == cur.id
      ensures GoodOnceClosed(i)
    {
      hide JobCore;
      hide JobState;
      CloseKeepsJob(cur, work.rows, i, At(starts, cur.id), At(actions, cur.id), Known(cur.id));
    }

    /** permission: once, reject or deny_job, on exactly the permission that was reviewed. */
    method DecidePermission(i: nat, choice: Choice) returns (s: Status)
      requires Deciding(i) && work.rows[i].packet.payload.PermissionAsk?
      modifies this`log, this`cur, this`work
      ensures Frame() && Safe() && uuid == old(uuid)
      ensures s == Fine ==> GoodOnceClosed(i) && Evolves(old(cur), cur) && cur.state != Passed
      ensures s == Fine ==>
                var pid := old(work.rows)[i].packet.payload.permission.id;
                && (choice == Once || choice == Reject || choice == DenyJob)
                && (exists k :: |old(log)| <= k < |log| && log[k] == Entry(cur.id, PermissionReply(pid, choice == Once, true)))
                && cur.handled == old(cur).handled + [pid]
                && cur.approved == old(cur).approved + (if choice == Once then 1 else 0)
                && (choice != DenyJob ==> cur.state == Running)
                && (choice == DenyJob ==> cur.state == Failed || cur.state == Stopping)
    {
      hide JobInv;
      hide JobCore;
      hide JobState;
      hide FactsOf;
      hide RowsOk;
      hide NoVerdictOpen;
      hide Dispatchable;
      if choice != Once && choice != Reject && choice != DenyJob { return Raised; }
      var p := work.rows[i].packet.payload.permission;
      var pending;
      s, pending := GetPermissions();
      if s != Fine { return; }
      if pending.None? || FirstPermission(pending.value, p.id, cur.session) != Some(p) { return Raised; }
      var rejected := Verdict();   // hard_reject
      if choice == Once && rejected { return Raised; }
      s := ReplyAndStop(i, p.id, choice);
    }

    /** The reply, and for deny_job the stop after it. */
    method ReplyAndStop(i: nat, pid: PermissionId, choice: Choice) returns (s: Status)
      requires Deciding(i) && work.rows[i].packet.payload.PermissionAsk?
      modifies this`log, this`cur, this`work
      ensures Frame() && Safe() && uuid == old(uuid)
      ensures s == Fine ==> GoodOnceClosed(i) && Evolves(old(cur), cur) && cur.state != Passed
      ensures s == Fine ==>
                && cur.handled == old(cur).handled + [pid]
                && |log| > |old(log)| && log[|old(log)|] == Entry(cur.id, PermissionReply(pid, choice == Once, true))
                && cur.approved == old(cur).approved + (if choice == Once then 1 else 0)
                && (choice != DenyJob ==> cur.state == Running)
                && (choice == DenyJob ==> cur.state == Failed || cur.state == Stopping)
    {
      hide JobInv;
      hide JobCore;
      hide JobState;
      hide FactsOf;
      hide RowsOk;
      hide NoVerdictOpen;
      hide Dispatchable;
      s := ReplyPermission(i, pid, choice == Once);
      if s != Fine { return; }
      if choice == DenyJob {
        s := Stop(Failed);
      }
      if s == Fine {
        StoppedOnceClosed(i);
      }
    }

    /** POST /permission/{id}/reply and its bookkeeping. */
    method ReplyPermission(i: nat, pid: PermissionId, once: bool) returns (s: Status)
      requires Deciding(i) && work.rows[i].packet.payload.PermissionAsk?
      modifies this`log, this`cur
      ensures Frame() && Safe()
      ensures s != Fine ==> cur == old(cur)
      ensures s == Fine ==> Good()
      ensures s == Fine ==> log == old(log) + [Entry(cur.id, PermissionReply(pid, once, true))]
      ensures s == Fine ==>
                cur == old(cur).(handled := old(cur).handled + [pid], state := Running,
                                 approved := old(cur).approved + (if once then 1 else 0))
    {
      hide JobInv;
      hide JobCore;
      hide JobState;
      hide FactsOf;
      hide RowsOk;
      ghost var job, rows, start, action, f := cur, work.rows, At(starts, cur.id), At(actions, cur.id), Known(cur.id);
      GoodMeans();
      OpenRowMeans(job, rows, i, start, action, f);
      LiveMeans(job, rows, start, action, f);
      s := CallBenign(PermissionReply(pid, once, true), PermissionReply(pid, once, false));
      if s != Fine { return; }
      ApprovedIsReplied(job, rows, start, action, f);
      cur := cur.(handled := cur.handled + [pid], state := Running,
                  approved := cur.approved + (if once then 1 else 0));
      CoreKept(job, cur, rows, start, action, f, Known(cur.id));
      LiveInv(cur, rows, start, action, Known(cur.id));
      GoodMeans();
    }

    lemma GoodMeans()
      ensures Good() <==>
                RowsOk(work.rows, uuid)
                && JobInv(cur, work.rows, At(starts, cur.id), At(actions, cur.id), Known(cur.id))
    {
      hide JobCore;
      hide JobState;
    }

    /** question: answers for exactly the question that was reviewed, or the end of the job. */
    method DecideQuestion(i: nat, choice: Choice, wellFormed: bool) returns (s: Status)
      requires Deciding(i) && work.rows[i].packet.payload.QuestionAsk?
      modifies this`log, this`cur, this`work
      ensures Frame() && Safe() && uuid == old(uuid)
      ensures s == Fine ==> GoodOnceClosed(i) && Evolves(old(cur), cur) && cur.state != Passed
      ensures s == Fine ==>
                && (choice == DenyJob ==> cur.state == Failed || cur.state == Stopping)
                && (choice != DenyJob ==> choice == Answer && wellFormed && cur.state == Running)
                && (choice != DenyJob ==>
                      |log| > |old(log)|
                      && log[|log| - 1] == Entry(cur.id, QuestionReply(old(work.rows)[i].packet.payload.question.id)))
                && cur.handled == old(cur).handled && cur.approved == old(cur).approved
    {
      hide JobInv;
      hide JobCore;
      hide JobState;
      hide FactsOf;
      hide RowsOk;
      hide NoVerdictOpen;
      hide Dispatchable;
      if choice == DenyJob {
        s := Stop(Failed);
      } else {
        if choice != Answer || !wellFormed { return Raised; }
        var q := work.rows[i].packet.payload.question;
        var pending;
        s, pending := GetQuestions();
        if s != Fine { return; }
        if pending.None? || q.owner != cur.session || q !in pending.value { return Raised; }
        s := ReplyQuestion(i, q.id);
      }
      if s == Fine {
        StoppedOnceClosed(i);
      }
    }

    method ReplyQuestion(i: nat, qid: QuestionId) returns (s: Status)
      requires Deciding(i) && work.rows[i].packet.payload.QuestionAsk?
      modifies this`log, this`cur
      ensures Frame() && Safe()
      ensures s == Fine ==> Good() && cur == old(cur).(state := Running)
      ensures s == Fine ==> log == old(log) + [Entry(cur.id, QuestionReply(qid))]
    {
      hide JobInv;
      hide JobCore;
      hide JobState;
      hide FactsOf;
      hide RowsOk;
      ghost var job, rows, start, action, f := cur, work.rows, At(starts, cur.id), At(actions, cur.id), Known(cur.id);
      GoodMeans();
      OpenRowMeans(job, rows, i, start, action, f);
      LiveMeans(job, rows, start, action, f);
      s := CallBenign(QuestionReply(qid), QuestionReply(qid));
      if s != Fine { return; }
      cur := cur.(state := Running);
      CoreKept(job, cur, rows, start, action, f, Known(cur.id));
      LiveInv(cur, rows, start, action, Known(cur.id));
      GoodMeans();
    }

    /** review: pass only what was reviewed; otherwise rework while the charter allows it, else stop. */
    method DecideReview(i: nat, choice: Choice, context: Digest<Packet>, now: Time) returns (s: Status)
      requires Deciding(i) && work.rows[i].packet.payload.ReviewAsk?
      requires context == Digest(work.rows[i].packet) && cur.deadline.Some? && now < cur.deadline.value
      modifies this`log, this`cur, this`work
      ensures Frame() && Safe() && uuid == old(uuid)
      ensures s == Fine ==> GoodOnceClosed(i) && Evolves(old(cur), cur)
      ensures s == Fine ==>
                && (choice == Pass || choice == Fail) && (choice == Pass <==> cur.state == Passed)
                && (choice == Fail && old(cur).redos < cur.charter.maxRedos ==>
                      cur == old(cur).(state := Running, redos := old(cur).redos + 1))
                && (choice == Fail && old(cur).redos >= cur.charter.maxRedos ==>
                      cur.state == Failed || cur.state == Stopping)
                && cur.handled == old(cur).handled && cur.approved == old(cur).approved
    {
      hide JobInv;
      hide JobCore;
      hide JobState;
      hide FactsOf;
      hide RowsOk;
      hide NoVerdictOpen;
      hide Dispatchable;
      hide SoundAcceptance;
      if choice == Pass {
        s := Accept(i, context, now);
        return;
      }
      if choice != Fail { return Raised; }
      if cur.redos < cur.charter.maxRedos {
        s := SendRework(i);
      } else {
        s := Stop(Failed);
        if s == Fine {
          StoppedOnceClosed(i);
        }
      }
    }

    /** The checks before a job passes, in the order the engine makes them. */
    method Accept(i: nat, context: Digest<Packet>, now: Time) returns (s: Status)
      requires Deciding(i) && work.rows[i].packet.payload.ReviewAsk?
      requires context == Digest(work.rows[i].packet) && cur.deadline.Some? && now < cur.deadline.value
      modifies this`log, this`cur
      ensures Frame() && Safe()
      ensures s != Fine ==> cur == old(cur)
      ensures s == Fine ==> GoodOnceClosed(i) && cur.accepted.Some?
      ensures s == Fine ==> cur == old(cur).(state := Passed, accepted := cur.accepted)
    {
      hide JobInv;
      hide JobCore;
      hide JobState;
      hide FactsOf;
      hide RowsOk;
      var packet := work.rows[i].packet;
      GoodMeans();
      OpenRowMeans(cur, work.rows, i, At(starts, cur.id), At(actions, cur.id), Known(cur.id));
      LiveMeans(cur, work.rows, At(starts, cur.id), At(actions, cur.id), Known(cur.id));
      var st;
      s, st := GetStatus();
      if s != Fine { return; }
      if st.None? || !IdleOrUntyped(st.value, cur.session.value) { return Raised; }
      var current: Option<Snapshot> := *;
      if !current.Some? { return Raised; }
      if packet.payload.artifactError || current.value != packet.payload.artifacts { return Raised; }
      if packet.payload.violations { return Raised; }
      if !cur.charter.allowMarks && !Clean(current.value) { return Raised; }
      if cur.charter.kind == SystemInstall
         && (!cur.actionDispatched || packet.payload.approvedAction != cur.approvedAction) {
        return Raised;
      }
      var stagedUnchanged := Verdict();
      if cur.charter.kind == SystemInstall && !stagedUnchanged { return Raised; }
      if cur.approved < cur.charter.minApproved { return Raised; }
      ghost var a := Acceptance(now, context, packet, current.value, st.value);
      MarkPassed(i, a);
      s := Fine;
    }

    method MarkPassed(i: nat, ghost a: Acceptance)
      requires Deciding(i)
      requires OnlyOpen(work.rows, i, cur.id) && Dispatchable(cur, At(starts, cur.id), Known(cur.id))
      requires work.rows[i].packet.payload.ReviewAsk?
      requires SoundAcceptance(a, cur.(accepted := Some(work.rows[i].packet.payload.artifacts)), work.rows)
      modifies this`log, this`cur
      ensures Frame() && Safe() && GoodOnceClosed(i)
      ensures cur == old(cur).(state := Passed, accepted := Some(work.rows[i].packet.payload.artifacts))
    {
      hide JobInv;
      hide JobCore;
      hide JobState;
      hide FactsOf;
      hide OnlyOpen;
      ghost var f := Known(cur.id);
      Observe(Accepted(a));
      var job := cur.(state := Passed, accepted := Some(work.rows[i].packet.payload.artifacts));
      CoreKept(cur, job, work.rows, At(starts, cur.id), At(actions, cur.id), f, Known(cur.id));
      PassedInv(job, work.rows, i, a, At(starts, cur.id), At(actions, cur.id), Known(cur.id));
      cur := job;
    }

    /** The rework prompt: not journalled, so a crash may repeat it, but never for a system install. */
    method SendRework(i: nat) returns (s: Status)
      requires Deciding(i) && work.rows[i].packet.payload.ReviewAsk? && cur.redos < cur.charter.maxRedos
      modifies this`log, this`cur
      ensures Frame() && Safe()
      ensures s == Fine ==> cur.session.Some? && log == old(log) + [Entry(cur.id, Prompt(cur.session.value, Rework))]
      ensures s == Fine ==> GoodOnceClosed(i) && cur == old(cur).(redos := old(cur).redos + 1, state := Running)
    {
      hide JobInv;
      hide JobCore;
      hide JobState;
      hide FactsOf;
      hide OnlyOpen;
      ghost var job, rows, start, action, f := cur, work.rows, At(starts, cur.id), At(actions, cur.id), Known(cur.id);
      GoodMeans();
      OpenRowMeans(job, rows, i, start, action, f);
      LiveMeans(job, rows, start, action, f);
      NoJournalNoExecute(job, rows, start, action, f);
      var sid := cur.session.value;
      ReworkKeeps(job, rows, start, action, f, sid);
      ReworkKeeps(db.jobs[cur.id], db.rows, start, action, f, sid);
      s := Call(Prompt(sid, Rework), Prompt(sid, Rework));
      if s != Fine { return; }
      cur := cur.(redos := cur.redos + 1, state := Running);
      CoreKept(job, cur, rows, start, action, Known(cur.id), Known(cur.id));
      RunningOnceClosed(i);
    }

    /** A job that waited for the verdict on its one open request runs again once that is closed. */
    lemma RunningOnceClosed(i: nat)
      requires Core() && cur.state == Running && Dispatchable(cur, At(starts, cur.id), Known(cur.id))
      requires i < |work.rows| && OnlyOpen(work.rows, i, cur.id)
      ensures GoodOnceClosed(i)
    {
      hide JobCore;
      CloseCore(cur, work.rows, i, At(starts, cur.id), At(actions, cur.id), Known(cur.id));
      CloseOnly(work.rows, i, cur.id);
      LiveInv(cur, Close(work.rows, i), At(starts, cur.id), At(actions, cur.id), Known(cur.id));
    }

    /** system_action: execute the reviewed proposal, once ever. */
    method DecideAction(i: nat, choice: Choice) returns (s: Status)
      requires Deciding(i) && work.rows[i].packet.payload.ActionAsk?
      modifies this`log, this`cur, this`work, this`actions
      ensures Frame() && Safe() && uuid == old(uuid)
      ensures actions.Keys <= old(actions.Keys) + {cur.id}
      ensures s == Fine ==> GoodOnceClosed(i) && Evolves(old(cur), cur) && cur.state != Passed
      ensures s == Fine ==>
                && (choice == Approve || choice == Reject || choice == DenyJob)
                && (choice == Approve <==> cur.actionDispatched)
                && (choice == Approve ==>
                      cur.state == Running && old(At(actions, cur.id)).None? && !old(cur).actionDispatched)
                && (choice != Approve ==> cur.state == Failed || cur.state == Stopping)
                && cur.handled == old(cur).handled && cur.approved == old(cur).approved
    {
      hide JobInv;
      hide JobCore;
      hide JobState;
      hide FactsOf;
      hide RowsOk;
      hide NoVerdictOpen;
      hide Dispatchable;
      hide OnlyOpen;
      if choice != Approve && choice != Reject && choice != DenyJob { return Raised; }
      GoodMeans();
      OpenRowMeans(cur, work.rows, i, At(starts, cur.id), At(actions, cur.id), Known(cur.id));
      if choice != Approve {
        s := Stop(Failed);
        if s == Fine {
          StoppedOnceClosed(i);
        }
        return;
      }
      if cur.actionDispatched { return Raised; }
      if At(actions, cur.id).Some? { return Raised; }   // an interrupted dispatch is never replayed
      var asReviewed := Verdict();                      // request file, package and destination checks
      if !asReviewed { return Raised; }
      s := ExecuteAction(i);
    }

    /** Journal the intent, stage, journal, prompt, journal. */
    method ExecuteAction(i: nat) returns (s: Status)
      requires Deciding(i) && work.rows[i].packet.payload.ActionAsk? && At(actions, cur.id).None?
      modifies this`log, this`cur, this`actions
      ensures Frame() && Safe()
      ensures actions.Keys <= old(actions.Keys) + {cur.id}
      ensures s == Fine ==>
                && GoodOnceClosed(i)
                && cur == old(cur).(actionDispatched := true, approvedAction := cur.approvedAction, state := Running)
    {
      hide JobInv;
      hide JobCore;
      hide JobState;
      hide FactsOf;
      hide RowsOk;
      hide NoVerdictOpen;
      hide OnlyOpen;
      GoodMeans();
      OpenRowMeans(cur, work.rows, i, At(starts, cur.id), At(actions, cur.id), Known(cur.id));
      LiveMeans(cur, work.rows, At(starts, cur.id), At(actions, cur.id), Known(cur.id));
      NoJournalNoExecute(cur, work.rows, At(starts, cur.id), At(actions, cur.id), Known(cur.id));
      s := IssueAction(work.rows[i].packet.payload.proposal);
      if s != Fine { return; }
      TakeAction();
      RunningOnceClosed(i);
    }

    /** The job carries the action that was executed. */
    method TakeAction()
      requires Core() && Known(cur.id).executes == 1
      modifies this`cur
      ensures Core()
      ensures cur == old(cur).(actionDispatched := true, approvedAction := Some(Digest(old(cur).charter.action)),
                               state := Running)
    {
      hide JobCore;
      hide FactsOf;
      hide RowsOk;
      var job := cur.(actionDispatched := true, approvedAction := Some(Digest(cur.charter.action)), state := Running);
      ActionTaken(cur, job, work.rows, At(starts, cur.id), At(actions, cur.id), Known(cur.id));
      cur := job;
    }

    /** The journals around the staging of the package and around the prompt. */
    method IssueAction(proposal: PublicAction) returns (s: Status)
      requires Safe() && Core() && cur.charter.kind == SystemInstall && cur.session.Some?
      requires Known(cur.id).executes == 0 && proposal == cur.charter.action
      modifies this`log, this`actions
      ensures Frame() && Safe()
      ensures actions.Keys <= old(actions.Keys) + {cur.id}
      ensures s == Fine ==> Core() && At(actions, cur.id) == Some(ActionIntent(Digest(proposal), Dispatched))
      ensures s == Fine ==>
                Known(cur.id) == Note(old(Known(cur.id)), Prompt(cur.session.value, Execute(cur.charter.action)))
    {
      hide JobInv;
      hide JobCore;
      hide JobState;
      hide FactsOf;
      hide RowsOk;
      s := JournalAction(ActionIntent(Digest(proposal), Staging));
      if s != Fine { return; }
      var staged := Verdict();      // copy the package and compare its hash
      if !staged { return Raised; }
      s := JournalAction(ActionIntent(Digest(proposal), Dispatching));
      if s != Fine { return; }
      s := SendExecute();
      if s != Fine { return; }
      s := JournalAction(ActionIntent(Digest(proposal), Dispatched));
    }

    method JournalAction(intent: ActionIntent) returns (s: Status)
      requires Safe() && Core() && cur.charter.kind == SystemInstall
      modifies this`actions
      ensures Frame() && Safe() && Core()
      ensures s == Fine ==> At(actions, cur.id) == Some(intent)
      ensures actions.Keys <= old(actions.Keys) + {cur.id}
    {
      hide JobInv;
      hide JobCore;
      hide JobState;
      hide FactsOf;
      hide RowsOk;
      ActionJournalKeeps(cur, work.rows, At(starts, cur.id), At(actions, cur.id), Known(cur.id), intent);
      ActionJournalKeeps(db.jobs[cur.id], db.rows, At(starts, cur.id), At(actions, cur.id), Known(cur.id), intent);
      s := WriteAction(intent);
    }

    /** The one prompt that lets the worker run the installer. */
    method SendExecute() returns (s: Status)
      requires Safe() && Core() && cur.charter.kind == SystemInstall && cur.session.Some?
      requires At(actions, cur.id).Some? && Known(cur.id).executes == 0
      modifies this`log
      ensures Frame() && Safe()
      ensures s == Fine ==>
                && Core()
                && Known(cur.id) == Note(old(Known(cur.id)), Prompt(cur.session.value, Execute(cur.charter.action)))
    {
      hide JobInv;
      hide JobCore;
      hide JobState;
      hide FactsOf;
      hide RowsOk;
      var sid := cur.session.value;
      ExecuteKeeps(cur, work.rows, At(starts, cur.id), At(actions, cur.id), Known(cur.id), sid);
      ExecuteKeeps(db.jobs[cur.id], db.rows, At(starts, cur.id), At(actions, cur.id), Known(cur.id), sid);
      s := Call(Prompt(sid, Execute(cur.charter.action)), Prompt(sid, Execute(cur.charter.action)));
    }

    method DecideLoaded(i: nat, d: Decision, now: Time) returns (s: Status)
      requires Deciding(i) && d.context == Digest(work.rows[i].packet)
      requires cur.deadline.Some? && now < cur.deadline.value
      modifies this`log, this`cur, this`work, this`actions
      ensures Frame() && Safe() && uuid == old(uuid)
      ensures actions.Keys <= old(actions.Keys) + {cur.id}
      ensures s == Fine ==>
                GoodOnceClosed(i) && Evolves(old(cur), cur)
                && DecisionTook(old(cur), cur, old(work.rows)[i].packet.payload, d)
    {
      hide JobInv;
      hide JobCore;
      hide JobState;
      hide FactsOf;
      hide RowsOk;
      hide NoVerdictOpen;
      hide OnlyOpen;
      hide Dispatchable;
      match work.rows[i].packet.payload
      case PermissionAsk(_) => s := DecidePermission(i, d.choice);
      case QuestionAsk(_) => s := DecideQuestion(i, d.choice, d.answersWellFormed);
      case ReviewAsk(_, _, _, _) => s := DecideReview(i, d.choice, d.context, now);
      case ActionAsk(_) => s := DecideAction(i, d.choice);
    }

    // -------------------------------------------------------------------
    // The four entry points
    // -------------------------------------------------------------------

    constructor (maxParallel: nat)
      requires 1 <= maxParallel <= MAX_MAX_PARALLEL
      ensures Inv() && work == db && log == [] && this.maxParallel == maxParallel
    {
      db, work, history := EMPTY, EMPTY, [EMPTY];
      starts, actions, log := map[], map[], [];
      uuid, backend := 0, 0;
      cur := NewJob(0, 0, Charter(FileTask, 900, 12, 1, 0, false, {}, PublicAction("", "", [], []), 14400, 400), 0);
      this.maxParallel := maxParallel;
      new;
      assert InFlightJobs(db.jobs) == {};
    }

    /** A controller process that opens an existing store. */
    constructor Reopen(w: World, backend: nat)
      requires SystemInv(w) && 1 <= w.maxParallel <= MAX_MAX_PARALLEL
      ensures TheWorld() == w && Inv() && work == db && this.backend == backend
    {
      db, work, history := w.db, w.db, w.history;
      starts, actions, log := w.starts, w.actions, w.log;
      uuid, this.backend := w.uuid, backend;
      cur := NewJob(0, 0, Charter(FileTask, 900, 12, 1, 0, false, {}, PublicAction("", "", [], []), 14400, 400), 0);
      maxParallel := w.maxParallel;
    }

    /** Engine.submit: a valid charter becomes a queued job. */
    method Submit(charter: Charter) returns (s: Status, job: Job)
      requires Inv()
      modifies this`db, this`work, this`uuid, this`history
      ensures Inv() && work == db && Grows()
      ensures s == Raised ==> db == old(db)
      ensures s == Fine ==>
                && ValidCharter(charter) && job.state == Queued && job.charter == charter
                && job.id !in old(db).jobs && db.jobs == old(db).jobs[job.id := job]
                && db.rows == old(db).rows && db.order == old(db).order + [job.id]
      ensures !ValidCharter(charter) ==> s == Raised
    {
      hide JobInv;
      hide FactsOf;
      hide AllJobs;
      hide Tables;
      hide DbEvolves;
      hide HandledExplained;
      var now := Now();
      job := NewJob(uuid, uuid + 1, charter, now);
      Begin();
      if !ValidCharter(charter) { return Raised, job; }
      FreshUuids();
      uuid := uuid + 2;
      var workspaceOk := Verdict();
      if !workspaceOk { return Raised, job; }
      work := Db(work.jobs[job.id := job], work.order + [job.id], work.rows);
      SubmitKeepsAll(job);
      SubmitKeepsTables(job);
      HandledKept(db, work);
      s := Commit();
    }

    lemma SubmitKeepsTables(job: Job)
      requires Inv() && job.id + 2 == uuid && job.id !in db.jobs
      ensures Tables(Db(db.jobs[job.id := job], db.order + [job.id], db.rows), uuid)
    {
    }

    lemma FreshUuids()
      requires Inv()
      ensures uuid !in db.jobs
      ensures SystemInv(TheWorld().(uuid := uuid + 2))
    {
      hide AllJobs;
    }

    lemma SubmitKeepsAll(job: Job)
      requires Inv() && ValidCharter(job.charter) && job.id !in db.jobs
      requires job == NewJob(job.id, job.runId, job.charter, job.createdAt)
      ensures AllJobs(Db(db.jobs[job.id := job], db.order + [job.id], db.rows), starts, actions, log)
      ensures DbEvolves(db, Db(db.jobs[job.id := job], db.order + [job.id], db.rows))
      ensures InFlightJobs(db.jobs[job.id := job]) == InFlightJobs(db.jobs)
    {
      hide JobInv;
      hide FactsOf;
      SubmittedInv(db, job, starts, actions, log);
    }

    /** Engine.tick: one bounded cycle over all jobs, in one transaction.  No job stays queued while a
        slot is free, and a job of another backend is failed without a word to the remote. */
    method Tick() returns (s: Status)
      requires Inv()
      modifies this
      ensures Inv() && work == db && Grows()
      ensures DbEvolves(old(db), db)
      ensures s == Raised ==> db == old(db)
      ensures forall j :: j in old(db).jobs ==>
                j in db.jobs && (NoRepeats(old(db).jobs[j].handled) ==> NoRepeats(db.jobs[j].handled))
      ensures s == Fine ==> forall j :: j in old(db).jobs && Misplaced(old(db).jobs[j], old(backend)) ==>
                                          db.jobs[j] == GivenUp(old(db).jobs[j]) && SilentAbout(old(log), log, j)
      ensures s == Fine ==> forall j :: j in db.jobs && db.jobs[j].state == Queued ==>
                |ActiveJobs(old(db).jobs)| + |Launched(old(db), db)| >= maxParallel
    {
      hide AllJobs;
      hide DbEvolves;
      hide Tables;
      hide JobInv;
      hide FactsOf;
      hide SystemInv;
      hide InFlightJobs;
      hide ActiveJobs;
      hide NoRepeats;
      hide HandledExplained;
      hide Follows;
      Begin();
      DbEvolvesReflexive(db);
      SameKeys();
      var active;
      s, active := TickJobs();
      if s == Fine {
        TickFollows(active);
        s := Commit();
      }
    }

    /** The loop over the job table. */
    method TickJobs() returns (s: Status, active: nat)
      requires Open() && work == db
      modifies this`log, this`cur, this`work, this`starts, this`uuid
      ensures Inv() && db == old(db) && old(log) <= log && s != Raised
      ensures s == Fine ==> Open() && |InFlightJobs(work.jobs)| <= maxParallel
      ensures s == Fine ==> forall j :: j in work.jobs ==> Ticked(db.jobs[j], work.jobs[j], active)
      ensures s == Fine ==> active == |ActiveJobs(db.jobs)| + |Launched(db, work)|
      ensures s == Fine ==>
                forall j :: j in db.jobs && Misplaced(db.jobs[j], old(backend)) ==> SilentAbout(old(log), log, j)
      ensures s != Fine ==> work == db
    {
      hide SystemInv;
      hide Ticking;
      hide Ticked;
      hide InFlightJobs;
      hide ActiveJobs;
      hide Launched;
      hide AllJobs;
      hide Tables;
      hide DbEvolves;
      active := |ActiveJobs(work.jobs)|;
      var order := work.order;
      TickingStarts(active);
      for i := 0 to |order|
        invariant Ticking(order, i, active, old(log)) && db == old(db) && backend == old(backend) && old(log) <= log
      {
        s, active := TurnAt(order, i, active, old(log));
        if s != Fine {
          work := db;
          return;
        }
      }
      s := Fine;
      TickingEnds(order, active, old(log));
    }

    /** The loop is about to take its turn with order[i]; `active` is what the source's counter says. */
    ghost predicate Ticking(order: seq<JobId>, i: nat, active: nat, log0: seq<Entry>)
      reads this
    {
      && Open() && work.order == order && i <= |order|
      && (forall k :: 0 <= k < |order| ==> order[k] in work.jobs && order[k] in db.jobs)
      && (forall k :: i <= k < |order| ==> work.jobs[order[k]] == db.jobs[order[k]])
      && (forall k :: 0 <= k < i ==> Ticked(db.jobs[order[k]], work.jobs[order[k]], active))
      && |InFlightJobs(work.jobs)| <= active && |InFlightJobs(work.jobs)| <= maxParallel
      && active == |ActiveJobs(db.jobs)| + |Launched(db, work)|
      && SilentSoFar(log0, log, order, i, db.jobs, backend)
    }

    lemma TickingStarts(active: nat)
      requires Open() && work == db && active == |ActiveJobs(work.jobs)|
      ensures Ticking(work.order, 0, active, log)
    {
      hide AllJobs;
      hide DbEvolves;
      hide InFlightJobs;
      hide ActiveJobs;
      hide SystemInv;
      hide Launched;
      InFlightAreActive(work.jobs);
      InFlightBound();
      AllOrdered();
      NothingLaunched();
      SilentStart(work.order, db.jobs, backend);
    }

    lemma TickingEnds(order: seq<JobId>, active: nat, log0: seq<Entry>)
      requires Ticking(order, |order|, active, log0)
      ensures Inv() && Open() && |InFlightJobs(work.jobs)| <= maxParallel
      ensures forall j :: j in work.jobs ==> Ticked(db.jobs[j], work.jobs[j], active)
      ensures active == |ActiveJobs(db.jobs)| + |Launched(db, work)|
      ensures forall j :: j in db.jobs && Misplaced(db.jobs[j], backend) ==> SilentAbout(log0, log, j)
    {
      hide SystemInv;
      hide AllJobs;
      hide DbEvolves;
      hide InFlightJobs;
      hide ActiveJobs;
      hide Launched;
      hide SilentSoFar;
      hide Tables;
      hide Ticked;
      EveryJobTicked(active);
      EveryMisplacedSilent(log0);
    }

    /** One turn of the loop. */
    method TurnAt(order: seq<JobId>, i: nat, active: nat, ghost log0: seq<Entry>) returns (s: Status, active': nat)
      requires Ticking(order, i, active, log0) && i < |order|
      modifies this`log, this`cur, this`work, this`starts, this`uuid
      ensures Inv() && db == old(db) && backend == old(backend) && history == old(history) && old(log) <= log && s != Raised
      ensures s == Fine ==> Ticking(order, i + 1, active', log0)
    {
      hide AllJobs;
      hide DbEvolves;
      hide Tables;
      hide JobInv;
      hide FactsOf;
      hide SystemInv;
      hide InFlightJobs;
      hide ActiveJobs;
      hide Launched;
      hide NoRepeats;
      hide SilentAbout;
      hide SilentSoFar;
      var j := order[i];
      OrderAt(i);
      QueuedIsUndispatched(j);
      ghost var before, told := work, log;
      var started;
      s, started := TickJob(j, active < maxParallel);
      active' := if started then active + 1 else active;
      if s == Fine {
        LaunchedStep(db, before, work, j, started);
        SilentTurn(log0, told, log, order, i, db.jobs, backend);
      }
    }

    lemma QueuedIsUndispatched(j: JobId)
      requires Open() && j in db.jobs
      ensures db.jobs[j].state == Queued ==> db.jobs[j].dispatchedAt.None?
    {
      hide JobCore;
      hide FactsOf;
    }

    /** What a finished tick has done to one job. */
    ghost predicate Ticked(a: Job, b: Job, active: nat)
      reads this`backend
    {
      && (b.state == Queued ==> active >= maxParallel)
      && (Misplaced(a, backend) ==> b == GivenUp(a))
      && (NoRepeats(a.handled) ==> NoRepeats(b.handled))
    }

    /** A queued job has not been dispatched. */
    lemma NothingLaunched()
      requires Inv()
      ensures Launched(db, db) == {}
    {
      hide JobCore;
      hide FactsOf;
    }

    lemma EveryMisplacedSilent(log0: seq<Entry>)
      requires Open() && SilentSoFar(log0, log, work.order, |work.order|, db.jobs, backend)
      ensures forall j :: j in db.jobs && Misplaced(db.jobs[j], backend) ==> SilentAbout(log0, log, j)
    {
      hide AllJobs;
      hide DbEvolves;
      hide SilentAbout;
      hide Misplaced;
    }

    lemma SameKeys()
      requires Open()
      ensures work.jobs.Keys == db.jobs.Keys
    {
    }

    /** A finished tick may be committed. */
    lemma TickFollows(active: nat)
      requires Open() && forall j :: j in work.jobs ==> j in db.jobs && Ticked(db.jobs[j], work.jobs[j], active)
      ensures Follows(db, work)
    {
      hide AllJobs;
      hide NoRepeats;
      hide Tables;
      HandledKept(db, work);
    }

    lemma EveryJobTicked(active: nat)
      requires Open()
      requires forall k :: 0 <= k < |work.order| ==>
                 work.order[k] in work.jobs && Ticked(db.jobs[work.order[k]], work.jobs[work.order[k]], active)
      ensures forall j :: j in work.jobs ==> Ticked(db.jobs[j], work.jobs[j], active)
    {
      hide AllJobs;
      hide DbEvolves;
    }

    lemma InFlightBound()
      requires Inv()
      ensures |InFlightJobs(db.jobs)| <= maxParallel
    {
    }

    lemma AllOrdered()
      requires Open()
      ensures forall k :: 0 <= k < |work.order| ==> work.order[k] in work.jobs && work.order[k] in db.jobs
    {
    }

    lemma OrderAt(i: nat)
      requires Open() && i < |work.order|
      ensures work.order[i] in work.jobs && work.order[i] in db.jobs
      ensures forall k :: 0 <= k < |work.order| && k != i ==> work.order[k] != work.order[i]
    {
    }

    /** Engine.decide: a structured decision on one open request, in one transaction. */
    method Decide(d: Decision) returns (s: Status)
      requires Inv()
      modifies this
      ensures Inv() && work == db && Grows()
      ensures DbEvolves(old(db), db)
      ensures s == Raised ==> db == old(db)
      ensures s == Fine ==>
                && d.hasReason
                && var found := FindRow(old(db).rows, d.request);
                && found.Some? && DecisionMade(old(db), db, found.value, d) && HandledAfter(old(db), db, found.value)
    {
      hide AllJobs;
      hide DbEvolves;
      hide Tables;
      hide JobInv;
      hide FactsOf;
      hide DecisionMade;
      hide HandledAfter;
      Begin();
      DbEvolvesReflexive(db);
      if !d.hasReason { return Raised; }
      var found := FindRow(work.rows, d.request);
      if !found.Some? { return Raised; }
      var row := work.rows[found.value];
      if row.resolved || Digest(row.packet) != d.context { return Raised; }
      s := DecideOpen(found.value, d);
    }

    /** ... once the open request and its context have been found to match. */
    method DecideOpen(i: nat, d: Decision) returns (s: Status)
      requires Open() && work == db && i < |work.rows|
      requires !work.rows[i].resolved && d.context == Digest(work.rows[i].packet)
      modifies this
      ensures Inv() && work == db && Grows()
      ensures DbEvolves(old(db), db)
      ensures s == Raised ==> db == old(db)
      ensures s == Fine ==> DecisionMade(old(db), db, i, d)
      ensures s == Fine ==> HandledAfter(old(db), db, i)
    {
      hide AllJobs;
      hide DbEvolves;
      hide JobInv;
      hide JobCore;
      hide JobState;
      hide FactsOf;
      hide RowsOk;
      hide Evolves;
      hide Tables;
      hide DecisionTook;
      hide HandledAfter;
      hide HandledExplained;
      DbEvolvesReflexive(db);
      var j := work.rows[i].job;
      RowHasJob(i);
      cur := work.jobs[j];
      LoadedIsGood(j);
      DecidableState();
      var now := Now();
      if Terminal(cur.state) || cur.state == Stopping || !cur.deadline.Some? || now >= cur.deadline.value {
        return Raised;
      }
      if cur.backend != Some(backend) { return Raised; }
      label Loaded:
      s := DecideAndClose(i, d, now);
      StillCommitted@Loaded(j);
      if s != Fine {
        work := db;
        return;
      }
      InFlightAfter(work.jobs, j, cur);
      Savable@Loaded(j);
      work := work.(jobs := work.jobs[j := cur]);
      DecisionHandled(db, work, i, d);
      s := Commit();
    }

    lemma RowHasJob(i: nat)
      requires Open() && i < |work.rows|
      ensures work.rows[i].job in work.jobs
    {
    }

    /** The decision, and the UPDATE that closes its request. */
    method DecideAndClose(i: nat, d: Decision, now: Time) returns (s: Status)
      requires Deciding(i) && d.context == Digest(work.rows[i].packet)
      requires cur.deadline.Some? && now < cur.deadline.value
      modifies this`log, this`cur, this`work, this`actions
      ensures Frame() && Safe() && uuid == old(uuid)
      ensures actions.Keys <= old(actions.Keys) + {cur.id}
      ensures s == Fine ==>
                Good() && Evolves(old(cur), cur) && i < |work.rows| && work.rows[i].resolved
                && DecisionTook(old(cur), cur, old(work.rows)[i].packet.payload, d)
    {
      hide JobInv;
      hide JobCore;
      hide JobState;
      hide FactsOf;
      hide RowsOk;
      hide Evolves;
      hide DecisionTook;
      s := DecideLoaded(i, d, now);
      if s == Fine {
        work := work.(rows := Close(work.rows, i));
        GoodMeans();
      }
    }

    lemma DecidableState()
      requires Good()
      ensures !Terminal(cur.state) && cur.state != Stopping && cur.deadline.Some? ==> InFlight(cur.state)
    {
    }

    /** Engine.cancel. */
    method Cancel(j: JobId) returns (s: Status)
      requires Inv()
      modifies this
      ensures Inv() && work == db && Grows()
      ensures DbEvolves(old(db), db)
      ensures s == Raised ==> db == old(db)
      ensures forall k :: k in old(db).jobs ==> k in db.jobs && db.jobs[k].handled == old(db).jobs[k].handled
      ensures s == Fine ==>
                && j in old(db).jobs && j in db.jobs
                && (if Terminal(old(db).jobs[j].state) then db.jobs[j] == old(db).jobs[j]
                    else db.jobs[j].state == Cancelled
                         || (db.jobs[j].state == Stopping && db.jobs[j].stopTarget == Cancelled))
    {
      hide AllJobs;
      hide DbEvolves;
      hide JobInv;
      hide JobCore;
      hide JobState;
      hide FactsOf;
      hide RowsOk;
      hide Tables;
      hide Evolves;
      hide HandledExplained;
      Begin();
      DbEvolvesReflexive(db);
      if j !in work.jobs { return Raised; }
      var job := work.jobs[j];
      if job.session.Some? && job.backend != Some(backend) { return Raised; }
      if !Terminal(job.state) {
        s := CancelJob(j);
        if s != Fine {
          work := db;
          return;
        }
      }
      InFlightBound();
      HandledKept(db, work);
      s := Commit();
    }

    method CancelJob(j: JobId) returns (s: Status)
      requires Open() && work == db && j in work.jobs && !Terminal(work.jobs[j].state)
      modifies this`log, this`cur, this`work
      ensures Inv() && db == old(db) && history == old(history) && old(log) <= log && s != Raised
      ensures s == Fine ==>
                && Open() && |InFlightJobs(work.jobs)| <= |InFlightJobs(db.jobs)|
                && (forall k :: k in db.jobs ==> k in work.jobs && work.jobs[k].handled == db.jobs[k].handled)
                && (work.jobs[j].state == Cancelled
                    || (work.jobs[j].state == Stopping && work.jobs[j].stopTarget == Cancelled))
    {
      hide AllJobs;
      hide DbEvolves;
      hide JobInv;
      hide JobCore;
      hide JobState;
      hide FactsOf;
      hide RowsOk;
      hide Tables;
      hide Evolves;
      hide InFlightJobs;
      cur := work.jobs[j];
      LoadedIsGood(j);
      label Loaded:
      s := Stop(Cancelled);
      StillCommitted@Loaded(j);
      if s != Fine { return; }
      StopEvolves(db.jobs[j], cur);
      InFlightAfter(work.jobs, j, cur);
      Savable@Loaded(j);
      work := work.(jobs := work.jobs[j := cur]);
    }

    /** The controller restarts, or is pointed at another backend: nothing persistent changes. */
    method Restart(newBackend: nat)
      requires Inv()
      modifies this`work, this`backend
      ensures Inv() && work == db && backend == newBackend
    {
      work := db;
      backend := newBackend;
    }

    /** Any number of operations in any order, any of which may raise or crash. */
    method Run(steps: nat)
      requires Inv()
      modifies this
      ensures Inv() && Grows() && Bounded(history, maxParallel)
    {
      hide SystemInv;
      var i := 0;
      while i < steps
        invariant Inv() && Grows()
      {
        i := i + 1;
        var op: int := *;
        var s;
        if op == 0 {
          var c: Charter := *;
          var job;
          s, job := Submit(c);
        } else if op == 1 {
          s := Tick();
        } else if op == 2 {
          var d: Decision := *;
          s := Decide(d);
        } else if op == 3 {
          var j: JobId := *;
          s := Cancel(j);
        } else {
          var b: nat := *;
          Restart(b);
        }
      }
      EveryCommitBounded();
    }

    lemma EveryCommitBounded()
      requires Inv()
      ensures Bounded(history, maxParallel)
    {
      hide AllJobs;
      hide Tables;
      hide Chain;
      hide Bounded;
    }
  }
}
