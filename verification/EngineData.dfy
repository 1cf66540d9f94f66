/**
 The values the supervised job engine works on: jobs, request rows, journals,
 the log of remote effects, and the invariant that ties them together.

 Everything here is pure.  The engine itself, with its transactions and its
 crashes, is the class in Engine.dfy.
 */
module EngineData {
  import opened Basics

  type JobId = nat
  type RunId = nat
  type SessionId = nat
  type PermissionId = nat
  type QuestionId = nat
  type Time = int

  /** SHA-256 over canonical JSON, taken to be injective: a digest is the value it was made of. */
  datatype Digest<T> = Digest(of: T)

  // ---------------------------------------------------------------------
  // Charters and jobs
  // ---------------------------------------------------------------------

  datatype TaskKind = FileTask | SystemInstall

  /** The part of a system action a worker may see and propose. */
  datatype PublicAction = PublicAction(filename: string, sha256: string, arguments: seq<string>, effects: seq<string>)

  datatype Charter = Charter(
    kind: TaskKind, timeoutSec: int, maxLeadRequests: int, maxRedos: int, minApproved: int,
    allowMarks: bool, forbiddenTools: set<string>, action: PublicAction, maxWall: int, maxSteps: int)

  const MAX_TIMEOUT := 7200
  const MAX_LEAD_REQUESTS := 100
  const MAX_REDOS := 3

  /** The bounds validate_charter and validate_system_action enforce. */
  predicate ValidCharter(c: Charter) {
    && 10 <= c.timeoutSec <= MAX_TIMEOUT
    && 1 <= c.maxLeadRequests <= MAX_LEAD_REQUESTS
    && 0 <= c.maxRedos <= MAX_REDOS
    && 0 <= c.minApproved <= c.maxLeadRequests
    && (c.kind == SystemInstall ==> c.maxRedos == 0)
  }

  datatype State =
    | Queued | Starting | Running
    | AwaitingPermission | AwaitingReview | AwaitingAction
    | Stopping
    | Passed | Failed | Cancelled | TimedOut

  predicate Terminal(s: State) {
    s == Passed || s == Failed || s == Cancelled || s == TimedOut
  }

  predicate StopTarget(s: State) {
    s == Failed || s == Cancelled || s == TimedOut
  }

  /** Dispatched and not being stopped. */
  predicate InFlight(s: State) {
    s == Running || s == AwaitingPermission || s == AwaitingReview || s == AwaitingAction
  }

  datatype Artifact = Artifact(sha256: string, contaminated: bool)
  type Snapshot = map<string, Artifact>

  predicate Clean(s: Snapshot) {
    forall name :: name in s ==> !s[name].contaminated
  }

  datatype Job = Job(
    id: JobId, runId: RunId, state: State, charter: Charter, session: Option<SessionId>,
    createdAt: Time, deadline: Option<Time>, dispatchedAt: Option<Time>, backend: Option<nat>,
    scans: nat, leadRequests: nat, approved: nat, redos: nat, handled: seq<PermissionId>,
    stopTarget: State, abortSent: bool,
    actionDispatched: bool, approvedAction: Option<Digest<PublicAction>>,
    scanErrors: nat, statusMisses: nat, accepted: Option<Snapshot>)

  function NewJob(id: JobId, run: RunId, charter: Charter, now: Time): Job {
    Job(id, run, Queued, charter, None, now, None, None, None, 0, 0, 0, 0, [], Failed, false,
        false, None, 0, 0, None)
  }

  // ---------------------------------------------------------------------
  // Remote answers
  // ---------------------------------------------------------------------

  datatype Permission = Permission(id: PermissionId, owner: Option<SessionId>, content: string)
  datatype Question = Question(id: QuestionId, owner: Option<SessionId>, content: string)

  datatype Activity = Idle | Gone | Other

  /** One row of the status map; `kind` is None when the row has no type field. */
  datatype SessionInfo = SessionInfo(kind: Option<Activity>, gone: bool)

  /** GET /session/status; `deleted` is the optional list of deleted session ids. */
  datatype Statuses = Statuses(info: map<SessionId, SessionInfo>, deleted: Option<set<SessionId>>)

  /** What stop() takes as confirmation: absent from the map, or listed as idle. */
  predicate Quiet(st: Statuses, sid: SessionId) {
    sid in st.info ==> st.info[sid].kind == Some(Idle)
  }

  /** What an acceptance takes as idle: here a row without a type also counts. */
  predicate IdleOrUntyped(st: Statuses, sid: SessionId) {
    sid in st.info ==> st.info[sid].kind == None || st.info[sid].kind == Some(Idle)
  }

  predicate ExplicitlyGone(st: Statuses, sid: SessionId) {
    || (st.deleted.Some? && sid in st.deleted.value)
    || (sid in st.info && (st.info[sid].gone || st.info[sid].kind == Some(Gone)))
  }

  /** foreign_desktop_busy: a session that is not ours and not idle, or a shape it does not know. */
  predicate ForeignBusy(st: Statuses, owned: set<SessionId>) {
    st.deleted.Some? || exists sid :: sid in st.info && sid !in owned && st.info[sid].kind != Some(Idle)
  }

  datatype Role = User | Assistant | OtherRole
  datatype ToolUse = ToolUse(tool: string, completed: bool)
  datatype Message = Message(role: Role, failed: bool, finishedStop: bool, tools: seq<ToolUse>)

  /** The messages after the last user turn; all of them when there is no user turn. */
  function AfterLastUser(ms: seq<Message>): (r: seq<Message>)
    ensures |r| <= |ms| && r == ms[|ms| - |r|..]
    ensures forall m :: m in r ==> m.role != User
    ensures |r| < |ms| ==> ms[|ms| - |r| - 1].role == User
  {
    if ms == [] || ms[|ms| - 1].role == User then []
    else
      var rest := AfterLastUser(ms[..|ms| - 1]);
      rest + [ms[|ms| - 1]]
  }

  function Assistants(ms: seq<Message>): seq<Message> {
    if ms == [] then []
    else if ms[0].role == Assistant then [ms[0]] + Assistants(ms[1..])
    else Assistants(ms[1..])
  }

  function Tools(ms: seq<Message>): seq<ToolUse> {
    if ms == [] then [] else ms[0].tools + Tools(ms[1..])
  }

  predicate UsedCompleted(tools: seq<ToolUse>, names: set<string>) {
    exists i :: 0 <= i < |tools| && tools[i].completed && tools[i].tool in names
  }

  const SHELL_TOOLS: set<string> := {"powershell", "bash", "shell", "exec"}

  // ---------------------------------------------------------------------
  // Requests to the lead
  // ---------------------------------------------------------------------

  /** Permission and question ids are digests of the run and the remote id; the rest are uuids. */
  datatype RequestId = PermissionRequest(run: RunId, pid: PermissionId)
                     | QuestionRequest(run: RunId, qid: QuestionId)
                     | Uuid(n: nat)

  datatype Payload =
    | PermissionAsk(permission: Permission)
    | QuestionAsk(question: Question)
    | ReviewAsk(artifacts: Snapshot, artifactError: bool, violations: bool,
                approvedAction: Option<Digest<PublicAction>>)
    | ActionAsk(proposal: PublicAction)

  datatype Packet = Packet(id: RequestId, job: JobId, runId: RunId, session: Option<SessionId>,
                           charter: Charter, payload: Payload)

  datatype Row = Row(id: RequestId, job: JobId, packet: Packet, resolved: bool)

  datatype Choice = Once | Reject | DenyJob | Answer | Pass | Fail | Approve | Unknown
  datatype Decision = Decision(request: RequestId, context: Digest<Packet>, choice: Choice,
                               hasReason: bool, answersWellFormed: bool)

  /** Primary-key lookup in the request table. */
  function FindRow(rows: seq<Row>, id: RequestId): (r: Option<nat>)
    ensures r.Some? ==> r.value < |rows| && rows[r.value].id == id
    ensures r.None? ==> forall i :: 0 <= i < |rows| ==> rows[i].id != id
  {
    if rows == [] then None
    else if rows[|rows| - 1].id == id then Some(|rows| - 1)
    else FindRow(rows[..|rows| - 1], id)
  }

  /** SELECT count(*) FROM requests WHERE job_id = j. */
  function RowCount(rows: seq<Row>, j: JobId): nat {
    if rows == [] then 0
    else RowCount(rows[..|rows| - 1], j) + (if rows[|rows| - 1].job == j then 1 else 0)
  }

  predicate OpenAt(rows: seq<Row>, i: int, j: JobId) {
    0 <= i < |rows| && rows[i].job == j && !rows[i].resolved
  }

  predicate AllResolved(rows: seq<Row>, j: JobId) {
    forall i :: 0 <= i < |rows| ==> !OpenAt(rows, i, j)
  }

  /** Exactly one unresolved request of job j, and it is the one at i. */
  ghost predicate OnlyOpen(rows: seq<Row>, i: int, j: JobId) {
    OpenAt(rows, i, j) && forall k :: OpenAt(rows, k, j) ==> k == i
  }

  /** UPDATE requests SET resolved=1 WHERE job_id = j. */
  function ResolveJob(rows: seq<Row>, j: JobId): (r: seq<Row>)
    ensures |r| == |rows|
    ensures forall i :: 0 <= i < |rows| ==>
              r[i] == if rows[i].job == j then rows[i].(resolved := true) else rows[i]
  {
    seq(|rows|, i requires 0 <= i < |rows| => if rows[i].job == j then rows[i].(resolved := true) else rows[i])
  }

  /** Only job j's rows may differ: new ones are j's, old ones keep everything but j's resolved flag. */
  ghost predicate RowsFrame(a: seq<Row>, b: seq<Row>, j: JobId) {
    && |a| <= |b|
    && (forall i :: 0 <= i < |a| ==> b[i] == a[i] || (a[i].job == j && b[i] == a[i].(resolved := true)))
    && (forall i :: |a| <= i < |b| ==> b[i].job == j)
  }

  lemma RowCountAppend(rows: seq<Row>, r: Row, j: JobId)
    ensures RowCount(rows + [r], j) == RowCount(rows, j) + (if r.job == j then 1 else 0)
  {
    assert (rows + [r])[..|rows|] == rows;
  }

  lemma {:induction false} RowCountSame(a: seq<Row>, b: seq<Row>, j: JobId)
    requires |a| == |b|
    requires forall i :: 0 <= i < |a| ==> a[i].job == b[i].job
    ensures RowCount(a, j) == RowCount(b, j)
  {
    if a != [] {
      RowCountSame(a[..|a| - 1], b[..|b| - 1], j);
    }
  }

  lemma {:induction false} RowCountFrame(a: seq<Row>, b: seq<Row>, j: JobId, k: JobId)
    requires RowsFrame(a, b, j) && k != j
    ensures RowCount(b, k) == RowCount(a, k)
  {
    if |b| == |a| {
      RowCountSame(a, b, k);
    } else {
      RowCountFrame(a, b[..|b| - 1], j, k);
    }
  }

  // ---------------------------------------------------------------------
  // Journals and the effect log
  // ---------------------------------------------------------------------

  datatype StartStage = Creating | Created | PromptIssued
  datatype StartIntent = StartIntent(stage: StartStage, session: Option<SessionId>)

  datatype ActionStage = Staging | Dispatching | Dispatched
  datatype ActionIntent = ActionIntent(action: Digest<PublicAction>, stage: ActionStage)

  datatype Phase = Initial | Execute(action: PublicAction) | Rework

  /** What an acceptance was based on, noted at the moment it was made. */
  datatype Acceptance = Acceptance(at: Time, context: Digest<Packet>, packet: Packet, current: Snapshot,
                                   statuses: Statuses)

  /** Calls to the remote and observations of it.  A call is logged when it is issued, whether or
      not its outcome is known; `acked` says that it returned. */
  datatype Effect =
    | CreateSession
    | Prompt(session: SessionId, phase: Phase)
    | PermissionReply(pid: PermissionId, once: bool, acked: bool)
    | QuestionReply(qid: QuestionId)
    | Abort(session: SessionId, acked: bool)
    | StatusSeen(session: SessionId, quiet: bool)
    | Accepted(acceptance: Acceptance)

  datatype Entry = Entry(job: JobId, effect: Effect)

  /** What the log says about one job. */
  datatype Facts = Facts(
    creates: nat, initials: nat, executes: nat, reworks: nat, onces: nat,
    prompted: set<SessionId>, executed: set<PublicAction>,
    aborted: set<SessionId>, quieted: set<SessionId>, acceptances: set<Acceptance>)

  const NO_FACTS := Facts(0, 0, 0, 0, 0, {}, {}, {}, {}, {})

  function Note(f: Facts, e: Effect): Facts {
    match e
    case CreateSession => f.(creates := f.creates + 1)
    case Prompt(sid, Initial) => f.(initials := f.initials + 1, prompted := f.prompted + {sid})
    case Prompt(_, Execute(a)) => f.(executes := f.executes + 1, executed := f.executed + {a})
    case Prompt(_, Rework) => f.(reworks := f.reworks + 1)
    case PermissionReply(_, once, acked) => if once && acked then f.(onces := f.onces + 1) else f
    case QuestionReply(_) => f
    case Abort(sid, acked) => if acked then f.(aborted := f.aborted + {sid}) else f
    case StatusSeen(sid, quiet) =>
      if quiet && sid in f.aborted then f.(quieted := f.quieted + {sid}) else f
    case Accepted(a) => f.(acceptances := f.acceptances + {a})
  }

  function FactsOf(log: seq<Entry>, j: JobId): Facts {
    if log == [] then NO_FACTS
    else
      var f := FactsOf(log[..|log| - 1], j);
      var e := log[|log| - 1];
      if e.job == j then Note(f, e.effect) else f
  }

  lemma FactsAppend(log: seq<Entry>, e: Entry, j: JobId)
    ensures FactsOf(log + [e], j) == if e.job == j then Note(FactsOf(log, j), e.effect) else FactsOf(log, j)
  {
    assert (log + [e])[..|log|] == log;
  }

  /** f grew into g by effects that no at-most-once clause counts. */
  ghost predicate GrewBenignly(f: Facts, g: Facts) {
    && g.creates == f.creates && g.initials == f.initials && g.executes == f.executes
    && g.reworks == f.reworks && g.prompted == f.prompted && g.executed == f.executed
    && f.onces <= g.onces && f.aborted <= g.aborted && f.quieted <= g.quieted
    && f.acceptances <= g.acceptances
  }

  /** Effects that only a dispatching step may issue. */
  predicate Counted(e: Effect) {
    e.CreateSession? || e.Prompt?
  }

  // ---------------------------------------------------------------------
  // The invariant of one job
  // ---------------------------------------------------------------------

  /** One row of job `job`, as the engine files it. */
  predicate RowFits(job: Job, r: Row) {
    && r.packet.id == r.id && r.packet.job == job.id && r.packet.charter == job.charter
    && r.packet.runId == job.runId
    && (r.packet.payload.ActionAsk? ==>
          job.charter.kind == SystemInstall && r.packet.payload.proposal == job.charter.action)
  }

  /** What holds of a job whatever its state, even in the middle of a step. */
  ghost predicate JobCore(job: Job, rows: seq<Row>, start: Option<StartIntent>, action: Option<ActionIntent>,
                          f: Facts)
  {
    && ValidCharter(job.charter)
    // at most one create, one initial prompt, one execution
    && f.creates <= 1 && f.initials <= 1 && f.executes <= 1
    && (start.None? ==> f.creates == 0)
    && (start.None? || start.value.stage != PromptIssued ==> f.initials == 0)
    && (f.initials == 0 ==> f.prompted == {})
    && (action.None? ==> f.executes == 0)
    && f.executed <= {job.charter.action}
    && (job.charter.kind == FileTask ==> action.None?)
    && (job.charter.kind == SystemInstall ==> f.reworks == 0)
    && (job.actionDispatched ==>
          f.executes == 1 && job.approvedAction == Some(Digest(job.charter.action)))
    // budgets
    && job.leadRequests == RowCount(rows, job.id)
    && job.leadRequests <= job.charter.maxLeadRequests
    && job.redos <= job.charter.maxRedos
    && job.approved <= f.onces
    // an abort on record was accepted by the remote
    && (job.abortSent && job.session.Some? ==> job.session.value in f.aborted)
    && (forall i :: 0 <= i < |rows| && rows[i].job == job.id ==> RowFits(job, rows[i]))
  }

  ghost predicate Dispatchable(job: Job, start: Option<StartIntent>, f: Facts) {
    && start.Some? && start.value.stage == PromptIssued
    && f.creates == 1 && f.initials == 1
    && job.session.Some? && f.prompted == {job.session.value}
    && start.value.session == job.session
    && job.deadline.Some? && job.backend.Some?
  }

  /** No review and no action request is open. */
  ghost predicate NoVerdictOpen(rows: seq<Row>, j: JobId) {
    forall i :: OpenAt(rows, i, j) ==>
      rows[i].packet.payload.PermissionAsk? || rows[i].packet.payload.QuestionAsk?
  }

  ghost predicate JobState(job: Job, rows: seq<Row>, start: Option<StartIntent>, f: Facts) {
    match job.state
    case Queued =>
      && job.session.None? && job.deadline.None? && job.dispatchedAt.None?
      && !job.abortSent && !job.actionDispatched
      && job.leadRequests == 0 && job.handled == []
    case Starting => false
    case Running => Dispatchable(job, start, f) && NoVerdictOpen(rows, job.id)
    case AwaitingPermission => Dispatchable(job, start, f) && NoVerdictOpen(rows, job.id)
    case AwaitingReview =>
      && Dispatchable(job, start, f)
      && exists i :: OnlyOpen(rows, i, job.id) && rows[i].packet.payload.ReviewAsk?
    case AwaitingAction =>
      && Dispatchable(job, start, f) && !job.actionDispatched
      && exists i :: OnlyOpen(rows, i, job.id) && rows[i].packet.payload.ActionAsk?
    case Stopping => job.session.Some? && StopTarget(job.stopTarget)
    case Passed =>
      && AllResolved(rows, job.id)
      && Dispatchable(job, start, f)
      && exists a :: a in f.acceptances && SoundAcceptance(a, job, rows)
    case Failed => AllResolved(rows, job.id) && StopConfirmed(job, f)
    case Cancelled => AllResolved(rows, job.id) && StopConfirmed(job, f)
    case TimedOut => AllResolved(rows, job.id) && StopConfirmed(job, f)
  }

  /** Either the controller gave the session up, or its abort was accepted and it was then seen quiet. */
  ghost predicate StopConfirmed(job: Job, f: Facts) {
    job.session.Some? ==> job.session.value in f.quieted
  }

  /** Everything an acceptance must rest on. */
  ghost predicate SoundAcceptance(a: Acceptance, job: Job, rows: seq<Row>) {
    && job.session.Some? && job.deadline.Some? && a.at < job.deadline.value
    && a.context == Digest(a.packet)
    && (exists i :: 0 <= i < |rows| && rows[i].job == job.id && rows[i].packet == a.packet)
    && a.packet.charter == job.charter && a.packet.runId == job.runId
    && IdleOrUntyped(a.statuses, job.session.value)
    && a.packet.payload.ReviewAsk?
    && a.current == a.packet.payload.artifacts
    && !a.packet.payload.artifactError && !a.packet.payload.violations
    && (job.charter.allowMarks || Clean(a.current))
    && job.charter.minApproved <= job.approved
    && job.accepted == Some(a.current)
    && (job.charter.kind == SystemInstall ==>
          job.actionDispatched && a.packet.payload.approvedAction == job.approvedAction)
  }

  ghost predicate JobInv(job: Job, rows: seq<Row>, start: Option<StartIntent>, action: Option<ActionIntent>,
                         f: Facts)
  {
    JobCore(job, rows, start, action, f) && JobState(job, rows, start, f)
  }

  /** One job may turn into another across a commit. */
  ghost predicate Evolves(a: Job, b: Job) {
    && b.id == a.id && b.charter == a.charter && b.runId == a.runId
    && (Terminal(a.state) ==> b == a)
    && (a.state == Stopping ==> b.state == Stopping || StopTarget(b.state))
    && (b.state == Queued ==> a.state == Queued)
    && (a.deadline.Some? ==> b.deadline == a.deadline)
    && (a.dispatchedAt.Some? ==> b.dispatchedAt == a.dispatchedAt)
    && (a.state != Queued ==> b.session == a.session || b.session.None?)
    && a.scans <= b.scans && a.leadRequests <= b.leadRequests && a.approved <= b.approved && a.redos <= b.redos
    && a.handled <= b.handled
    && (a.actionDispatched ==> b.actionDispatched)
  }

  lemma DispatchTimeStays(a: Job, b: Job)
    requires Evolves(a, b) && a.dispatchedAt.Some?
    ensures b.dispatchedAt == a.dispatchedAt
  {
  }

  lemma EvolvesReflexive(a: Job)
    ensures Evolves(a, a)
  {
  }

  lemma EvolvesTransitive(a: Job, b: Job, c: Job)
    requires Evolves(a, b) && Evolves(b, c)
    ensures Evolves(a, c)
  {
  }

  // ---------------------------------------------------------------------
  // Frame lemmas
  // ---------------------------------------------------------------------

  /** A job is not disturbed by what is done to another job's rows. */
  lemma OtherJobUndisturbed(job: Job, a: seq<Row>, b: seq<Row>, j: JobId, start: Option<StartIntent>,
                            action: Option<ActionIntent>, f: Facts)
    requires JobInv(job, a, start, action, f) && RowsFrame(a, b, j) && job.id != j
    ensures JobInv(job, b, start, action, f)
  {
    RowCountFrame(a, b, j, job.id);
    assert forall i :: OpenAt(b, i, job.id) <==> OpenAt(a, i, job.id);
    if job.state == AwaitingReview {
      var i :| OnlyOpen(a, i, job.id) && a[i].packet.payload.ReviewAsk?;
      assert OnlyOpen(b, i, job.id);
    } else if job.state == AwaitingAction {
      var i :| OnlyOpen(a, i, job.id) && a[i].packet.payload.ActionAsk?;
      assert OnlyOpen(b, i, job.id);
    } else if job.state == Passed {
      var c :| c in f.acceptances && SoundAcceptance(c, job, a);
      var i :| 0 <= i < |a| && a[i].job == job.id && a[i].packet == c.packet;
      assert b[i].packet == c.packet;
      assert SoundAcceptance(c, job, b);
    }
  }

  /** Effects that no at-most-once clause counts keep a job's invariant. */
  lemma BenignFactsKeepJob(job: Job, rows: seq<Row>, start: Option<StartIntent>, action: Option<ActionIntent>,
                           f: Facts, g: Facts)
    requires JobInv(job, rows, start, action, f) && GrewBenignly(f, g)
    ensures JobInv(job, rows, start, action, g)
  {
  }

  // ---------------------------------------------------------------------
  // How single steps keep the invariant
  // ---------------------------------------------------------------------

  /** Two records of one job that agree on everything JobCore counts. */
  ghost predicate SameCore(a: Job, b: Job) {
    && b.id == a.id && b.charter == a.charter && b.runId == a.runId
    && b.leadRequests == a.leadRequests
    && b.actionDispatched == a.actionDispatched && b.approvedAction == a.approvedAction
  }

  lemma CoreKept(a: Job, b: Job, rows: seq<Row>, start: Option<StartIntent>, action: Option<ActionIntent>,
                 f: Facts, g: Facts)
    requires JobCore(a, rows, start, action, f) && SameCore(a, b) && GrewBenignly(f, g)
    requires b.abortSent && b.session.Some? ==>
               b.session.value in g.aborted || (a.abortSent && a.session == b.session)
    requires b.approved <= a.approved || b.approved <= g.onces
    requires b.redos <= a.redos || b.redos <= a.charter.maxRedos
    ensures JobCore(b, rows, start, action, g)
  {
  }

  /** A stop that was confirmed leaves a terminal job with an empty inbox. */
  lemma StoppedInv(job: Job, rows: seq<Row>, start: Option<StartIntent>, action: Option<ActionIntent>, f: Facts)
    requires JobCore(job, rows, start, action, f) && StopTarget(job.state) && StopConfirmed(job, f)
    ensures JobInv(job, ResolveJob(rows, job.id), start, action, f)
  {
    RowCountSame(rows, ResolveJob(rows, job.id), job.id);
  }

  lemma StoppingInv(job: Job, rows: seq<Row>, start: Option<StartIntent>, action: Option<ActionIntent>, f: Facts)
    requires JobCore(job, rows, start, action, f)
    requires job.state == Stopping && job.session.Some? && StopTarget(job.stopTarget)
    ensures JobInv(job, rows, start, action, f)
  {
  }

  lemma LiveInv(job: Job, rows: seq<Row>, start: Option<StartIntent>, action: Option<ActionIntent>, f: Facts)
    requires JobCore(job, rows, start, action, f) && Dispatchable(job, start, f)
    requires NoVerdictOpen(rows, job.id) && (job.state == Running || job.state == AwaitingPermission)
    ensures JobInv(job, rows, start, action, f)
  {
  }

  /** The job is waiting for the lead's verdict on the last request filed. */
  lemma AwaitingInv(job: Job, rows: seq<Row>, start: Option<StartIntent>, action: Option<ActionIntent>, f: Facts)
    requires JobCore(job, rows, start, action, f) && Dispatchable(job, start, f)
    requires rows != [] && OpenAt(rows, |rows| - 1, job.id) && AllResolved(rows[..|rows| - 1], job.id)
    requires
      || (job.state == AwaitingReview && rows[|rows| - 1].packet.payload.ReviewAsk?)
      || (job.state == AwaitingAction && rows[|rows| - 1].packet.payload.ActionAsk? && !job.actionDispatched)
    ensures JobInv(job, rows, start, action, f)
  {
    forall k | OpenAt(rows, k, job.id)
      ensures k == |rows| - 1
    {
      if k < |rows| - 1 {
        assert OpenAt(rows[..|rows| - 1], k, job.id);
      }
    }
    assert OnlyOpen(rows, |rows| - 1, job.id);
  }

  /** A request is filed and counted in one go. */
  lemma FiledCore(job: Job, rows: seq<Row>, r: Row, start: Option<StartIntent>, action: Option<ActionIntent>,
                  f: Facts)
    requires JobCore(job, rows, start, action, f) && r.job == job.id && RowFits(job, r)
    requires job.leadRequests < job.charter.maxLeadRequests
    ensures JobCore(job.(leadRequests := job.leadRequests + 1), rows + [r], start, action, f)
  {
    RowCountAppend(rows, r, job.id);
  }

  /** Closing requests changes nothing JobCore counts. */
  lemma ClosedCore(job: Job, a: seq<Row>, b: seq<Row>, start: Option<StartIntent>, action: Option<ActionIntent>,
                   f: Facts)
    requires JobCore(job, a, start, action, f) && RowsFrame(a, b, job.id) && |a| == |b|
    ensures JobCore(job, b, start, action, f)
    ensures NoVerdictOpen(a, job.id) ==> NoVerdictOpen(b, job.id)
    ensures AllResolved(a, job.id) ==> AllResolved(b, job.id)
  {
    RowCountSame(a, b, job.id);
    assert forall i :: OpenAt(b, i, job.id) ==> OpenAt(a, i, job.id);
  }

  /** g is f after starting steps of a job that had not been dispatched. */
  ghost predicate GrewByStart(f: Facts, g: Facts, start: Option<StartIntent>) {
    && g.executes == f.executes && g.reworks == f.reworks && g.executed == f.executed
    && g.onces == f.onces && g.aborted == f.aborted && g.quieted == f.quieted && g.acceptances == f.acceptances
    && g.creates <= 1 && g.initials <= 1
    && start.Some? && (start.value.stage != PromptIssued ==> g.initials == 0)
    && (g.initials == 0 ==> g.prompted == {})
  }

  lemma StartedCore(job: Job, rows: seq<Row>, start: Option<StartIntent>, start': Option<StartIntent>,
                    action: Option<ActionIntent>, f: Facts, g: Facts)
    requires JobCore(job, rows, start, action, f) && GrewByStart(f, g, start')
    ensures JobCore(job, rows, start', action, g)
  {
  }

  lemma {:induction false} NoRows(rows: seq<Row>, j: JobId)
    requires RowCount(rows, j) == 0
    ensures forall i :: 0 <= i < |rows| ==> rows[i].job != j
  {
    if rows != [] {
      NoRows(rows[..|rows| - 1], j);
    }
  }

  /** A queued job that has no start journal has been told to nobody. */
  lemma QueuedMeans(job: Job, rows: seq<Row>, start: Option<StartIntent>, action: Option<ActionIntent>, f: Facts)
    requires JobInv(job, rows, start, action, f) && job.state == Queued
    ensures start.None? ==> f.creates == 0 && f.initials == 0 && f.prompted == {}
    ensures AllResolved(rows, job.id) && NoVerdictOpen(rows, job.id)
    ensures job.session.None? && job.deadline.None? && job.dispatchedAt.None?
    ensures !job.abortSent && job.handled == []
  {
    NoRows(rows, job.id);
  }

  lemma LiveMeans(job: Job, rows: seq<Row>, start: Option<StartIntent>, action: Option<ActionIntent>, f: Facts)
    requires JobInv(job, rows, start, action, f) && InFlight(job.state)
    ensures Dispatchable(job, start, f) && job.session.Some? && job.deadline.Some?
    ensures job.state == Running || job.state == AwaitingPermission ==> NoVerdictOpen(rows, job.id)
  {
  }

  /** Which kind of request is open tells the state of an in-flight job. */
  lemma OpenRowMeans(job: Job, rows: seq<Row>, i: int, start: Option<StartIntent>, action: Option<ActionIntent>,
                     f: Facts)
    requires JobInv(job, rows, start, action, f) && InFlight(job.state) && OpenAt(rows, i, job.id)
    ensures RowFits(job, rows[i])
    ensures rows[i].packet.payload.ReviewAsk? <==> job.state == AwaitingReview
    ensures rows[i].packet.payload.ActionAsk? <==> job.state == AwaitingAction
    ensures job.state == AwaitingReview || job.state == AwaitingAction ==> OnlyOpen(rows, i, job.id)
    ensures job.state == AwaitingAction ==> job.charter.kind == SystemInstall && !job.actionDispatched
  {
  }

  lemma AbortOnRecord(job: Job, rows: seq<Row>, start: Option<StartIntent>, action: Option<ActionIntent>, f: Facts)
    requires JobCore(job, rows, start, action, f)
    ensures job.abortSent && job.session.Some? ==> job.session.value in f.aborted
  {
  }

  lemma StreaksIrrelevant(a: Job, b: Job, rows: seq<Row>, start: Option<StartIntent>, action: Option<ActionIntent>,
                          f: Facts)
    requires b == a.(statusMisses := b.statusMisses, scanErrors := b.scanErrors)
    requires JobCore(a, rows, start, action, f) && JobState(a, rows, start, f)
    ensures JobCore(b, rows, start, action, f) && JobState(b, rows, start, f)
  {
    if a.state == Passed {
      var c :| c in f.acceptances && SoundAcceptance(c, a, rows);
      assert SoundAcceptance(c, b, rows);
    }
  }

  /** The committed record of a queued job survives anything its first dispatch may do. */
  lemma StartedQueued(job: Job, rows: seq<Row>, start: Option<StartIntent>, start': Option<StartIntent>,
                      action: Option<ActionIntent>, f: Facts, g: Facts)
    requires JobInv(job, rows, start, action, f) && job.state == Queued && GrewByStart(f, g, start')
    ensures JobInv(job, rows, start', action, g)
  {
  }

  // ---------------------------------------------------------------------
  // Decisions
  // ---------------------------------------------------------------------

  /** UPDATE requests SET resolved=1 WHERE id = (the row at i). */
  function Close(rows: seq<Row>, i: nat): (r: seq<Row>)
    requires i < |rows|
    ensures |r| == |rows| && r[i].resolved
    ensures forall k :: 0 <= k < |rows| && k != i ==> r[k] == rows[k]
  {
    rows[i := rows[i].(resolved := true)]
  }

  lemma CloseCore(job: Job, rows: seq<Row>, i: nat, start: Option<StartIntent>, action: Option<ActionIntent>, f: Facts)
    requires JobCore(job, rows, start, action, f) && i < |rows| && rows[i].job == job.id
    ensures JobCore(job, Close(rows, i), start, action, f)
  {
    RowCountSame(rows, Close(rows, i), job.id);
  }

  /** A job that is live, stopping or stopped does not mind a request being closed. */
  lemma CloseKeepsJob(job: Job, rows: seq<Row>, i: nat, start: Option<StartIntent>, action: Option<ActionIntent>,
                      f: Facts)
    requires JobInv(job, rows, start, action, f) && i < |rows| && rows[i].job == job.id
    requires job.state == Running || job.state == Stopping || StopTarget(job.state)
    ensures JobInv(job, Close(rows, i), start, action, f)
  {
    CloseCore(job, rows, i, start, action, f);
    assert forall k :: OpenAt(Close(rows, i), k, job.id) ==> OpenAt(rows, k, job.id);
  }

  /** After the one open request of a job is closed, none is open. */
  lemma CloseOnly(rows: seq<Row>, i: nat, j: JobId)
    requires i < |rows| && OnlyOpen(rows, i, j)
    ensures AllResolved(Close(rows, i), j) && NoVerdictOpen(Close(rows, i), j)
  {
    assert forall k :: OpenAt(Close(rows, i), k, j) ==> OpenAt(rows, k, j) && k != i;
  }

  lemma PassedInv(job: Job, rows: seq<Row>, i: nat, a: Acceptance, start: Option<StartIntent>,
                  action: Option<ActionIntent>, f: Facts)
    requires JobCore(job, rows, start, action, f) && Dispatchable(job, start, f) && job.state == Passed
    requires i < |rows| && OnlyOpen(rows, i, job.id)
    requires a in f.acceptances && SoundAcceptance(a, job, rows)
    ensures JobInv(job, Close(rows, i), start, action, f)
  {
    CloseCore(job, rows, i, start, action, f);
    CloseOnly(rows, i, job.id);
    var k :| 0 <= k < |rows| && rows[k].job == job.id && rows[k].packet == a.packet;
    assert Close(rows, i)[k].packet == a.packet;
    assert SoundAcceptance(a, job, Close(rows, i));
  }

  lemma ReworkKeeps(job: Job, rows: seq<Row>, start: Option<StartIntent>, action: Option<ActionIntent>, f: Facts,
                    sid: SessionId)
    requires job.charter.kind == FileTask
    ensures JobCore(job, rows, start, action, f) ==> JobCore(job, rows, start, action, Note(f, Prompt(sid, Rework)))
    ensures JobInv(job, rows, start, action, f) ==> JobInv(job, rows, start, action, Note(f, Prompt(sid, Rework)))
  {
  }

  lemma ExecuteKeeps(job: Job, rows: seq<Row>, start: Option<StartIntent>, action: Option<ActionIntent>, f: Facts,
                     sid: SessionId)
    requires job.charter.kind == SystemInstall && action.Some? && f.executes == 0
    ensures JobCore(job, rows, start, action, f) ==>
              JobCore(job, rows, start, action, Note(f, Prompt(sid, Execute(job.charter.action))))
    ensures JobInv(job, rows, start, action, f) ==>
              JobInv(job, rows, start, action, Note(f, Prompt(sid, Execute(job.charter.action))))
  {
  }

  lemma ActionJournalKeeps(job: Job, rows: seq<Row>, start: Option<StartIntent>, action: Option<ActionIntent>,
                           f: Facts, intent: ActionIntent)
    requires job.charter.kind == SystemInstall
    ensures JobCore(job, rows, start, action, f) ==> JobCore(job, rows, start, Some(intent), f)
    ensures JobInv(job, rows, start, action, f) ==> JobInv(job, rows, start, Some(intent), f)
  {
  }

  /** Without an action journal nothing was executed. */
  lemma NoJournalNoExecute(job: Job, rows: seq<Row>, start: Option<StartIntent>, action: Option<ActionIntent>,
                           f: Facts)
    requires JobCore(job, rows, start, action, f)
    ensures action.None? ==> f.executes == 0
    ensures job.charter.kind == SystemInstall ==> job.charter.maxRedos == 0
  {
  }

  lemma ActionTaken(a: Job, b: Job, rows: seq<Row>, start: Option<StartIntent>, action: Option<ActionIntent>, f: Facts)
    requires JobCore(a, rows, start, action, f) && f.executes == 1
    requires b == a.(actionDispatched := true, approvedAction := Some(Digest(a.charter.action)), state := b.state)
    ensures JobCore(b, rows, start, action, f)
  {
  }

  lemma ApprovedIsReplied(job: Job, rows: seq<Row>, start: Option<StartIntent>, action: Option<ActionIntent>, f: Facts)
    requires JobCore(job, rows, start, action, f)
    ensures job.approved <= f.onces
  {
  }
}
