/**
 What the engine's invariant means for the system's history: statements about positions in the
 effect log, about the request table and about all databases ever committed.

 Every operation of Engine.Engine keeps SystemInv, whatever the remote answers and wherever the
 process dies, so each lemma here holds after any run.
 */
module EngineTheorems {
  import opened Basics
  import opened EngineData
  import opened Engine

  // ---------------------------------------------------------------------
  // From facts to positions in the log
  // ---------------------------------------------------------------------

  ghost predicate FactsLe(f: Facts, g: Facts) {
    && f.creates <= g.creates && f.initials <= g.initials && f.executes <= g.executes
    && f.reworks <= g.reworks && f.onces <= g.onces
    && f.prompted <= g.prompted && f.executed <= g.executed
    && f.aborted <= g.aborted && f.quieted <= g.quieted && f.acceptances <= g.acceptances
  }

  lemma {:induction false} FactsOnlyGrow(log: seq<Entry>, n: nat, j: JobId)
    requires n <= |log|
    ensures FactsLe(FactsOf(log[..n], j), FactsOf(log, j))
  {
    if n == |log| {
      assert log[..n] == log;
    } else {
      var shorter := log[..|log| - 1];
      FactsOnlyGrow(shorter, n, j);
      assert shorter[..n] == log[..n];
    }
  }

  /** Which at-most-once counter an effect belongs to. */
  datatype Kind = Creation | InitialPrompt | Execution | ReworkPrompt | Uncounted

  function KindOf(e: Effect): Kind {
    match e
    case CreateSession => Creation
    case Prompt(_, Initial) => InitialPrompt
    case Prompt(_, Execute(_)) => Execution
    case Prompt(_, Rework) => ReworkPrompt
    case _ => Uncounted
  }

  function Counter(f: Facts, k: Kind): nat {
    match k
    case Creation => f.creates
    case InitialPrompt => f.initials
    case Execution => f.executes
    case ReworkPrompt => f.reworks
    case Uncounted => 0
  }

  ghost predicate Issued(log: seq<Entry>, i: int, j: JobId, k: Kind) {
    0 <= i < |log| && log[i].job == j && KindOf(log[i].effect) == k
  }

  lemma IssuedIsCounted(log: seq<Entry>, i: nat, j: JobId, k: Kind)
    requires Issued(log, i, j, k) && k != Uncounted
    ensures Counter(FactsOf(log[..i + 1], j), k) == Counter(FactsOf(log[..i], j), k) + 1
  {
    assert log[..i + 1] == log[..i] + [log[i]];
    FactsAppend(log[..i], log[i], j);
  }

  /** Two effects of one kind for one job make the counter at least two. */
  lemma IssuedTwice(log: seq<Entry>, a: nat, b: nat, j: JobId, k: Kind)
    requires a < b && Issued(log, a, j, k) && Issued(log, b, j, k) && k != Uncounted
    ensures Counter(FactsOf(log, j), k) >= 2
  {
    IssuedIsCounted(log, a, j, k);
    IssuedIsCounted(log, b, j, k);
    assert log[..b][..a + 1] == log[..a + 1];
    FactsOnlyGrow(log[..b], a + 1, j);
    FactsOnlyGrow(log, b + 1, j);
  }

  /** A positive counter has an effect behind it. */
  lemma {:induction false} CountedWasIssued(log: seq<Entry>, j: JobId, k: Kind) returns (i: nat)
    requires Counter(FactsOf(log, j), k) > 0
    ensures Issued(log, i, j, k)
  {
    var n := |log| - 1;
    if log[n].job == j && KindOf(log[n].effect) == k {
      i := n;
    } else {
      i := CountedWasIssued(log[..n], j, k);
    }
  }

  // ---------------------------------------------------------------------
  // Dispatch
  // ---------------------------------------------------------------------

  lemma JobHolds(w: World, j: JobId)
    requires SystemInv(w) && j in w.db.jobs
    ensures JobInv(w.db.jobs[j], w.db.rows, At(w.starts, j), At(w.actions, j), FactsOf(w.log, j))
    ensures w.db.jobs[j].id == j
  {
  }

  /** No job ever causes a second POST /session, a second initial prompt or a second execution. */
  lemma AtMostOnce(w: World, a: nat, b: nat, j: JobId, k: Kind)
    requires SystemInv(w)
    requires k == Creation || k == InitialPrompt || k == Execution
    requires Issued(w.log, a, j, k) && Issued(w.log, b, j, k)
    ensures a == b
  {
    JobHolds(w, j);
    if a < b {
      IssuedTwice(w.log, a, b, j, k);
    } else if b < a {
      IssuedTwice(w.log, b, a, j, k);
    }
  }

  /** A committed job in flight, or passed, has its session and its one prompt, and that prompt went to
      that session; its start journal has reached the last stage. */
  lemma InFlightWasStartedOnce(w: World, j: JobId)
    returns (c: nat, p: nat)
    requires SystemInv(w)
    requires j in w.db.jobs && (InFlight(w.db.jobs[j].state) || w.db.jobs[j].state == Passed)
    ensures Issued(w.log, c, j, Creation) && Issued(w.log, p, j, InitialPrompt)
    ensures forall i :: Issued(w.log, i, j, Creation) ==> i == c
    ensures forall i :: Issued(w.log, i, j, InitialPrompt) ==> i == p
    ensures w.db.jobs[j].session.Some? && w.log[p].effect.session == w.db.jobs[j].session.value
    ensures j in w.starts && w.starts[j] == StartIntent(PromptIssued, w.db.jobs[j].session)
  {
    hide SystemInv;
    hide FactsOf;
    var job, f := w.db.jobs[j], FactsOf(w.log, j);
    JobHolds(w, j);
    assert f.prompted == {job.session.value};
    c := CountedWasIssued(w.log, j, Creation);
    p := CountedWasIssued(w.log, j, InitialPrompt);
    PromptedSession(w.log, p, j);
    forall i | Issued(w.log, i, j, Creation)
      ensures i == c
    {
      AtMostOnce(w, i, c, j, Creation);
    }
    forall i | Issued(w.log, i, j, InitialPrompt)
      ensures i == p
    {
      AtMostOnce(w, i, p, j, InitialPrompt);
    }
  }

  lemma PromptedSession(log: seq<Entry>, i: nat, j: JobId)
    requires Issued(log, i, j, InitialPrompt)
    ensures log[i].effect.session in FactsOf(log, j).prompted
  {
    assert log[..i + 1] == log[..i] + [log[i]];
    FactsAppend(log[..i], log[i], j);
    FactsOnlyGrow(log, i + 1, j);
  }

  /** An execution is of the charter's own action, a system install is never told to rework, and one
      that passed was executed exactly once. */
  lemma SystemActionOnce(w: World, i: nat, j: JobId)
    requires SystemInv(w) && j in w.db.jobs
    ensures Issued(w.log, i, j, Execution) ==>
              w.db.jobs[j].charter.kind == SystemInstall && w.log[i].effect.phase.action == w.db.jobs[j].charter.action
    ensures w.db.jobs[j].charter.kind == SystemInstall ==> !Issued(w.log, i, j, ReworkPrompt)
    ensures w.db.jobs[j].charter.kind == SystemInstall && w.db.jobs[j].state == Passed ==>
              exists x :: Issued(w.log, x, j, Execution)
  {
    hide SystemInv;
    hide FactsOf;
    var job, f := w.db.jobs[j], FactsOf(w.log, j);
    JobHolds(w, j);
    if Issued(w.log, i, j, Execution) {
      assert w.log[..i + 1] == w.log[..i] + [w.log[i]];
      FactsAppend(w.log[..i], w.log[i], j);
      FactsOnlyGrow(w.log, i + 1, j);
      assert w.log[i].effect.phase.action in f.executed;
    }
    if Issued(w.log, i, j, ReworkPrompt) {
      IssuedIsCounted(w.log, i, j, ReworkPrompt);
      FactsOnlyGrow(w.log, i + 1, j);
    }
    if job.charter.kind == SystemInstall && job.state == Passed {
      var x := CountedWasIssued(w.log, j, Execution);
    }
  }

  // ---------------------------------------------------------------------
  // Stopping
  // ---------------------------------------------------------------------

  ghost predicate AbortAccepted(log: seq<Entry>, i: int, j: JobId, sid: SessionId) {
    0 <= i < |log| && log[i] == Entry(j, Abort(sid, true))
  }

  ghost predicate SeenQuiet(log: seq<Entry>, i: int, j: JobId, sid: SessionId) {
    0 <= i < |log| && log[i] == Entry(j, StatusSeen(sid, true))
  }

  lemma {:induction false} AbortedMeans(log: seq<Entry>, j: JobId, sid: SessionId) returns (i: nat)
    requires sid in FactsOf(log, j).aborted
    ensures AbortAccepted(log, i, j, sid)
  {
    var n := |log| - 1;
    if log[n] == Entry(j, Abort(sid, true)) {
      i := n;
    } else {
      i := AbortedMeans(log[..n], j, sid);
    }
  }

  lemma {:induction false} QuietedMeans(log: seq<Entry>, j: JobId, sid: SessionId) returns (a: nat, q: nat)
    requires sid in FactsOf(log, j).quieted
    ensures a < q && AbortAccepted(log, a, j, sid) && SeenQuiet(log, q, j, sid)
  {
    var n := |log| - 1;
    if sid in FactsOf(log[..n], j).quieted {
      a, q := QuietedMeans(log[..n], j, sid);
    } else {
      a := AbortedMeans(log[..n], j, sid);
      q := n;
    }
  }

  /** A failed, cancelled or timed-out job that still names its session had its abort accepted, and the
      session was seen idle or gone after that. */
  lemma ConfirmedStop(w: World, j: JobId) returns (a: nat, q: nat)
    requires SystemInv(w)
    requires j in w.db.jobs && StopTarget(w.db.jobs[j].state) && w.db.jobs[j].session.Some?
    ensures a < q
    ensures AbortAccepted(w.log, a, j, w.db.jobs[j].session.value) && SeenQuiet(w.log, q, j, w.db.jobs[j].session.value)
  {
    hide SystemInv;
    JobHolds(w, j);
    a, q := QuietedMeans(w.log, j, w.db.jobs[j].session.value);
  }

  // ---------------------------------------------------------------------
  // Acceptance
  // ---------------------------------------------------------------------

  lemma {:induction false} AcceptanceWasNoted(log: seq<Entry>, j: JobId, a: Acceptance) returns (i: nat)
    requires a in FactsOf(log, j).acceptances
    ensures i < |log| && log[i] == Entry(j, Accepted(a))
  {
    var n := |log| - 1;
    if log[n] == Entry(j, Accepted(a)) {
      i := n;
    } else {
      i := AcceptanceWasNoted(log[..n], j, a);
    }
  }

  /** The replies `once` the remote has acknowledged for job j. */
  ghost function OnceReplies(log: seq<Entry>, j: JobId): set<nat> {
    set i: nat | i < |log| && log[i].job == j && log[i].effect.PermissionReply?
                 && log[i].effect.once && log[i].effect.acked
  }

  lemma {:induction false} OncesAreReplies(log: seq<Entry>, j: JobId)
    ensures FactsOf(log, j).onces == |OnceReplies(log, j)|
  {
    if log == [] {
      assert OnceReplies(log, j) == {};
    } else {
      var n := |log| - 1;
      OncesAreReplies(log[..n], j);
      var before, after := OnceReplies(log[..n], j), OnceReplies(log, j);
      if n in after {
        assert after == before + {n};
      } else {
        assert after == before;
      }
    }
  }

  /** A passed job was accepted on the reviewed evidence, in time, with the approvals its charter asks for
      really given; and the approval counter of any job never runs ahead of the replies posted. */
  lemma AcceptedOnEvidence(w: World, j: JobId)
    requires SystemInv(w) && j in w.db.jobs
    ensures w.db.jobs[j].approved <= |OnceReplies(w.log, j)|
    ensures w.db.jobs[j].state == Passed ==>
              exists i, a :: 0 <= i < |w.log| && w.log[i] == Entry(j, Accepted(a)) && SoundAcceptance(a, w.db.jobs[j], w.db.rows)
    ensures w.db.jobs[j].state == Passed ==> w.db.jobs[j].charter.minApproved <= |OnceReplies(w.log, j)|
  {
    hide FactsOf;
    hide SystemInv;
    var f := FactsOf(w.log, j);
    JobHolds(w, j);
    OncesAreReplies(w.log, j);
    if w.db.jobs[j].state == Passed {
      var a :| a in f.acceptances && SoundAcceptance(a, w.db.jobs[j], w.db.rows);
      var i := AcceptanceWasNoted(w.log, j, a);
    }
  }

  // ---------------------------------------------------------------------
  // Inbox and budgets
  // ---------------------------------------------------------------------

  /** The unresolved requests of job j. */
  ghost function OpenRows(rows: seq<Row>, j: JobId): set<nat> {
    set i: nat | i < |rows| && rows[i].job == j && !rows[i].resolved
  }

  ghost function RowsOf(rows: seq<Row>, j: JobId): set<nat> {
    set i: nat | i < |rows| && rows[i].job == j
  }

  lemma {:induction false} RowCountIsCardinality(rows: seq<Row>, j: JobId)
    ensures RowCount(rows, j) == |RowsOf(rows, j)|
  {
    if rows == [] {
      assert RowsOf(rows, j) == {};
    } else {
      var n := |rows| - 1;
      RowCountIsCardinality(rows[..n], j);
      var before, after := RowsOf(rows[..n], j), RowsOf(rows, j);
      if n in after {
        assert after == before + {n};
      } else {
        assert after == before;
      }
    }
  }

  /** Terminal and queued jobs have an empty inbox; a job waiting for a verdict has exactly the one request
      that the verdict is about. */
  lemma InboxDiscipline(w: World, j: JobId)
    requires SystemInv(w) && j in w.db.jobs
    ensures Terminal(w.db.jobs[j].state) || w.db.jobs[j].state == Queued ==> OpenRows(w.db.rows, j) == {}
    ensures w.db.jobs[j].state == AwaitingReview ==>
              exists i :: OpenRows(w.db.rows, j) == {i} && w.db.rows[i].packet.payload.ReviewAsk?
    ensures w.db.jobs[j].state == AwaitingAction ==>
              exists i :: OpenRows(w.db.rows, j) == {i} && w.db.rows[i].packet.payload.ActionAsk?
                          && w.db.rows[i].packet.payload.proposal == w.db.jobs[j].charter.action
  {
    hide SystemInv;
    hide FactsOf;
    var job, rows, f := w.db.jobs[j], w.db.rows, FactsOf(w.log, j);
    JobHolds(w, j);
    assert forall i: nat :: i in OpenRows(rows, j) <==> OpenAt(rows, i, j);
    if job.state == Queued {
      QueuedMeans(job, rows, At(w.starts, j), At(w.actions, j), f);
    } else if job.state == AwaitingReview {
      var i: int :| OnlyOpen(rows, i, j) && rows[i].packet.payload.ReviewAsk?;
      assert OpenRows(rows, j) == {i};
    } else if job.state == AwaitingAction {
      var i: int :| OnlyOpen(rows, i, j) && rows[i].packet.payload.ActionAsk?;
      assert OpenRows(rows, j) == {i} && RowFits(job, rows[i]);
    }
  }

  /** lead_requests is the number of the job's request rows, and no budget is ever exceeded. */
  lemma BudgetsAreExact(w: World, j: JobId)
    requires SystemInv(w) && j in w.db.jobs
    ensures w.db.jobs[j].leadRequests == |RowsOf(w.db.rows, j)| <= w.db.jobs[j].charter.maxLeadRequests <= MAX_LEAD_REQUESTS
    ensures w.db.jobs[j].redos <= w.db.jobs[j].charter.maxRedos <= MAX_REDOS
  {
    hide SystemInv;
    JobHolds(w, j);
    RowCountIsCardinality(w.db.rows, j);
  }

  // ---------------------------------------------------------------------
  // Runs
  // ---------------------------------------------------------------------

  lemma {:induction false} LaterFollows(history: seq<Db>, i: nat, k: nat, j: JobId)
    requires Chain(history) && i <= k < |history| && j in history[i].jobs
    ensures j in history[k].jobs && Evolves(history[i].jobs[j], history[k].jobs[j])
    decreases k - i
  {
    hide Evolves;
    if i == k {
      EvolvesReflexive(history[i].jobs[j]);
    } else {
      assert DbEvolves(history[i], history[i + 1]);
      LaterFollows(history, i + 1, k, j);
      EvolvesTransitive(history[i].jobs[j], history[i + 1].jobs[j], history[k].jobs[j]);
    }
  }

  /** Between any two commits of a run: a terminal job is never touched again, a stopping one only stops, the
      deadline is written once, and no job comes back to the queue. */
  lemma Absorption(history: seq<Db>, i: nat, k: nat, j: JobId)
    requires Chain(history) && i <= k < |history| && j in history[i].jobs
    ensures j in history[k].jobs
    ensures Terminal(history[i].jobs[j].state) ==> history[k].jobs[j] == history[i].jobs[j]
    ensures history[i].jobs[j].state == Stopping ==>
              history[k].jobs[j].state == Stopping || StopTarget(history[k].jobs[j].state)
    ensures history[i].jobs[j].deadline.Some? ==> history[k].jobs[j].deadline == history[i].jobs[j].deadline
    ensures history[i].jobs[j].state != Queued ==> history[k].jobs[j].state != Queued
  {
    LaterFollows(history, i, k, j);
  }

  /** More different jobs than the limit are never in flight together, in any commit of a run. */
  lemma ParallelBound(w: World, i: nat, js: seq<JobId>)
    requires SystemInv(w) && i < |w.history| && NoRepeats(js)
    requires forall k :: 0 <= k < |js| ==> js[k] in w.history[i].jobs && InFlight(w.history[i].jobs[js[k]].state)
    ensures |js| <= w.maxParallel
  {
    hide Tables;
    hide AllJobs;
    hide Chain;
    AllAmong(js, InFlightJobs(w.history[i].jobs));
  }

  lemma {:induction false} AllAmong(js: seq<JobId>, among: set<JobId>)
    requires NoRepeats(js) && forall k :: 0 <= k < |js| ==> js[k] in among
    ensures |js| <= |among|
    decreases |js|
  {
    if js != [] {
      var n := |js| - 1;
      AllAmong(js[..n], among - {js[n]});
    }
  }

  // ---------------------------------------------------------------------
  // Permissions handled twice
  // ---------------------------------------------------------------------

  lemma PrefixRepeats(a: seq<PermissionId>, b: seq<PermissionId>)
    requires a <= b && NoRepeats(b)
    ensures NoRepeats(a)
  {
    assert forall i :: 0 <= i < |a| ==> a[i] == b[i];
  }

  lemma DoubleDecisionRepeats(a: Db, b: Db, j: JobId)
    requires DoubleDecided(a, b, j)
    ensures !NoRepeats(b.jobs[j].handled)
  {
    var i :| 0 <= i < |a.rows| && i < |b.rows| && OpenAt(a.rows, i, j) && b.rows[i].resolved
             && Repeated(a.jobs[j], b.jobs[j], a.rows[i].packet.payload);
    var s, x := a.jobs[j].handled, a.rows[i].packet.payload.permission.id;
    var k :| 0 <= k < |s| && s[k] == x;
    assert (s + [x])[k] == (s + [x])[|s|];
  }

  /** Without a decision on a permission handled before, a whole run notes no permission twice. */
  lemma {:induction false} CleanSoFar(history: seq<Db>, n: nat, j: JobId)
    requires Chain(history) && n < |history| && history[0] == EMPTY && j in history[n].jobs
    requires forall i :: 0 <= i < n ==> !DoubleDecided(history[i], history[i + 1], j)
    ensures NoRepeats(history[n].jobs[j].handled)
    decreases n
  {
    hide DbEvolves;
    hide DoubleDecided;
    if n > 0 {
      assert Follows(history[n - 1], history[n]);
      if j in history[n - 1].jobs {
        CleanSoFar(history, n - 1, j);
      }
    }
  }

  /**
   After a run `handled` of a job is free of repetitions exactly if between no two consecutive commits of
   that run, the lead decided an open request for a permission that had been handled before.  Nothing else,
   no scan and no other decision, ever repeats an entry.
   */
  lemma HandledRepeatsIffDecidedTwice(w: World, j: JobId)
    requires SystemInv(w) && j in w.db.jobs
    ensures NoRepeats(w.db.jobs[j].handled) <==>
              forall i :: 0 <= i < |w.history| - 1 ==> !DoubleDecided(w.history[i], w.history[i + 1], j)
  {
    hide Tables;
    hide AllJobs;
    hide DoubleDecided;
    hide NoRepeats;
    var n := |w.history| - 1;
    if NoRepeats(w.db.jobs[j].handled) {
      forall i | 0 <= i < n
        ensures !DoubleDecided(w.history[i], w.history[i + 1], j)
      {
        if DoubleDecided(w.history[i], w.history[i + 1], j) {
          DoubleDecisionMeans(w.history[i], w.history[i + 1], j);
          LaterFollows(w.history, i + 1, n, j);
          PrefixRepeats(w.history[i + 1].jobs[j].handled, w.db.jobs[j].handled);
          DoubleDecisionRepeats(w.history[i], w.history[i + 1], j);
        }
      }
    }
    if forall i :: 0 <= i < n ==> !DoubleDecided(w.history[i], w.history[i + 1], j) {
      CleanSoFar(w.history, n, j);
    }
  }

  lemma DoubleDecisionMeans(a: Db, b: Db, j: JobId)
    requires DoubleDecided(a, b, j)
    ensures j in a.jobs && j in b.jobs
  {
  }

  // A store in which it happens next: a running file task whose worker asked for permission 7.  The request
  // went to the lead; a later scan rejected the permission outright; the request is still open.

  function SampleCharter(): Charter {
    Charter(FileTask, 900, 12, 1, 0, false, {}, PublicAction("", "", [], []), 14400, 400)
  }

  function SamplePacket(): Packet {
    Packet(PermissionRequest(1, 7), 0, 1, Some(5), SampleCharter(), PermissionAsk(Permission(7, Some(5), "")))
  }

  function SampleJob(): Job {
    NewJob(0, 1, SampleCharter(), 0).(
      state := AwaitingPermission, session := Some(5), deadline := Some(900), dispatchedAt := Some(1),
      backend := Some(0), leadRequests := 1, handled := [7])
  }

  function SampleWorld(): World {
    var queued := Db(map[0 := NewJob(0, 1, SampleCharter(), 0)], [0], []);
    var now := Db(map[0 := SampleJob()], [0], [Row(PermissionRequest(1, 7), 0, SamplePacket(), false)]);
    var log := [Entry(0, CreateSession), Entry(0, Prompt(5, Initial)), Entry(0, PermissionReply(7, false, true))];
    World(now, map[0 := StartIntent(PromptIssued, Some(5))], map[], log, 2, [EMPTY, queued, now], 1)
  }

  lemma SampleFacts()
    ensures FactsOf(SampleWorld().log, 0) == Facts(1, 1, 0, 0, 0, {5}, {}, {}, {}, {})
  {
    var log := SampleWorld().log;
    assert log[..3] == log && log[..2] == [log[0], log[1]] && log[..2][..1] == [log[0]] && [log[0]][..0] == [];
    FactsAppend([], log[0], 0);
    assert [] + [log[0]] == [log[0]];
    FactsAppend([log[0]], log[1], 0);
    assert [log[0]] + [log[1]] == [log[0], log[1]];
    FactsAppend([log[0], log[1]], log[2], 0);
    assert [log[0], log[1]] + [log[2]] == log;
  }

  lemma SampleJobHolds()
    ensures var w := SampleWorld();
            JobInv(w.db.jobs[0], w.db.rows, At(w.starts, 0), At(w.actions, 0), FactsOf(w.log, 0))
  {
    hide FactsOf;
    SampleFacts();
    var rows := SampleWorld().db.rows;
    assert rows[..0] == [] && RowCount([], 0) == 0;
    assert RowCount(rows, 0) == 1;
  }

  lemma SampleBounded()
    ensures Bounded(SampleWorld().history, 1)
  {
    var h := SampleWorld().history;
    assert InFlightJobs(h[0].jobs) == {} && InFlightJobs(h[1].jobs) == {};
    assert InFlightJobs(h[2].jobs) == {0};
  }

  lemma SampleChain()
    ensures Chain(SampleWorld().history)
  {
    hide InFlightJobs;
    var h := SampleWorld().history;
    assert Follows(h[0], h[1]) && Follows(h[1], h[2]);
  }

  lemma SampleTables()
    ensures Tables(SampleWorld().db, SampleWorld().uuid)
  {
  }

  lemma SampleHolds()
    ensures SystemInv(SampleWorld())
  {
    hide JobInv;
    hide FactsOf;
    hide Tables;
    hide Chain;
    hide Bounded;
    SampleJobHolds();
    SampleTables();
    SampleBounded();
    SampleChain();
  }

  /** The lead rejects permission 7 as well: whenever the decision goes through, 7 stands in `handled` twice. */
  method DecideTwice() returns (e: Engine, s: Status)
    ensures s == Fine ==> 0 in e.db.jobs && !NoRepeats(e.db.jobs[0].handled)
  {
    hide SystemInv;
    hide FindRow;
    SampleHolds();
    SampleRow();
    e := new Engine.Reopen(SampleWorld(), 0);
    s := e.Decide(Decision(PermissionRequest(1, 7), Digest(SamplePacket()), Reject, true, true));
  }

  lemma SampleRow()
    ensures FindRow(SampleWorld().db.rows, PermissionRequest(1, 7)) == Some(0)
    ensures NoRepeats(SampleJob().handled)
  {
  }
}
