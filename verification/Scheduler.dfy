/**
 Dispatch and restore in the older parallel scheduler (src/scheduler.py with src/state_store.py).
 */
module Scheduler {
  import opened Basics

  datatype State = Queued | Starting | Running | PendingApproval | CancelRequested | Cancelled | Done | Fail | Timeout

  /** A job in the memory of the running process. */
  datatype Slot = Slot(state: State, session: string, token: string, restored: bool)

  /** A job as the state store records it; `contractOk` says whether its charter can be resumed. */
  datatype Record = Record(state: State, session: string, claimed: bool, token: string, contractOk: bool)

  /** What left the process, in order. A claim is in the log when it is on disk. */
  datatype Event =
    | Enqueued(id: string)
    | Created(id: string)
    | Claimed(id: string, session: string)
    | Prompted(id: string, session: string)

  predicate Terminal(s: State) {
    s == Done || s == Fail || s == Timeout || s == Cancelled
  }

  /** The states that active_count counts. */
  predicate Active(s: State) {
    s == Starting || s == Running || s == PendingApproval || s == CancelRequested
  }

  /** The states in which a record keeps its session for itself. */
  predicate Holding(s: State) {
    s == Queued || Active(s)
  }

  // ---------------------------------------------------------------------
  // What a log promises
  // ---------------------------------------------------------------------

  /** The job was enqueued, and no session was created for it since. */
  ghost predicate Ready(log: seq<Event>, id: string) {
    exists k :: 0 <= k < |log| && log[k] == Enqueued(id) && forall i :: k < i < |log| ==> log[i] != Created(id)
  }

  /** Sessions are created for ready jobs only; a prompt directly follows its claim, which follows its session. */
  ghost predicate Orderly(log: seq<Event>) {
    && (forall k :: 0 <= k < |log| && log[k].Created? ==> Ready(log[..k], log[k].id))
    && (forall k :: 0 <= k < |log| && log[k].Claimed? ==> k >= 1 && log[k - 1] == Created(log[k].id))
    && (forall k :: 0 <= k < |log| && log[k].Prompted? ==> k >= 1 && log[k - 1] == Claimed(log[k].id, log[k].session))
  }

  function Times(log: seq<Event>, e: Event): nat {
    if log == [] then 0 else Times(log[..|log| - 1], e) + if log[|log| - 1] == e then 1 else 0
  }

  /** How many prompts a job got, in whichever session. */
  function Prompts(log: seq<Event>, id: string): nat {
    if log == [] then 0
    else Prompts(log[..|log| - 1], id) + if log[|log| - 1].Prompted? && log[|log| - 1].id == id then 1 else 0
  }

  lemma ReadyLater(log: seq<Event>, e: Event, id: string)
    requires Ready(log, id) && e != Created(id)
    ensures Ready(log + [e], id)
  {
    var k :| 0 <= k < |log| && log[k] == Enqueued(id) && forall i :: k < i < |log| ==> log[i] != Created(id);
    var more := log + [e];
    assert more[k] == log[k];
    assert forall i :: k < i < |more| ==> more[i] == if i < |log| then log[i] else e;
  }

  lemma NowReady(log: seq<Event>, id: string)
    ensures Ready(log + [Enqueued(id)], id)
  {
    assert (log + [Enqueued(id)])[|log|] == Enqueued(id);
  }

  lemma OrderlyMore(log: seq<Event>, e: Event)
    requires Orderly(log)
    requires e.Created? ==> Ready(log, e.id)
    requires e.Claimed? ==> log != [] && log[|log| - 1] == Created(e.id)
    requires e.Prompted? ==> log != [] && log[|log| - 1] == Claimed(e.id, e.session)
    ensures Orderly(log + [e])
  {
    hide Ready;
    var more := log + [e];
    assert forall k :: 0 <= k < |more| ==> more[k] == if k < |log| then log[k] else e;
    assert forall k :: 0 <= k <= |log| ==> more[..k] == log[..k];
    assert log[..|log|] == log;
  }

  lemma OrderlyPrefix(log: seq<Event>, n: nat)
    requires Orderly(log) && n <= |log|
    ensures Orderly(log[..n])
  {
    hide Ready;
    assert forall k :: 0 <= k <= n ==> log[..n][..k] == log[..k];
  }

  /** A job gets no more sessions than it was enqueued, and has one to come exactly while it is ready. */
  lemma {:induction false} SessionsAtMostEnqueues(log: seq<Event>, id: string)
    requires Orderly(log)
    ensures Times(log, Created(id)) <= Times(log, Enqueued(id))
    ensures Ready(log, id) ==> Times(log, Created(id)) < Times(log, Enqueued(id))
    decreases |log|
  {
    if log != [] {
      var init, e := log[..|log| - 1], log[|log| - 1];
      OrderlyPrefix(log, |log| - 1);
      SessionsAtMostEnqueues(init, id);
      if Ready(log, id) && e != Enqueued(id) {
        ReadyBefore(log, id);
      }
    }
  }

  lemma ReadyBefore(log: seq<Event>, id: string)
    requires log != [] && Ready(log, id) && log[|log| - 1] != Enqueued(id)
    ensures log[|log| - 1] != Created(id) && Ready(log[..|log| - 1], id)
  {
    var k :| 0 <= k < |log| && log[k] == Enqueued(id) && forall i :: k < i < |log| ==> log[i] != Created(id);
    assert log[..|log| - 1][k] == Enqueued(id);
  }

  /** A job gets no more prompts than sessions; one that was just claimed has one to come. */
  lemma {:induction false} PromptsAtMostSessions(log: seq<Event>, id: string)
    requires Orderly(log)
    ensures Prompts(log, id) <= Times(log, Created(id))
    ensures log != [] && (log[|log| - 1] == Created(id) || (log[|log| - 1].Claimed? && log[|log| - 1].id == id)) ==>
              Prompts(log, id) < Times(log, Created(id))
    decreases |log|
  {
    if log != [] {
      OrderlyPrefix(log, |log| - 1);
      PromptsAtMostSessions(log[..|log| - 1], id);
    }
  }

  /** Between two sessions of a job there was an enqueue of that job. */
  lemma EnqueuedBetween(log: seq<Event>, id: string, i: nat, j: nat)
    requires Orderly(log) && i < j < |log| && log[i] == Created(id) && log[j] == Created(id)
    ensures Enqueued(id) in log[i..j]
  {
    assert Ready(log[..j], id);
    var k :| 0 <= k < |log[..j]| && log[..j][k] == Enqueued(id) && forall m :: k < m < |log[..j]| ==> log[..j][m] != Created(id);
    assert log[..j][i] == Created(id);
    assert log[i..j][k - i] == Enqueued(id);
  }

  // ---------------------------------------------------------------------
  // The scheduler
  // ---------------------------------------------------------------------

  /** One dispatch: a session; perhaps its claim; perhaps, after the claim, its prompt. */
  ghost predicate DispatchedIn(log: seq<Event>, log2: seq<Event>, id: string) {
    || log2 == log + [Created(id)]
    || exists sid :: log2 == log + [Created(id), Claimed(id, sid)] || log2 == log + [Created(id), Claimed(id, sid), Prompted(id, sid)]
  }

  lemma DispatchLog(log: seq<Event>, id: string, sid: string)
    ensures DispatchedIn(log, log + [Created(id)], id)
    ensures DispatchedIn(log, log + [Created(id)] + [Claimed(id, sid)], id)
    ensures DispatchedIn(log, log + [Created(id)] + [Claimed(id, sid)] + [Prompted(id, sid)], id)
  {
    assert log + [Created(id)] + [Claimed(id, sid)] == log + [Created(id), Claimed(id, sid)];
    assert log + [Created(id)] + [Claimed(id, sid)] + [Prompted(id, sid)] == log + [Created(id), Claimed(id, sid), Prompted(id, sid)];
  }

  lemma DispatchedLater(log: seq<Event>, log2: seq<Event>, id: string)
    ensures DispatchedIn(log, log2, id) ==> log <= log2 && forall j :: j != id ==> Silent(log, log2, j)
  {
  }

  /** Nothing more left the process about a job. */
  ghost predicate Silent(log: seq<Event>, log2: seq<Event>, id: string) {
    log <= log2 && forall k :: |log| <= k < |log2| ==> log2[k].id != id
  }

  /** The restored jobs of a table, and nothing about them after `log`. */
  ghost predicate RestoredSilent(jobs: map<string, Slot>, log: seq<Event>, log2: seq<Event>) {
    forall id :: id in jobs && jobs[id].restored ==> Silent(log, log2, id)
  }

  lemma StillSilent(jobs: map<string, Slot>, log: seq<Event>, log2: seq<Event>, log3: seq<Event>, id: string)
    requires RestoredSilent(jobs, log, log2) && log <= log2
    requires if id in jobs && jobs[id].restored then log3 == log2 else log3 == log2 || DispatchedIn(log2, log3, id)
    ensures RestoredSilent(jobs, log, log3)
  {
    hide DispatchedIn;
    DispatchedLater(log2, log3, id);
    forall j | j in jobs && jobs[j].restored
      ensures Silent(log, log3, j)
    {
      assert Silent(log, log2, j) && (log3 == log2 || Silent(log2, log3, j));
      assert forall k :: |log| <= k < |log2| ==> log3[k] == log2[k];
    }
  }

  /** One dispatch creates exactly one session, and enqueues nothing. */
  lemma DispatchedOnce(log: seq<Event>, log2: seq<Event>, id: string)
    requires DispatchedIn(log, log2, id)
    ensures Times(log2, Created(id)) == Times(log, Created(id)) + 1
    ensures Times(log2, Enqueued(id)) == Times(log, Enqueued(id))
  {
    var a := log + [Created(id)];
    assert a[..|log|] == log;
    if log2 != a {
      var sid :| log2 == log + [Created(id), Claimed(id, sid)] || log2 == log + [Created(id), Claimed(id, sid), Prompted(id, sid)];
      var b := a + [Claimed(id, sid)];
      assert b[..|a|] == a && b == log + [Created(id), Claimed(id, sid)];
      if log2 != b {
        assert log2[..|b|] == b;
      }
    }
  }

  /** A job id that is enqueued once gets at most one session and one prompt. */
  lemma AtMostOnce(log: seq<Event>, id: string)
    requires Orderly(log) && Times(log, Enqueued(id)) <= 1
    ensures Times(log, Created(id)) <= 1 && Prompts(log, id) <= 1
  {
    SessionsAtMostEnqueues(log, id);
    PromptsAtMostSessions(log, id);
  }

  datatype Reply = Answer(ok: bool, session: string) | Raised | Crashed

  function ActiveIds(jobs: map<string, Slot>): set<string> {
    set id | id in jobs && Active(jobs[id].state)
  }

  function QueuedIds(jobs: map<string, Slot>): set<string> {
    set id | id in jobs && jobs[id].state == Queued
  }

  lemma ActiveAfter(jobs: map<string, Slot>, id: string, s: Slot)
    requires id in jobs
    ensures |ActiveIds(jobs[id := s])|
            == |ActiveIds(jobs)| - (if Active(jobs[id].state) then 1 else 0) + (if Active(s.state) then 1 else 0)
  {
    var a, b := ActiveIds(jobs), ActiveIds(jobs[id := s]);
    assert b - {id} == a - {id};
    assert |a - {id}| == |a| - if id in a then 1 else 0;
    assert |b - {id}| == |b| - if id in b then 1 else 0;
  }

  class Scheduler {
    const maxParallel: nat
    var jobs: map<string, Slot>
    /** The keys of `jobs` in the order in which they were first inserted. */
    var order: seq<string>
    /** The state store: its dictionary, and its file. */
    var mem: map<string, Record>
    var disk: map<string, Record>
    ghost var log: seq<Event>

    constructor (maxParallel: nat, disk: map<string, Record>)
      ensures Inv() && log == [] && this.disk == disk && this.maxParallel == maxParallel
    {
      this.maxParallel := maxParallel;
      jobs, order, mem := map[], [], disk;
      this.disk := disk;
      log := [];
    }

    ghost predicate Listed()
      reads this
    {
      NoRepeats(order) && forall id :: id in jobs <==> id in order
    }

    /** A queued job that was not restored was enqueued and never started; nothing is unsaved. */
    ghost predicate Inv()
      reads this
    {
      && Orderly(log) && Listed() && mem == disk
      && forall id :: id in jobs && jobs[id].state == Queued && !jobs[id].restored ==> Ready(log, id)
    }

    /** The process ends anywhere; a new one reads the file. */
    method Crash()
      requires Orderly(log)
      modifies this`jobs, this`order, this`mem
      ensures Inv() && jobs == map[] && mem == disk
    {
      jobs, order, mem := map[], [], disk;
    }

    /** _persist_job. */
    method Persist(id: string, contractOk: bool)
      requires id in jobs && Inv()
      modifies this`mem, this`disk
      ensures Inv()
      ensures disk == old(disk)[id := Record(jobs[id].state, jobs[id].session, jobs[id].session != "" && jobs[id].token != "",
                                             jobs[id].token, contractOk)]
    {
      var s := jobs[id];
      mem := mem[id := Record(s.state, s.session, s.session != "" && s.token != "", s.token, contractOk)];
      disk := mem;
    }

    /** enqueue_charter: a job id that is given explicitly replaces whatever had that id. */
    method Enqueue(id: string, contractOk: bool)
      requires Inv()
      modifies this
      ensures Inv() && log == old(log) + [Enqueued(id)]
      ensures jobs == old(jobs)[id := Slot(Queued, "", "", false)]
      ensures disk == old(disk)[id := Record(Queued, "", false, "", contractOk)] && ShouldDispatch(id)
    {
      hide Orderly;
      hide Ready;
      if id !in jobs {
        order := order + [id];
      }
      jobs := jobs[id := Slot(Queued, "", "", false)];
      OrderlyMore(log, Enqueued(id));
      NowReady(log, id);
      forall j | Ready(log, j)
        ensures Ready(log + [Enqueued(id)], j)
      {
        ReadyLater(log, Enqueued(id), j);
      }
      log := log + [Enqueued(id)];
      Persist(id, contractOk);
    }

    /** Everything else that the scheduler does to a job: nothing ever puts one back into the queue. */
    method Progress(id: string, state: State, contractOk: bool)
      requires Inv() && id in jobs && state != Queued
      modifies this
      ensures Inv() && log == old(log) && jobs == old(jobs)[id := old(jobs)[id].(state := state)]
    {
      hide Orderly;
      hide Ready;
      jobs := jobs[id := jobs[id].(state := state)];
      Persist(id, contractOk);
    }

    /** restore_from_store: every recorded job comes back as a restored one; incomplete contracts fail. */
    method Restore()
      requires Inv()
      modifies this
      ensures Inv() && log == old(log)
      ensures Restored(old(jobs), old(mem), jobs) && old(mem).Keys <= jobs.Keys
    {
      hide Restored;
      hide Orderly;
      hide Ready;
      hide Listed;
      ghost var was, had := mem, jobs;
      NothingRestored(had, was);
      var todo := mem.Keys;
      while |todo| > 0
        invariant todo <= was.Keys && Inv() && log == old(log)
        invariant Restored(had, was, jobs)
        invariant forall id :: id in was && id !in todo ==> id in jobs
        invariant forall id :: id in todo ==> id in mem && mem[id] == was[id]
        decreases |todo|
      {
        var id :| id in todo;
        todo := todo - {id};
        if id !in jobs {
          RestoreMore(had, was, jobs, id);
          RestoreOne(id);
        }
      }
    }

    method RestoreOne(id: string)
      requires Inv() && id in mem && id !in jobs
      modifies this
      ensures Inv() && log == old(log)
      ensures jobs == old(jobs)[id := SlotOf(old(mem)[id])]
      ensures forall j :: j in old(mem) && j != id ==> j in mem && mem[j] == old(mem)[j]
    {
      hide Orderly;
      hide Ready;
      var r := mem[id];
      order := order + [id];
      jobs := jobs[id := SlotOf(r)];
      if !r.contractOk {
        var contractOk: bool := *;
        Persist(id, contractOk);
      }
    }

    // -------------------------------------------------------------------
    // Starting
    // -------------------------------------------------------------------

    /** POST /session.  The request may have arrived even when the answer did not. */
    method PostSession(id: string) returns (r: Reply)
      requires Inv() && Ready(log, id) && id in jobs && jobs[id].state != Queued
      modifies this
      ensures Inv() && log == old(log) + [Created(id)]
      ensures r.Crashed? ==> jobs == map[]
      ensures !r.Crashed? ==> jobs == old(jobs) && disk == old(disk)
    {
      Logged(Created(id));
      log := log + [Created(id)];
      r := *;
      if r.Crashed? {
        Crash();
      }
    }

    /** POST /session/{sid}/prompt_async, right after the claim. */
    method PostPrompt(id: string, session: string) returns (r: Reply)
      requires Inv() && log != [] && log[|log| - 1] == Claimed(id, session)
      modifies this
      ensures Inv() && log == old(log) + [Prompted(id, session)]
      ensures r.Crashed? ==> jobs == map[]
      ensures !r.Crashed? ==> jobs == old(jobs) && disk == old(disk)
    {
      Logged(Prompted(id, session));
      log := log + [Prompted(id, session)];
      r := *;
      if r.Crashed? {
        Crash();
      }
    }

    /** An event that leaves every queued job ready keeps the invariant. */
    lemma Logged(e: Event)
      requires Inv()
      requires e.Created? ==> Ready(log, e.id) && e.id in jobs && jobs[e.id].state != Queued
      requires e.Claimed? ==> log != [] && log[|log| - 1] == Created(e.id)
      requires e.Prompted? ==> log != [] && log[|log| - 1] == Claimed(e.id, e.session)
      ensures Orderly(log + [e])
      ensures forall id :: id in jobs && jobs[id].state == Queued && !jobs[id].restored ==> Ready(log + [e], id)
    {
      hide Orderly;
      hide Ready;
      hide Listed;
      OrderlyMore(log, e);
      forall id | id in jobs && jobs[id].state == Queued && !jobs[id].restored
        ensures Ready(log + [e], id)
      {
        ReadyLater(log, e, id);
      }
    }

    /** Has another job that is not over claimed this session? */
    ghost predicate Taken(id: string, session: string)
      reads this
    {
      exists j :: j in mem && j != id && mem[j].session == session && mem[j].claimed && Holding(mem[j].state)
    }

    /** claim_session: the claim is flushed before it returns. */
    method Claim(id: string, session: string, token: string) returns (ok: bool)
      requires Inv() && log != [] && log[|log| - 1] == Created(id)
      modifies this`mem, this`disk, this`log
      ensures Inv()
      ensures ok <==> !old(Taken(id, session))
                      && !(id in old(mem) && old(mem)[id].token != "" && old(mem)[id].token != token && old(mem)[id].session != "")
      ensures !ok ==> log == old(log) && disk == old(disk)
      ensures ok ==> log == old(log) + [Claimed(id, session)] && id in disk
                     && disk[id].session == session && disk[id].claimed && disk[id].token == token
                     && disk == old(disk)[id := disk[id]]
    {
      hide Orderly;
      var others := mem.Keys;
      while |others| > 0
        invariant others <= mem.Keys
        invariant forall j :: j in mem && j !in others ==>
                    !(j != id && mem[j].session == session && mem[j].claimed && Holding(mem[j].state))
        decreases |others|
      {
        var j :| j in others;
        others := others - {j};
        if j != id && mem[j].session == session && mem[j].claimed && Holding(mem[j].state) { return false; }
      }
      var r := if id in mem then mem[id] else Record(Queued, "", false, "", true);
      if r.token != "" && r.token != token && r.session != "" { return false; }
      mem := mem[id := r.(session := session, claimed := true, token := token)];
      disk := mem;
      Logged(Claimed(id, session));
      log := log + [Claimed(id, session)];
      return true;
    }

    /** should_dispatch. */
    predicate ShouldDispatch(id: string)
      reads this
    {
      id !in mem || !(Terminal(mem[id].state)
                      || (mem[id].token != "" && mem[id].session != "" && mem[id].claimed)
                      || mem[id].state == CancelRequested)
    }

    /** A change of a slot in memory only. */
    method Put(id: string, s: Slot)
      requires Inv() && id in jobs && (s.state != Queued || s.restored)
      modifies this`jobs
      ensures Inv() && jobs == old(jobs)[id := s]
    {
      hide Orderly;
      hide Ready;
      jobs := jobs[id := s];
    }

    method SetSlot(id: string, s: Slot)
      requires Inv() && id in jobs && (s.state != Queued || s.restored)
      modifies this
      ensures Inv() && log == old(log) && jobs == old(jobs)[id := s]
    {
      hide Orderly;
      hide Ready;
      Put(id, s);
      var contractOk: bool := *;
      Persist(id, contractOk);
    }

    /** _start_job_live: create a session, claim it on disk, and only then prompt it. */
    method StartJobLive(id: string, token: string) returns (r: Reply)
      requires Inv() && id in jobs && jobs[id].state == Starting && token != ""
      requires if jobs[id].restored then jobs[id].session != "" else Ready(log, id)
      modifies this
      ensures Inv() && (r.Crashed? ==> jobs == map[])
      ensures !r.Crashed? ==>
                && id in jobs && jobs == old(jobs)[id := jobs[id]]
                && jobs[id].restored == old(jobs)[id].restored
                && (r.Raised? ==> jobs[id].state == Starting)
                && (r.Answer? ==> jobs[id].state == Running || jobs[id].state == Fail)
      ensures if old(jobs)[id].restored || !old(ShouldDispatch(id)) then log == old(log) else DispatchedIn(old(log), log, id)
    {
      hide Inv;
      hide Ready;
      hide DispatchedIn;
      var s := jobs[id];
      if s.restored && s.session != "" {
        SetSlot(id, s.(state := Running));
        return Answer(true, "");
      }
      if !ShouldDispatch(id) {
        SetSlot(id, s.(state := if s.session != "" then Running else Fail));
        return Answer(true, "");
      }
      r := Dispatch(id, token);
    }

    /** ... for a job that may be dispatched. */
    method Dispatch(id: string, token: string) returns (r: Reply)
      requires Inv() && id in jobs && jobs[id].state == Starting && Ready(log, id)
      modifies this
      ensures Inv() && DispatchedIn(old(log), log, id) && (r.Crashed? ==> jobs == map[])
      ensures !r.Crashed? ==>
                && id in jobs && jobs == old(jobs)[id := jobs[id]]
                && jobs[id].restored == old(jobs)[id].restored
                && (r.Raised? ==> jobs[id].state == Starting)
                && (r.Answer? ==> jobs[id].state == Running || jobs[id].state == Fail)
    {
      hide Inv;
      hide Ready;
      hide DispatchedIn;
      ghost var before := log;
      DispatchLog(before, id, "");
      Put(id, jobs[id].(token := token));
      var created := PostSession(id);
      if !created.Answer? { return created; }
      if !created.ok || created.session == "" {
        SetSlot(id, jobs[id].(state := Fail));
        return Answer(true, "");
      }
      ghost var first := log;
      r := ClaimAndPrompt(id, created.session, token);
      DispatchLog(before, id, created.session);
      assert first == before + [Created(id)];
    }

    method ClaimAndPrompt(id: string, sid: string, token: string) returns (r: Reply)
      requires Inv() && id in jobs && jobs[id].state == Starting && log != [] && log[|log| - 1] == Created(id)
      modifies this
      ensures Inv() && (r.Crashed? ==> jobs == map[])
      ensures log == old(log) || log == old(log) + [Claimed(id, sid)] || log == old(log) + [Claimed(id, sid)] + [Prompted(id, sid)]
      ensures !r.Crashed? ==>
                && id in jobs && jobs == old(jobs)[id := jobs[id]]
                && jobs[id].restored == old(jobs)[id].restored
                && (r.Raised? ==> jobs[id].state == Starting)
                && (r.Answer? ==> jobs[id].state == Running || jobs[id].state == Fail)
    {
      hide Inv;
      hide Taken;
      var claimed := Claim(id, sid, token);
      if !claimed {
        SetSlot(id, jobs[id].(state := Fail));
        return Answer(true, "");
      }
      Put(id, jobs[id].(session := sid));
      var prompted := PostPrompt(id, sid);
      if !prompted.Answer? { return prompted; }
      SetSlot(id, jobs[id].(state := if prompted.ok then Running else Fail));
      return Answer(true, "");
    }

    /** The first queued job in the order of the dictionary. */
    method NextQueued() returns (found: bool, id: string)
      requires Listed()
      ensures found ==> id in jobs && jobs[id].state == Queued
      ensures found ==> exists k :: 0 <= k < |order| && order[k] == id
                                    && forall j :: 0 <= j < k ==> jobs[order[j]].state != Queued
      ensures !found ==> QueuedIds(jobs) == {}
    {
      var i := 0;
      id := "";
      while i < |order|
        invariant i <= |order|
        invariant forall k :: 0 <= k < i ==> jobs[order[k]].state != Queued
      {
        if jobs[order[i]].state == Queued { return true, order[i]; }
        i := i + 1;
      }
      return false, id;
    }

    /**
     try_start_queued: start queued jobs while there is room.  A restored job is never dispatched: it is
     monitored if it has a session, and fails if it has none.
     */
    method TryStartQueued() returns (crashed: bool)
      requires Inv()
      modifies this
      ensures Inv() && old(log) <= log
      ensures old(|ActiveIds(jobs)|) <= maxParallel ==> |ActiveIds(jobs)| <= maxParallel
      ensures crashed ==> jobs == map[]
      ensures !crashed ==> |ActiveIds(jobs)| >= maxParallel || QueuedIds(jobs) == {}
      ensures !crashed ==> jobs.Keys == old(jobs).Keys
      ensures RestoredSilent(old(jobs), old(log), log)
    {
      hide Orderly;
      hide Ready;
      hide Listed;
      hide ActiveIds;
      hide QueuedIds;
      hide RestoredSilent;
      hide DispatchedIn;
      ghost var had := jobs;
      SilentNow(had, log);
      while |ActiveIds(jobs)| < maxParallel
        invariant Inv() && old(log) <= log && jobs.Keys == old(jobs).Keys
        invariant old(|ActiveIds(jobs)|) <= maxParallel ==> |ActiveIds(jobs)| <= maxParallel
        invariant RestoredSilent(had, old(log), log)
        invariant forall id :: id in jobs ==> jobs[id].restored == had[id].restored
        decreases QueuedIds(jobs)
      {
        var found, id := NextQueued();
        if !found { break; }
        ghost var before := jobs;
        ghost var earlier := log;
        crashed := StartOne(id);
        DispatchedLater(earlier, log, id);
        StillSilent(had, old(log), earlier, log, id);
        if crashed {
          NoneActive();
          return;
        }
        FewerQueued(before, id, jobs[id]);
        ActiveAfter(before, id, jobs[id]);
      }
      crashed := false;
    }

    lemma QueuedIsReady(id: string)
      requires Inv() && id in jobs && jobs[id].state == Queued && !jobs[id].restored
      ensures Ready(log, id)
    {
    }

    /** new_dispatch_token: never empty. */
    method NewToken() returns (token: string)
      ensures token != ""
    {
      token := *;
      if token == "" {
        token := "0";
      }
    }

    method StartOne(id: string) returns (crashed: bool)
      requires Inv() && id in jobs && jobs[id].state == Queued
      modifies this
      ensures Inv() && (crashed ==> jobs == map[])
      ensures !crashed ==> id in jobs && jobs == old(jobs)[id := jobs[id]] && (jobs[id].state == Running || jobs[id].state == Fail)
                           && jobs[id].restored == old(jobs)[id].restored
      ensures if old(jobs)[id].restored || !old(ShouldDispatch(id)) then log == old(log) else DispatchedIn(old(log), log, id)
    {
      hide Inv;
      hide Ready;
      hide DispatchedIn;
      var s := jobs[id];
      if s.restored {
        SetSlot(id, s.(state := if s.session != "" then Running else Fail));
        return false;
      }
      QueuedIsReady(id);
      Put(id, s.(state := Starting));
      var token := NewToken();
      var r := StartJobLive(id, token);
      if r.Crashed? { return true; }
      if r.Raised? {
        SetSlot(id, jobs[id].(state := Fail));
      }
      return false;
    }

    /**
     Any run of the scheduler: jobs are enqueued, started and moved on in any order, and the process may end
     and be restarted at any point, with or without a restore.
     */
    method Run(steps: nat)
      requires Inv()
      modifies this
      ensures Inv() && old(log) <= log
      ensures forall id :: Times(log, Enqueued(id)) <= 1 ==> Times(log, Created(id)) <= 1 && Prompts(log, id) <= 1
    {
      hide Orderly;
      hide Ready;
      hide Listed;
      hide Restored;
      hide RestoredSilent;
      var i := 0;
      while i < steps
        invariant Inv() && old(log) <= log
      {
        i := i + 1;
        var op: int := *;
        var id: string := *;
        var contractOk: bool := *;
        if op == 0 {
          Enqueue(id, contractOk);
        } else if op == 1 {
          var crashed := TryStartQueued();
        } else if op == 2 {
          var state: State := *;
          if id in jobs && state != Queued {
            Progress(id, state, contractOk);
          }
        } else if op == 3 {
          Restore();
        } else {
          Crash();
        }
      }
      forall id | Times(log, Enqueued(id)) <= 1
        ensures Times(log, Created(id)) <= 1 && Prompts(log, id) <= 1
      {
        AtMostOnce(log, id);
      }
    }
  }

  /**
   The bound is exact: enqueuing an id again makes the store forget the claim, and a second session follows,
   whatever the remote answers.
   */
  method StartTwice(s: Scheduler, id: string) returns (crashed: bool)
    requires s.Inv()
    modifies s
    ensures s.Inv()
    ensures !crashed ==> Times(s.log, Created(id)) == Times(old(s.log), Created(id)) + 2
                         && Times(s.log, Enqueued(id)) == Times(old(s.log), Enqueued(id)) + 2
  {
    crashed := EnqueueAndStart(s, id);
    if !crashed {
      crashed := EnqueueAndStart(s, id);
    }
  }

  method EnqueueAndStart(s: Scheduler, id: string) returns (crashed: bool)
    requires s.Inv()
    modifies s
    ensures s.Inv()
    ensures !crashed ==> Times(s.log, Created(id)) == Times(old(s.log), Created(id)) + 1
                         && Times(s.log, Enqueued(id)) == Times(old(s.log), Enqueued(id)) + 1
  {
    ghost var first := s.log;
    s.Enqueue(id, true);
    ghost var before := s.log;
    assert before[..|first|] == first;
    crashed := s.StartOne(id);
    DispatchedOnce(before, s.log, id);
  }

  lemma SilentNow(jobs: map<string, Slot>, log: seq<Event>)
    ensures RestoredSilent(jobs, log, log)
  {
  }

  lemma NoneActive()
    ensures ActiveIds(map[]) == {}
  {
  }

  lemma FewerQueued(jobs: map<string, Slot>, id: string, s: Slot)
    requires id in jobs && jobs[id].state == Queued && s.state != Queued
    ensures QueuedIds(jobs[id := s]) < QueuedIds(jobs)
  {
    assert id in QueuedIds(jobs) && id !in QueuedIds(jobs[id := s]);
  }

  /** The slot that a record is restored to. */
  function SlotOf(r: Record): Slot {
    Slot(if r.contractOk then r.state else Fail, r.session, r.token, true)
  }

  /** The jobs that were there, and restored ones from the records. */
  ghost predicate Restored(had: map<string, Slot>, was: map<string, Record>, jobs: map<string, Slot>) {
    && (forall id :: id in had ==> id in jobs && jobs[id] == had[id])
    && (forall id :: id in jobs && id !in had ==> id in was && jobs[id] == SlotOf(was[id]))
  }

  lemma NothingRestored(had: map<string, Slot>, was: map<string, Record>)
    ensures Restored(had, was, had)
  {
  }

  lemma RestoreMore(had: map<string, Slot>, was: map<string, Record>, jobs: map<string, Slot>, id: string)
    requires Restored(had, was, jobs) && id in was && id !in jobs
    ensures Restored(had, was, jobs[id := SlotOf(was[id])])
  {
  }
}
