/**
 The accounts of the agy pool as plain rows, and what each pool operation does to them
 (src/execution_backend/agy_account_pool.py).
 */
module LeaseRows {
  import opened Basics

  datatype State = Available | Busy | Exhausted | Cooldown | Unavailable

  /** One account as the pool file stores it; lease_until has whole seconds. */
  datatype Row = Row(
    id: string,
    home: string,
    state: State,
    cooldown: Option<real>,
    pid: Option<int>,
    until: Option<int>,
    lease: Option<string>,
    token: Option<string>)

  /** What one look at the machine showed: the time, live pids, readable start tokens, free HOME locks. */
  datatype Env = Env(now: real, alive: set<int>, tokens: map<int, string>, free: set<string>)

  /** What a finished run's output was classified as. */
  datatype Class = Harmless | Blocked | Limited

  // ---------------------------------------------------------------------
  // One row
  // ---------------------------------------------------------------------

  function Cleared(r: Row): Row {
    r.(pid := None, until := None, lease := None, token := None)
  }

  function CoolRow(r: Row, now: real): Row {
    if r.state == Cooldown && (r.cooldown.None? || now >= r.cooldown.value) then r.(state := Available, cooldown := None)
    else r
  }

  predicate PidAlive(pid: Option<int>, e: Env) {
    pid.Some? && pid.value > 0 && pid.value in e.alive
  }

  predicate Stale(r: Row, e: Env) {
    r.state == Busy && if r.until.Some? then e.now >= r.until.value as real else !PidAlive(r.pid, e)
  }

  function SweepRow(r: Row, e: Env): Row {
    if Stale(r, e) then Cleared(r.(state := Available)) else r
  }

  predicate HolderGone(r: Row, e: Env) {
    && r.pid.Some?
    && (!PidAlive(r.pid, e)
        || (r.token.Some? && r.pid.value in e.tokens && e.tokens[r.pid.value] != r.token.value))
  }

  predicate Reclaimable(r: Row, e: Env, me: int) {
    r.state == Busy && r.pid.Some? && r.pid.value != me && HolderGone(r, e) && r.home in e.free
  }

  function ReclaimRow(r: Row, e: Env, me: int): Row {
    if Reclaimable(r, e, me) then Cleared(r.(state := Available)) else r
  }

  function LeaseUntil(now: real, sec: real): int {
    (now + if sec < 1.0 then 1.0 else sec).Floor
  }

  function ReserveRow(r: Row, now: real, sec: real, pid: int, lease: string, token: Option<string>): Row {
    r.(state := Busy, pid := Some(pid), until := Some(LeaseUntil(now, sec)), lease := Some(lease), token := token)
  }

  /** The lease id decides when both sides have one, else the pid does. */
  predicate Owns(r: Row, lease: Option<string>, me: int) {
    if lease.Some? && r.lease.Some? then lease == r.lease else r.pid.None? || r.pid.value == me
  }

  function ClassRow(r: Row, c: Class, coolUntil: real): Row {
    match c
    case Harmless => r
    case Blocked => r.(state := Unavailable, cooldown := None)
    case Limited => r.(state := Cooldown, cooldown := Some(coolUntil))
  }

  function SettleRow(r: Row, c: Class, coolUntil: real): Row {
    var q := ClassRow(r, c, coolUntil);
    if q.state == Busy then Cleared(q.(state := Available))
    else if q.pid.Some? || q.until.Some? || q.lease.Some? then Cleared(q)
    else q
  }

  /** May a finished run with this lease id write its result to the row? */
  predicate Writable(r: Row, lease: Option<string>, me: int) {
    r.state == Busy ==> Owns(r, lease, me)
  }

  function ReleaseRow(r: Row): Row {
    Cleared(if r.state == Busy then r.(state := Available) else r)
  }

  // ---------------------------------------------------------------------
  // All rows
  // ---------------------------------------------------------------------

  datatype Op =
    | Cool(now: real)
    | Sweep(e: Env)
    | Reclaim(e: Env, me: int)
    | Reserve(k: nat, now: real, sec: real, pid: int, lease: string, token: Option<string>)
    | Settle(k: nat, c: Class, coolUntil: real)
    | Release(k: nat)

  function OpRow(r: Row, k: nat, op: Op): Row {
    match op
    case Cool(now) => CoolRow(r, now)
    case Sweep(e) => SweepRow(r, e)
    case Reclaim(e, me) => ReclaimRow(r, e, me)
    case Reserve(i, now, sec, pid, lease, token) => if i == k then ReserveRow(r, now, sec, pid, lease, token) else r
    case Settle(i, c, coolUntil) => if i == k then SettleRow(r, c, coolUntil) else r
    case Release(i) => if i == k then ReleaseRow(r) else r
  }

  function ApplyOp(rows: seq<Row>, op: Op): (r: seq<Row>)
    ensures |r| == |rows|
  {
    seq(|rows|, k requires 0 <= k < |rows| => OpRow(rows[k], k, op))
  }

  function Replay(rows: seq<Row>, ops: seq<Op>): (r: seq<Row>)
    ensures |r| == |rows|
  {
    if ops == [] then rows else ApplyOp(Replay(rows, ops[..|ops| - 1]), ops[|ops| - 1])
  }

  lemma ReplayMore(rows: seq<Row>, ops: seq<Op>, op: Op)
    ensures Replay(rows, ops + [op]) == ApplyOp(Replay(rows, ops), op)
  {
    assert (ops + [op])[..|ops|] == ops;
  }

  /** No operation renames an account or moves its HOME. */
  lemma {:induction false} ReplayKeepsNames(rows: seq<Row>, ops: seq<Op>)
    ensures forall k :: 0 <= k < |rows| ==>
              Replay(rows, ops)[k].id == rows[k].id && Replay(rows, ops)[k].home == rows[k].home
  {
    if ops != [] {
      ReplayKeepsNames(rows, ops[..|ops| - 1]);
    }
  }

  predicate DistinctHomes(rows: seq<Row>) {
    forall i, j :: 0 <= i < j < |rows| ==> rows[i].home != rows[j].home
  }

  predicate DistinctIds(rows: seq<Row>) {
    forall i, j :: 0 <= i < j < |rows| ==> rows[i].id != rows[j].id
  }

  lemma ReplayKeepsDistinct(rows: seq<Row>, ops: seq<Op>)
    ensures DistinctHomes(rows) ==> DistinctHomes(Replay(rows, ops))
    ensures DistinctIds(rows) ==> DistinctIds(Replay(rows, ops))
  {
    ReplayKeepsNames(rows, ops);
  }

  /** HOMEs of the stale leases. */
  function StaleHomes(rows: seq<Row>, e: Env): set<string> {
    set k | 0 <= k < |rows| && Stale(rows[k], e) :: rows[k].home
  }

  /** The account that select_account picks: the first available one that is not excluded. */
  function First(rows: seq<Row>, skipped: set<string>): (k: nat)
    ensures k <= |rows|
    ensures k < |rows| ==> rows[k].state == Available && rows[k].id !in skipped
    ensures forall j :: 0 <= j < k ==> rows[j].state != Available || rows[j].id in skipped
  {
    if rows == [] || (rows[0].state == Available && rows[0].id !in skipped) then 0 else 1 + First(rows[1..], skipped)
  }

  lemma FirstIs(rows: seq<Row>, skipped: set<string>, k: nat)
    requires k <= |rows| && (k < |rows| ==> rows[k].state == Available && rows[k].id !in skipped)
    requires forall j :: 0 <= j < k ==> rows[j].state != Available || rows[j].id in skipped
    ensures First(rows, skipped) == k
  {
  }

  /** by_id: the first account of that name. */
  function FindId(rows: seq<Row>, id: string): (k: nat)
    ensures k <= |rows| && (k < |rows| ==> rows[k].id == id)
    ensures forall j :: 0 <= j < k ==> rows[j].id != id
  {
    if rows == [] || rows[0].id == id then 0 else 1 + FindId(rows[1..], id)
  }

  lemma FindIdIs(rows: seq<Row>, id: string, k: nat)
    requires k <= |rows| && (k < |rows| ==> rows[k].id == id) && forall j :: 0 <= j < k ==> rows[j].id != id
    ensures FindId(rows, id) == k
  {
  }

  /** What a finished run may do to its account, if it may do anything. */
  function FinishOp(r: Row, k: nat, lease: Option<string>, me: int, c: Class, coolUntil: real, classify: bool): Option<Op> {
    if classify then if Writable(r, lease, me) then Some(Settle(k, c, coolUntil)) else None
    else if Owns(r, lease, me) then Some(Release(k))
    else None
  }

  /** A late result of a run whose HOME was since leased to another run changes nothing. */
  lemma LateFinish(r: Row, k: nat, lease: string, other: string, me: int, c: Class, coolUntil: real, classify: bool)
    requires r.state == Busy && r.lease == Some(other) && lease != other
    ensures FinishOp(r, k, Some(lease), me, c, coolUntil, classify).None?
  {
  }

  /** A run that finishes under its own lease leaves no lease behind, and the account not busy. */
  lemma OwnFinish(r: Row, k: nat, lease: string, me: int, c: Class, coolUntil: real, classify: bool)
    requires r.state == Busy && r.lease == Some(lease)
    ensures var op := FinishOp(r, k, Some(lease), me, c, coolUntil, classify);
            && op.Some? && OpRow(r, k, op.value).state != Busy && Cleared(OpRow(r, k, op.value)) == OpRow(r, k, op.value)
            && (classify ==> (OpRow(r, k, op.value).state == Available <==> c.Harmless?))
  {
  }

  /** A fresh lease ends strictly in the future, although its end is cut to whole seconds. */
  lemma FreshLease(r: Row, now: real, sec: real, pid: int, lease: string, token: Option<string>, e: Env)
    requires e.now == now
    ensures var q := ReserveRow(r, now, sec, pid, lease, token);
            q.until.Some? && now < q.until.value as real <= now + (if sec < 1.0 then 1.0 else sec) && !Stale(q, e)
  {
  }

  // ---------------------------------------------------------------------
  // Leases that an operation leaves alone
  // ---------------------------------------------------------------------

  /** The row is leased under this id until this time to that process. */
  predicate Leased(r: Row, lease: string, until: int, pid: int, token: string) {
    && r.state == Busy && r.lease == Some(lease) && r.until == Some(until) && r.pid == Some(pid)
    && (r.token.None? || r.token == Some(token))
  }

  /** Nothing in this look at the machine says that the process is gone or that time `until` was reached. */
  predicate Honest(e: Env, pid: int, token: string, until: int) {
    && pid > 0 && pid in e.alive && e.now < until as real
    && (pid in e.tokens ==> e.tokens[pid] == token)
  }

  lemma ReclaimSpares(r: Row, e: Env, me: int, lease: string, until: int, pid: int, token: string)
    requires Leased(r, lease, until, pid, token) && Honest(e, pid, token, until)
    ensures ReclaimRow(r, e, me) == r
  {
  }
}
