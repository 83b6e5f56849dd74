/**
The grading protocol of `assessment_platform/api.py`.

A submission row moves through pending / running / done / error.  It is driven by
the submit route, any number of reaper ticks, the manual retry and the agent's
callbacks; `(status, attempts)` is the version token of the compare-and-swap.

Every event below is one atomic step of the database.  An event that is not
enabled in a state leaves it unchanged, so a run is any sequence of events.
*/
module Grading {
  import opened Base

  type Id = nat

  datatype Reason = AgentRefused | NeverAnswered

  datatype Row = Row(
    status: Status,
    attempts: nat,
    job: Option<Id>,
    reason: Option<Reason>,
    verdict: Option<string>,
    cost: Option<real>,
    updatedAt: int)

  /** MAX_TRIGGER_ATTEMPTS, TRIGGER_RETRY_AFTER_S and REAP_RUNNING_AFTER_S. */
  datatype Config = Config(maxAttempts: int, retryAfter: int, reapAfter: int)

  function Budget(cfg: Config): int {
    Max(1, cfg.maxAttempts)
  }

  function Remaining(cfg: Config, row: Row): int {
    Max(0, cfg.maxAttempts - row.attempts)
  }

  // ------------------------------------------------------------------------
  // What each write does to one row
  // ------------------------------------------------------------------------

  function NewRow(now: int): Row {
    Row(Pending, 0, None, None, None, None, now)
  }

  predicate TokenMatches(row: Row, status: Status, attempts: nat) {
    row.status == status && row.attempts == attempts
  }

  function ClaimRow(row: Row, id: Id, now: int): Row {
    row.(status := Pending, job := Some(id), attempts := row.attempts + 1, reason := None, updatedAt := now)
  }

  function AcceptRow(row: Row, job: Id, now: int): Row {
    row.(status := Running, job := Some(job), updatedAt := now)
  }

  function FailRow(row: Row, why: Reason, now: int): Row {
    row.(status := Error, reason := Some(why), updatedAt := now)
  }

  /** The grace period the reaper applies to the status it read. */
  function Grace(cfg: Config, row: Row): int {
    if row.status == Pending then cfg.retryAfter else cfg.reapAfter
  }

  predicate PastGrace(cfg: Config, row: Row, now: int) {
    Grace(cfg, row) > 0 && row.updatedAt < now - Grace(cfg, row)
  }

  /** The fields of a callback payload that steer the row. */
  datatype Payload = Payload(verdict: Option<string>, error: bool, infraError: bool, cost: Option<real>)

  function VerdictOf(p: Payload): string {
    if p.verdict.None? || p.verdict.value == "" then "ERROR" else p.verdict.value
  }

  predicate IsErrorPayload(p: Payload) {
    VerdictOf(p) == "ERROR" || p.error || p.infraError
  }

  /** What a callback decides on the row it has read. */
  datatype Path = Ignored | Requeued | Recorded

  function PathOf(cfg: Config, seen: Row, p: Payload): Path {
    if !IsErrorPayload(p) || p.verdict.Some? then Recorded
    else if seen.status == Done then Ignored
    else if !Terminal(seen.status) && seen.attempts < cfg.maxAttempts then Requeued
    else Recorded
  }

  function FinalStatus(p: Payload): Status {
    if IsErrorPayload(p) then Error else Done
  }

  // The writes below carry no token: they are the columns that differ from the row as the
  // callback read it, on whatever the row is by now.  Setting a column to the value it was
  // read with issues no UPDATE, so `updatedAt` moves only when something differs.

  function RequeuedRow(row: Row, seen: Row, now: int): Row {
    if seen.status == Pending then row else row.(status := Pending, updatedAt := now)
  }

  /** `verdict` is the stored result's, `found` that result as the callback looked it up.  If
      there was none then and there is one now, the insert loses to the unique key and the
      whole transaction is rolled back. */
  function RecordedRow(row: Row, seen: Row, p: Payload, found: Option<string>, now: int): Row {
    if found.None? && row.verdict.Some? then row
    else
      var cost := if p.cost.Some? then p.cost else seen.cost;
      var written := if found == Some(VerdictOf(p)) then row else row.(verdict := Some(VerdictOf(p)));
      if FinalStatus(p) == seen.status && cost == seen.cost then written
      else written.(status := if FinalStatus(p) == seen.status then row.status else FinalStatus(p),
                    cost := if cost == seen.cost then row.cost else cost,
                    updatedAt := now)
  }

  /** With nothing in between: the row a callback leaves behind. */
  function CallbackRow(cfg: Config, row: Row, p: Payload, now: int): Row {
    match PathOf(cfg, row, p)
    case Ignored => row
    case Requeued => RequeuedRow(row, row, now)
    case Recorded => RecordedRow(row, row, p, row.verdict, now)
  }

  // ------------------------------------------------------------------------
  // The protocol as a state machine
  // ------------------------------------------------------------------------

  datatype Origin = BySubmit | ByReaper | ByRetry

  /** One request or one reaper tick at work on one row. */
  datatype Task =
    | Reopened(id: Id)                                               // retry: checked "error", stamp cleared
    | Listed(id: Id, now: int)                                       // reaper: selected at `now`
    | Loaded(id: Id, origin: Origin, status: Status, attempts: nat)  // about to claim with this token
    | GivingUp(id: Id, status: Status, attempts: nat)                // about to flip to "error"
    | OnWire(id: Id, attempt: nat, since: int)                       // claimed; the agent is being asked
    | Heard(id: Id, seen: Row, payload: Payload)                     // callback: has read the row
    | Recording(id: Id, seen: Row, payload: Payload, found: Option<string>)  // and looked for a stored result

  /** `claims` and `wire` are history: who won each attempt number, and which task
      put which attempt on the wire.  `retries` counts won manual retries. */
  datatype State = State(
    clock: int,
    rows: map<Id, Row>,
    tasks: map<nat, Task>,
    next: nat,
    claims: map<(Id, nat), nat>,
    wire: set<(Id, nat, nat)>,
    retries: map<Id, nat>)

  datatype Event =
    | Advance(d: nat)
    | Submit(newId: Id)
    | RetryCheck(retried: Id)
    | RetryReload(task: nat)
    | TickList(listed: Id)
    | TickVisit(task: nat, hasQuestion: bool)
    | Claim(task: nat)
    | Post(task: nat)
    | Accept(task: nat, echoed: Id)
    | Refuse(task: nat)
    | Fail(task: nat)
    | GiveUp(task: nat)
    | Hear(job: Id, matched: Id, payload: Payload)
    | LookUp(task: nat)
    | Land(task: nat)

  const Empty := State(0, map[], map[], 0, map[], {}, map[])

  function RetriesOf(s: State, id: Id): nat {
    if id in s.retries then s.retries[id] else 0
  }

  function Spawn(s: State, task: Task): State {
    s.(tasks := s.tasks[s.next := task], next := s.next + 1)
  }

  function Finish(s: State, t: nat): State {
    s.(tasks := s.tasks - {t})
  }

  function Put(s: State, id: Id, row: Row): State {
    s.(rows := s.rows[id := row])
  }

  function DoVisit(cfg: Config, s: State, t: nat, id: Id, now: int, hasQuestion: bool): State
    requires id in s.rows
  {
    var row := s.rows[id];
    if !PastGrace(cfg, row, now) then Finish(s, t)
    else if row.attempts < cfg.maxAttempts && hasQuestion then
      s.(tasks := s.tasks[t := Loaded(id, ByReaper, row.status, row.attempts)])
    else
      s.(tasks := s.tasks[t := GivingUp(id, row.status, row.attempts)])
  }

  function DoClaim(s: State, t: nat, task: Task): State
    requires task.Loaded? && task.id in s.rows
  {
    var row := s.rows[task.id];
    if TokenMatches(row, task.status, task.attempts) then
      s.(rows := s.rows[task.id := ClaimRow(row, task.id, s.clock)],
         tasks := s.tasks[t := OnWire(task.id, row.attempts + 1, s.clock)],
         claims := s.claims[(task.id, row.attempts + 1) := t],
         retries := if task.origin == ByRetry then s.retries[task.id := RetriesOf(s, task.id) + 1] else s.retries)
    else Finish(s, t)
  }

  /** The final compare-and-swap of a task, from the token it holds. */
  function DoSwap(s: State, t: nat, id: Id, status: Status, attempts: nat, row: Row): State
    requires id in s.rows
  {
    if TokenMatches(s.rows[id], status, attempts) then Finish(Put(s, id, row), t) else Finish(s, t)
  }

  function Apply(cfg: Config, s: State, e: Event): State {
    match e
    case Advance(d) => s.(clock := s.clock + d)
    case Submit(id) =>
      if id in s.rows then s
      else Spawn(Put(s, id, NewRow(s.clock)), Loaded(id, BySubmit, Pending, 0))
    case RetryCheck(id) =>
      if id in s.rows && s.rows[id].status == Error then Spawn(s, Reopened(id)) else s
    case TickList(id) =>
      if id in s.rows && !Terminal(s.rows[id].status) then Spawn(s, Listed(id, s.clock)) else s
    case Hear(job, id, p) =>
      if id in s.rows && s.rows[id].job == Some(job) && !PathOf(cfg, s.rows[id], p).Ignored?
      then Spawn(s, Heard(id, s.rows[id], p)) else s
    case _ =>
      if e.task !in s.tasks || s.tasks[e.task].id !in s.rows then s else ApplyTask(cfg, s, e, s.tasks[e.task])
  }

  predicate HasTask(e: Event) {
    e.RetryReload? || e.TickVisit? || e.Claim? || e.Post? || e.Accept? || e.Refuse? || e.Fail? || e.GiveUp?
    || e.LookUp? || e.Land?
  }

  /** The callback has made up its mind and is about to commit. */
  predicate ReadyToLand(cfg: Config, task: Task) {
    task.Recording? || (task.Heard? && PathOf(cfg, task.seen, task.payload).Requeued?)
  }

  function LandedRow(row: Row, task: Task, now: int): Row requires task.Recording? || task.Heard? {
    if task.Recording? then RecordedRow(row, task.seen, task.payload, task.found, now) else RequeuedRow(row, task.seen, now)
  }

  function DoLookUp(cfg: Config, s: State, t: nat, task: Task): State requires task.Heard? && task.id in s.rows {
    if PathOf(cfg, task.seen, task.payload).Recorded?
    then s.(tasks := s.tasks[t := Recording(task.id, task.seen, task.payload, s.rows[task.id].verdict)]) else s
  }

  function DoLand(cfg: Config, s: State, t: nat, task: Task): State requires task.id in s.rows {
    if ReadyToLand(cfg, task) then Finish(Put(s, task.id, LandedRow(s.rows[task.id], task, s.clock)), t) else s
  }

  function ApplyTask(cfg: Config, s: State, e: Event, task: Task): State
    requires HasTask(e) && task.id in s.rows
  {
    var row := s.rows[task.id];
    match (e, task)
    case (RetryReload(t), Reopened(id)) => s.(tasks := s.tasks[t := Loaded(id, ByRetry, row.status, row.attempts)])
    case (TickVisit(t, hasQuestion), Listed(id, now)) => DoVisit(cfg, s, t, id, now, hasQuestion)
    case (Claim(t), Loaded(_, _, _, _)) => DoClaim(s, t, task)
    case (Post(t), OnWire(id, n, _)) => s.(wire := s.wire + {(id, n, t)})
    case (Accept(t, job), OnWire(id, n, _)) => DoSwap(s, t, id, Pending, n, AcceptRow(row, job, s.clock))
    case (Refuse(t), OnWire(id, n, _)) => DoSwap(s, t, id, Pending, n, FailRow(row, AgentRefused, s.clock))
    case (Fail(t), OnWire(_, _, _)) => Finish(s, t)
    case (GiveUp(t), GivingUp(id, st, n)) => DoSwap(s, t, id, st, n, FailRow(row, NeverAnswered, s.clock))
    case (LookUp(t), Heard(_, _, _)) => DoLookUp(cfg, s, t, task)
    case (Land(t), _) => DoLand(cfg, s, t, task)
    case _ => s
  }

  function Run(cfg: Config, s: State, es: seq<Event>): State {
    if es == [] then s else Apply(cfg, Run(cfg, s, es[..|es| - 1]), es[|es| - 1])
  }

  /** Every step of the run satisfies `p`. */
  ghost predicate Along(cfg: Config, s: State, es: seq<Event>, p: (State, Event) -> bool) {
    es == [] || (Along(cfg, s, es[..|es| - 1], p) && p(Run(cfg, s, es[..|es| - 1]), es[|es| - 1]))
  }

  // ------------------------------------------------------------------------
  // The invariant of every run
  // ------------------------------------------------------------------------

  ghost predicate TaskOk(cfg: Config, s: State, t: nat, task: Task) {
    && t < s.next
    && task.id in s.rows
    && var row := s.rows[task.id];
    match task
    case Reopened(_) => true
    case Listed(_, now) => now <= s.clock && (Terminal(row.status) ==> now <= row.updatedAt)
    case Loaded(_, origin, st, n) =>
      && n <= row.attempts
      && (origin == BySubmit ==> st == Pending && n == 0)
      && (origin == ByReaper ==> !Terminal(st) && n < cfg.maxAttempts)
    case GivingUp(_, st, _) => !Terminal(st)
    case OnWire(id, n, since) =>
      && 1 <= n <= row.attempts && since <= row.updatedAt
      && (id, n) in s.claims && s.claims[(id, n)] == t
    case Heard(_, _, _) => true
    case Recording(_, _, _, _) => true
  }

  ghost predicate RowOk(cfg: Config, s: State, id: Id)
    requires id in s.rows
  {
    && s.rows[id].attempts <= Budget(cfg) + RetriesOf(s, id)
    && s.rows[id].updatedAt <= s.clock
  }

  ghost predicate Inv(cfg: Config, s: State) {
    && (forall t | t in s.tasks :: TaskOk(cfg, s, t, s.tasks[t]))
    && (forall id | id in s.rows :: RowOk(cfg, s, id))
    && (forall c | c in s.claims :: c.0 in s.rows && 1 <= c.1 <= s.rows[c.0].attempts && s.claims[c] < s.next)
    && (forall w | w in s.wire :: (w.0, w.1) in s.claims && s.claims[(w.0, w.1)] == w.2)
  }

  lemma FinishKeepsInv(cfg: Config, s: State, t: nat)
    requires Inv(cfg, s)
    ensures Inv(cfg, Finish(s, t))
  {
    forall u | u in Finish(s, t).tasks ensures TaskOk(cfg, Finish(s, t), u, s.tasks[u]) {
      assert TaskOk(cfg, s, u, s.tasks[u]);
    }
    assert forall id | id in s.rows :: RowOk(cfg, s, id) ==> RowOk(cfg, Finish(s, t), id);
  }

  lemma AssignKeepsInv(cfg: Config, s: State, t: nat, task: Task, s': State)
    requires Inv(cfg, s)
    requires s' == s.(tasks := s.tasks[t := task], next := s'.next) && s.next <= s'.next
    requires TaskOk(cfg, s', t, task)
    ensures Inv(cfg, s')
  {
    forall u | u in s'.tasks ensures TaskOk(cfg, s', u, s'.tasks[u]) {
      assert u != t ==> TaskOk(cfg, s, u, s.tasks[u]);
    }
    assert forall id | id in s.rows :: RowOk(cfg, s, id) ==> RowOk(cfg, s', id);
  }

  /** A write that leaves `attempts` alone and, when it changes the status, stamps the row. */
  ghost predicate Stamped(old': Row, new': Row, now: int) {
    && new'.attempts == old'.attempts
    && (new'.updatedAt == now || (new'.updatedAt == old'.updatedAt && new'.status == old'.status))
  }

  lemma PutKeepsInv(cfg: Config, s: State, id: Id, row: Row)
    requires Inv(cfg, s) && id in s.rows && Stamped(s.rows[id], row, s.clock)
    ensures Inv(cfg, Put(s, id, row))
  {
    var s' := Put(s, id, row);
    assert RowOk(cfg, s, id);
    forall u | u in s'.tasks ensures TaskOk(cfg, s', u, s'.tasks[u]) {
      assert TaskOk(cfg, s, u, s.tasks[u]);
    }
    forall i | i in s'.rows ensures RowOk(cfg, s', i) {
      assert i in s.rows && RowOk(cfg, s, i);
    }
  }

  lemma SwapKeepsInv(cfg: Config, s: State, t: nat, id: Id, st: Status, n: nat, row: Row)
    requires Inv(cfg, s) && id in s.rows && Stamped(s.rows[id], row, s.clock)
    ensures Inv(cfg, DoSwap(s, t, id, st, n, row))
  {
    PutKeepsInv(cfg, s, id, row);
    FinishKeepsInv(cfg, Put(s, id, row), t);
    FinishKeepsInv(cfg, s, t);
  }

  lemma ClaimKeepsTasks(cfg: Config, s: State, t: nat, task: Task, u: nat)
    requires Inv(cfg, s) && t in s.tasks && s.tasks[t] == task && task.Loaded? && task.id in s.rows
    requires TokenMatches(s.rows[task.id], task.status, task.attempts) && u in DoClaim(s, t, task).tasks
    ensures TaskOk(cfg, DoClaim(s, t, task), u, DoClaim(s, t, task).tasks[u])
  {
    assert u in s.tasks && TaskOk(cfg, s, u, s.tasks[u]);
    assert RowOk(cfg, s, task.id);
  }

  lemma ClaimKeepsRow(cfg: Config, s: State, t: nat, task: Task, i: Id)
    requires Inv(cfg, s) && t in s.tasks && s.tasks[t] == task && task.Loaded? && task.id in s.rows
    requires TokenMatches(s.rows[task.id], task.status, task.attempts) && i in DoClaim(s, t, task).rows
    ensures RowOk(cfg, DoClaim(s, t, task), i)
  {
    assert TaskOk(cfg, s, t, task) && i in s.rows && RowOk(cfg, s, i);
  }

  lemma ClaimKeepsInv(cfg: Config, s: State, t: nat, task: Task)
    requires Inv(cfg, s) && t in s.tasks && s.tasks[t] == task && task.Loaded? && task.id in s.rows
    ensures Inv(cfg, DoClaim(s, t, task))
  {
    var row := s.rows[task.id];
    if TokenMatches(row, task.status, task.attempts) {
      var s' := DoClaim(s, t, task);
      assert TaskOk(cfg, s, t, task);
      forall u | u in s'.tasks ensures TaskOk(cfg, s', u, s'.tasks[u]) { ClaimKeepsTasks(cfg, s, t, task, u); }
      forall i | i in s'.rows ensures RowOk(cfg, s', i) { ClaimKeepsRow(cfg, s, t, task, i); }
      assert forall w | w in s.wire :: (w.0, w.1) != (task.id, row.attempts + 1);
    } else {
      FinishKeepsInv(cfg, s, t);
    }
  }

  lemma VisitKeepsInv(cfg: Config, s: State, t: nat, hasQuestion: bool)
    requires Inv(cfg, s) && t in s.tasks && s.tasks[t].Listed? && s.tasks[t].id in s.rows
    ensures Inv(cfg, DoVisit(cfg, s, t, s.tasks[t].id, s.tasks[t].now, hasQuestion))
  {
    var task := s.tasks[t];
    assert TaskOk(cfg, s, t, task) && RowOk(cfg, s, task.id);
    var s' := DoVisit(cfg, s, t, task.id, task.now, hasQuestion);
    if PastGrace(cfg, s.rows[task.id], task.now) {
      AssignKeepsInv(cfg, s, t, s'.tasks[t], s');
    } else {
      FinishKeepsInv(cfg, s, t);
    }
  }

  lemma AnswerKeepsInv(cfg: Config, s: State, e: Event, task: Task)
    requires Inv(cfg, s) && (e.Accept? || e.Refuse? || e.GiveUp?) && task.id in s.rows
    ensures Inv(cfg, ApplyTask(cfg, s, e, task))
  {
    var row := s.rows[task.id];
    match (e, task)
    case (Accept(t, job), OnWire(id, n, _)) => SwapKeepsInv(cfg, s, t, id, Pending, n, AcceptRow(row, job, s.clock));
    case (Refuse(t), OnWire(id, n, _)) => SwapKeepsInv(cfg, s, t, id, Pending, n, FailRow(row, AgentRefused, s.clock));
    case (GiveUp(t), GivingUp(id, st, n)) => SwapKeepsInv(cfg, s, t, id, st, n, FailRow(row, NeverAnswered, s.clock));
    case _ =>
  }

  lemma ReloadKeepsInv(cfg: Config, s: State, t: nat, id: Id)
    requires Inv(cfg, s) && t in s.tasks && id in s.rows
    ensures Inv(cfg, s.(tasks := s.tasks[t := Loaded(id, ByRetry, s.rows[id].status, s.rows[id].attempts)]))
  {
    var loaded := Loaded(id, ByRetry, s.rows[id].status, s.rows[id].attempts);
    assert TaskOk(cfg, s, t, s.tasks[t]);
    AssignKeepsInv(cfg, s, t, loaded, s.(tasks := s.tasks[t := loaded]));
  }

  lemma LookUpKeepsInv(cfg: Config, s: State, t: nat, task: Task)
    requires Inv(cfg, s) && t in s.tasks && s.tasks[t] == task && task.Heard? && task.id in s.rows
    ensures Inv(cfg, DoLookUp(cfg, s, t, task))
  {
    assert TaskOk(cfg, s, t, task);
    var s' := DoLookUp(cfg, s, t, task);
    AssignKeepsInv(cfg, s, t, s'.tasks[t], s');
  }

  lemma LandKeepsInv(cfg: Config, s: State, t: nat, task: Task)
    requires Inv(cfg, s) && task.id in s.rows
    ensures Inv(cfg, DoLand(cfg, s, t, task))
  {
    if ReadyToLand(cfg, task) {
      var row := LandedRow(s.rows[task.id], task, s.clock);
      PutKeepsInv(cfg, s, task.id, row);
      FinishKeepsInv(cfg, Put(s, task.id, row), t);
    }
  }

  lemma CallbackStepKeepsInv(cfg: Config, s: State, e: Event)
    requires Inv(cfg, s) && (e.LookUp? || e.Land?) && e.task in s.tasks && s.tasks[e.task].id in s.rows
    ensures Inv(cfg, ApplyTask(cfg, s, e, s.tasks[e.task]))
  {
    var task := s.tasks[e.task];
    if e.Land? {
      LandKeepsInv(cfg, s, e.task, task);
    } else if task.Heard? {
      LookUpKeepsInv(cfg, s, e.task, task);
    }
  }

  lemma TaskStepKeepsInv(cfg: Config, s: State, e: Event)
    requires Inv(cfg, s) && HasTask(e) && e.task in s.tasks && s.tasks[e.task].id in s.rows
    ensures Inv(cfg, ApplyTask(cfg, s, e, s.tasks[e.task]))
  {
    var task := s.tasks[e.task];
    if e.Accept? || e.Refuse? || e.GiveUp? {
      AnswerKeepsInv(cfg, s, e, task);
    } else if e.LookUp? || e.Land? {
      CallbackStepKeepsInv(cfg, s, e);
    } else {
      OwnStepKeepsInv(cfg, s, e);
    }
  }

  lemma OwnStepKeepsInv(cfg: Config, s: State, e: Event)
    requires e.RetryReload? || e.TickVisit? || e.Claim? || e.Post? || e.Fail?
    requires Inv(cfg, s) && e.task in s.tasks && s.tasks[e.task].id in s.rows
    ensures Inv(cfg, ApplyTask(cfg, s, e, s.tasks[e.task]))
  {
    var task := s.tasks[e.task];
    if e.RetryReload? {
      if task.Reopened? { ReloadKeepsInv(cfg, s, e.task, task.id); }
    } else if e.TickVisit? {
      if task.Listed? { VisitKeepsInv(cfg, s, e.task, e.hasQuestion); }
    } else if e.Claim? {
      if task.Loaded? { ClaimKeepsInv(cfg, s, e.task, task); }
    } else if task.OnWire? {
      if e.Post? { PostKeepsInv(cfg, s, e.task); } else { FinishKeepsInv(cfg, s, e.task); }
    }
  }

  lemma PostKeepsInv(cfg: Config, s: State, t: nat)
    requires Inv(cfg, s) && t in s.tasks && s.tasks[t].OnWire?
    ensures Inv(cfg, s.(wire := s.wire + {(s.tasks[t].id, s.tasks[t].attempt, t)}))
  {
    var s' := s.(wire := s.wire + {(s.tasks[t].id, s.tasks[t].attempt, t)});
    assert TaskOk(cfg, s, t, s.tasks[t]);
    forall u | u in s.tasks ensures TaskOk(cfg, s', u, s.tasks[u]) {
      assert TaskOk(cfg, s, u, s.tasks[u]);
    }
    assert forall id | id in s.rows :: RowOk(cfg, s, id) ==> RowOk(cfg, s', id);
  }

  lemma AdvanceKeepsInv(cfg: Config, s: State, d: nat)
    requires Inv(cfg, s)
    ensures Inv(cfg, s.(clock := s.clock + d))
  {
    var s' := s.(clock := s.clock + d);
    forall u | u in s.tasks ensures TaskOk(cfg, s', u, s.tasks[u]) {
      assert TaskOk(cfg, s, u, s.tasks[u]);
    }
    assert forall id | id in s.rows :: RowOk(cfg, s, id) ==> RowOk(cfg, s', id);
  }

  lemma InsertKeepsInv(cfg: Config, s: State, id: Id)
    requires Inv(cfg, s) && id !in s.rows
    ensures Inv(cfg, Put(s, id, NewRow(s.clock)))
  {
    var s' := Put(s, id, NewRow(s.clock));
    forall u | u in s.tasks ensures TaskOk(cfg, s', u, s.tasks[u]) {
      assert TaskOk(cfg, s, u, s.tasks[u]);
    }
    forall i | i in s'.rows ensures RowOk(cfg, s', i) {
      assert i in s.rows ==> RowOk(cfg, s, i);
    }
  }

  lemma ArrivalKeepsInv(cfg: Config, s: State, e: Event)
    requires Inv(cfg, s) && (e.Submit? || e.RetryCheck? || e.TickList? || e.Hear?)
    ensures Inv(cfg, Apply(cfg, s, e))
  {
    match e
    case Hear(job, id, p) =>
      if id in s.rows && s.rows[id].job == Some(job) && !PathOf(cfg, s.rows[id], p).Ignored? {
        AssignKeepsInv(cfg, s, s.next, Heard(id, s.rows[id], p), Apply(cfg, s, e));
      }
    case Submit(id) =>
      if id !in s.rows {
        InsertKeepsInv(cfg, s, id);
        AssignKeepsInv(cfg, Put(s, id, NewRow(s.clock)), s.next, Loaded(id, BySubmit, Pending, 0), Apply(cfg, s, e));
      }
    case RetryCheck(id) =>
      if id in s.rows && s.rows[id].status == Error { AssignKeepsInv(cfg, s, s.next, Reopened(id), Apply(cfg, s, e)); }
    case TickList(id) =>
      if id in s.rows && !Terminal(s.rows[id].status) {
        AssignKeepsInv(cfg, s, s.next, Listed(id, s.clock), Apply(cfg, s, e));
      }
  }

  lemma StepKeepsInv(cfg: Config, s: State, e: Event)
    requires Inv(cfg, s)
    ensures Inv(cfg, Apply(cfg, s, e))
  {
    if e.Submit? || e.RetryCheck? || e.TickList? || e.Hear? {
      ArrivalKeepsInv(cfg, s, e);
    } else if e.Advance? {
      AdvanceKeepsInv(cfg, s, e.d);
    } else if e.task in s.tasks && s.tasks[e.task].id in s.rows {
      TaskStepKeepsInv(cfg, s, e);
    }
  }
}
