/** The submission table as the routes and the reaper change it in place, each
    method proved against the row functions of the protocol. */
module GradingTable {
  import opened Base
  import opened Grading
  import GradingRuns

  /** What the agent does with one trigger. */
  datatype Answer = Accepted(job: Id) | Refused | NoAnswer

  /** The outside world of one reaper visit: whether the question still exists, when
      the row is written, and the agent's answer. */
  datatype Visit = Visit(hasQuestion: bool, claimAt: int, answer: Answer, answerAt: int)

  function AnsweredRow(row: Row, v: Visit): Row {
    match v.answer
    case Accepted(job) => AcceptRow(row, job, v.answerAt)
    case Refused => FailRow(row, AgentRefused, v.answerAt)
    case NoAnswer => row
  }

  function TriggeredRow(row: Row, id: Id, v: Visit): Row {
    AnsweredRow(ClaimRow(row, id, v.claimAt), v)
  }

  predicate Stranded(cfg: Config, row: Row, now: int) {
    !Terminal(row.status) && PastGrace(cfg, row, now)
  }

  function ReapedRow(cfg: Config, now: int, row: Row, id: Id, v: Visit): Row {
    if !Stranded(cfg, row, now) then row
    else if row.attempts < cfg.maxAttempts && v.hasQuestion then TriggeredRow(row, id, v)
    else FailRow(row, NeverAnswered, v.claimAt)
  }

  class SubmissionTable {
    var rows: map<Id, Row>

    constructor ()
      ensures rows == map[]
    {
      rows := map[];
    }

    /** Conditional UPDATE on the (status, attempts) token; reports whether it matched. */
    method Cas(id: Id, status: Status, attempts: nat, values: Row -> Row) returns (won: bool)
      requires id in rows
      modifies this
      ensures won == TokenMatches(old(rows)[id], status, attempts)
      ensures rows == if won then old(rows)[id := values(old(rows)[id])] else old(rows)
    {
      won := TokenMatches(rows[id], status, attempts);
      if won {
        rows := rows[id := values(rows[id])];
      }
    }

    /** `_trigger_agent` with no other writer in between. */
    method TriggerAgent(id: Id, v: Visit)
      requires id in rows
      modifies this
      ensures rows == old(rows)[id := TriggeredRow(old(rows)[id], id, v)]
      ensures var before := old(rows)[id];
        rows[id] == match v.answer
                    case Accepted(job) => Row(Running, before.attempts + 1, Some(job), None, before.verdict, before.cost, v.answerAt)
                    case Refused => Row(Error, before.attempts + 1, Some(id), Some(AgentRefused), before.verdict, before.cost, v.answerAt)
                    case NoAnswer => Row(Pending, before.attempts + 1, Some(id), None, before.verdict, before.cost, v.claimAt)
    {
      var sub := rows[id];
      var attempt := sub.attempts + 1;
      var won := Cas(id, sub.status, sub.attempts, (r: Row) => ClaimRow(r, id, v.claimAt));
      if !won { return; }
      match v.answer
      case Accepted(job) => won := Cas(id, Pending, attempt, (r: Row) => AcceptRow(r, job, v.answerAt));
      case Refused => won := Cas(id, Pending, attempt, (r: Row) => FailRow(r, AgentRefused, v.answerAt));
      case NoAnswer =>
    }

    /** The loop's body: one selected row. */
    method ReapOne(cfg: Config, now: int, id: Id, v: Visit) returns (acted: bool)
      requires id in rows && !Terminal(rows[id].status)
      modifies this
      ensures rows == old(rows)[id := ReapedRow(cfg, now, old(rows)[id], id, v)]
      ensures acted == Stranded(cfg, old(rows)[id], now)
    {
      var sub := rows[id];
      acted := PastGrace(cfg, sub, now);
      assert rows[id := sub] == rows;
      if acted {
        if sub.attempts < cfg.maxAttempts && v.hasQuestion {
          TriggerAgent(id, v);
        } else {
          var won := Cas(id, sub.status, sub.attempts, (r: Row) => FailRow(r, NeverAnswered, v.claimAt));
        }
      }
    }

    /** One pass of the reaper over the rows selected at `now`, in any order: it acts on exactly
        the pending rows untouched for longer than the retry delay and the running ones untouched
        for longer than the reap delay, a delay of nothing or less meaning never.  Each of them
        spends an attempt while there is one left and its question exists, and otherwise ends. */
    method ReapTick(cfg: Config, now: int, world: Id -> Visit) returns (acted: set<Id>)
      modifies this
      ensures rows == map id | id in old(rows) :: ReapedRow(cfg, now, old(rows)[id], id, world(id))
      ensures acted == set id | id in old(rows) && Stranded(cfg, old(rows)[id], now)
      ensures forall id | id in old(rows) && old(rows)[id].status == Pending ::
                id in acted <==> cfg.retryAfter > 0 && old(rows)[id].updatedAt < now - cfg.retryAfter
      ensures forall id | id in old(rows) && old(rows)[id].status == Running ::
                id in acted <==> cfg.reapAfter > 0 && old(rows)[id].updatedAt < now - cfg.reapAfter
      ensures forall id | id in acted :: id in old(rows) && !Terminal(old(rows)[id].status)
      ensures rows.Keys == old(rows).Keys && forall id | id in rows && id !in acted :: rows[id] == old(rows)[id]
      ensures forall id | id in acted :: var before, after := old(rows)[id], rows[id];
                if before.attempts < cfg.maxAttempts && world(id).hasQuestion then after.attempts == before.attempts + 1
                else after == before.(status := Error, reason := Some(NeverAnswered), updatedAt := world(id).claimAt)
    {
      acted := {};
      var stranded := set id | id in rows && !Terminal(rows[id].status);
      ghost var before := rows;
      while stranded != {}
        invariant rows.Keys == before.Keys && stranded <= before.Keys
        invariant forall id | id in stranded :: rows[id] == before[id] && !Terminal(before[id].status)
        invariant forall id | id in before && id !in stranded :: rows[id] == ReapedRow(cfg, now, before[id], id, world(id))
        invariant acted == set id | id in before && id !in stranded && Stranded(cfg, before[id], now)
        decreases stranded
      {
        var id :| id in stranded;
        var did := ReapOne(cfg, now, id, world(id));
        if did { acted := acted + {id}; }
        stranded := stranded - {id};
      }
    }

    /** The agent's callback: the row is looked up by the job id it carries.  Without a verdict
        it reports a worker's error, which never touches a graded row, re-queues an open one
        while attempts remain and keeps what was stored, and is itself recorded only when none
        remain or the row had failed already.  A verdict is stored as sent. */
    method Callback(cfg: Config, job: Id, payload: Payload, now: int) returns (matched: Option<Id>)
      modifies this
      ensures matched.None? <==> forall id | id in old(rows) :: old(rows)[id].job != Some(job)
      ensures matched.None? ==> rows == old(rows)
      ensures matched.Some? ==>
                && matched.value in old(rows) && old(rows)[matched.value].job == Some(job)
                && rows == old(rows)[matched.value := CallbackRow(cfg, old(rows)[matched.value], payload, now)]
      ensures matched.Some? && payload.verdict.None? ==>
                var before, after := old(rows)[matched.value], rows[matched.value];
                if before.status == Done then rows == old(rows)
                else if before.status != Error && before.attempts < cfg.maxAttempts then
                  after == before.(status := Pending, updatedAt := if before.status == Pending then before.updatedAt else now)
                else after.status == Error && after.verdict == Some("ERROR")
      ensures matched.Some? && payload.verdict.Some? ==>
                var sent, after := payload.verdict.value, rows[matched.value];
                && after.status == (if sent == "ERROR" || sent == "" || payload.error || payload.infraError then Error else Done)
                && after.verdict == Some(if sent == "" then "ERROR" else sent)
      ensures matched.Some? ==>
                var before, after := old(rows)[matched.value], rows[matched.value];
                && rows.Keys == old(rows).Keys && (forall id | id in rows && id != matched.value :: rows[id] == old(rows)[id])
                && after.attempts == before.attempts && after.job == before.job && after.reason == before.reason
                && (after.cost == if payload.cost.Some? && Terminal(after.status) && (payload.verdict.Some? || before.status != Done)
                                  then payload.cost else before.cost)
                && (after.updatedAt == if after.status == before.status && after.cost == before.cost then before.updatedAt else now)
    {
      if exists id :: id in rows && rows[id].job == Some(job) {
        var id :| id in rows && rows[id].job == Some(job);
        rows := rows[id := CallbackRow(cfg, rows[id], payload, now)];
        matched := Some(id);
      } else {
        matched := None;
      }
    }
  }

  /** What the route does in one go is what a callback's steps do back to back. */
  lemma CallbackIsHearThenLand(cfg: Config, s: State, job: Id, id: Id, p: Payload)
    requires id in s.rows && s.rows[id].job == Some(job) && s.next !in s.tasks
    ensures var s1 := Apply(cfg, s, Hear(job, id, p));
      var s3 := Apply(cfg, Apply(cfg, s1, LookUp(s.next)), Land(s.next));
      s3.rows == s.rows[id := CallbackRow(cfg, s.rows[id], p, s.clock)] && s3.tasks == s.tasks
  {
    var row := s.rows[id];
    if PathOf(cfg, row, p).Ignored? {
      assert s.rows[id := row] == s.rows;
    } else {
      var s1 := Apply(cfg, s, Hear(job, id, p));
      assert s1 == Spawn(s, Heard(id, row, p));
      HeardThenLands(cfg, s1, s.next, id, p);
      assert s1.tasks - {s.next} == s.tasks;
    }
  }

  lemma HeardThenLands(cfg: Config, s: State, t: nat, id: Id, p: Payload)
    requires id in s.rows && t in s.tasks && s.tasks[t] == Heard(id, s.rows[id], p) && !PathOf(cfg, s.rows[id], p).Ignored?
    ensures var s2 := Apply(cfg, Apply(cfg, s, LookUp(t)), Land(t));
      s2.rows == s.rows[id := CallbackRow(cfg, s.rows[id], p, s.clock)] && s2.tasks == s.tasks - {t}
  {
    var s1 := Apply(cfg, s, LookUp(t));
    assert s1 == DoLookUp(cfg, s, t, s.tasks[t]);
    assert Apply(cfg, s1, Land(t)) == DoLand(cfg, s1, t, s1.tasks[t]);
    assert s1.tasks - {t} == s.tasks - {t};
  }

  /** Claim, ask, wait for and record the agent's answer. */
  function AskEvents(t: nat, wait: nat, answer: Answer): seq<Event> {
    [Claim(t), Post(t), Advance(wait), AnswerEvent(t, answer)]
  }

  /** One uninterrupted visit to a row selected at `now`. */
  function VisitRow(cfg: Config, s: State, t: nat, id: Id, v: Visit, now: int): seq<Event> {
    if id !in s.rows || s.clock > v.answerAt || !PastGrace(cfg, s.rows[id], now) then [TickVisit(t, v.hasQuestion)]
    else if s.rows[id].attempts < cfg.maxAttempts && v.hasQuestion then
      [TickVisit(t, v.hasQuestion)] + AskEvents(t, v.answerAt - s.clock, v.answer)
    else [TickVisit(t, v.hasQuestion)] + [GiveUp(t)]
  }

  /** The visits of a tick, one row after the other; the queue pairs each row with its task. */
  function VisitRows(cfg: Config, s: State, queue: seq<(nat, Id)>, world: Id -> Visit, now: int): seq<Event>
    decreases queue
  {
    if queue == [] then []
    else
      var one := VisitRow(cfg, s, queue[0].0, queue[0].1, world(queue[0].1), now);
      one + VisitRows(cfg, Run(cfg, s, one), queue[1..], world, now)
  }

  /** The outside world's times are those of this run. */
  ghost predicate OnTime(cfg: Config, s: State, queue: seq<(nat, Id)>, world: Id -> Visit, now: int)
    decreases queue
  {
    queue == []
    || (s.clock == world(queue[0].1).claimAt <= world(queue[0].1).answerAt
        && OnTime(cfg, Run(cfg, s, VisitRow(cfg, s, queue[0].0, queue[0].1, world(queue[0].1), now)), queue[1..], world, now))
  }

  /** The rows were selected at `now`, are open, and are queued once each. */
  ghost predicate Queued(s: State, queue: seq<(nat, Id)>, now: int) {
    && (forall i | 0 <= i < |queue| :: QueuedAt(s, queue[i], now))
    && (forall i, j | 0 <= i < j < |queue| :: queue[i].0 != queue[j].0 && queue[i].1 != queue[j].1)
  }

  ghost predicate QueuedAt(s: State, q: (nat, Id), now: int) {
    q.0 in s.tasks && s.tasks[q.0] == Listed(q.1, now) && q.1 in s.rows && !Terminal(s.rows[q.1].status)
  }

  function ReapedTable(cfg: Config, now: int, rows: map<Id, Row>, ids: set<Id>, world: Id -> Visit): map<Id, Row> {
    map id | id in rows :: if id in ids then ReapedRow(cfg, now, rows[id], id, world(id)) else rows[id]
  }

  function Ids(queue: seq<(nat, Id)>): set<Id> {
    set i | 0 <= i < |queue| :: queue[i].1
  }

  /** The visit leaves the other rows and the other tasks alone. */
  ghost predicate Visited(s: State, s': State, t: nat, id: Id, row: Row) {
    && s'.rows == s.rows[id := row]
    && forall u | u in s.tasks && u != t :: u in s'.tasks && s'.tasks[u] == s.tasks[u]
  }

  lemma VisitLoads(cfg: Config, s: State, t: nat, id: Id, hasQuestion: bool, now: int)
    requires QueuedAt(s, (t, id), now)
    ensures var s1 := Run(cfg, s, [TickVisit(t, hasQuestion)]);
      && s1.rows == s.rows && s1.clock == s.clock
      && (forall u | u in s.tasks && u != t :: u in s1.tasks && s1.tasks[u] == s.tasks[u])
      && (PastGrace(cfg, s.rows[id], now) ==>
            t in s1.tasks && s1.tasks[t] == if s.rows[id].attempts < cfg.maxAttempts && hasQuestion
                                            then Loaded(id, ByReaper, s.rows[id].status, s.rows[id].attempts)
                                            else GivingUp(id, s.rows[id].status, s.rows[id].attempts))
  {
    GradingRuns.RunSnoc(cfg, s, [], TickVisit(t, hasQuestion));
    assert [] + [TickVisit(t, hasQuestion)] == [TickVisit(t, hasQuestion)];
  }

  lemma VisitComputesReapedRow(cfg: Config, s: State, t: nat, id: Id, v: Visit, now: int)
    requires QueuedAt(s, (t, id), now) && v.claimAt == s.clock <= v.answerAt
    ensures Visited(s, Run(cfg, s, VisitRow(cfg, s, t, id, v, now)), t, id, ReapedRow(cfg, now, s.rows[id], id, v))
  {
    var visit := [TickVisit(t, v.hasQuestion)];
    var s1 := Run(cfg, s, visit);
    VisitLoads(cfg, s, t, id, v.hasQuestion, now);
    if !PastGrace(cfg, s.rows[id], now) {
      assert s.rows[id := s.rows[id]] == s.rows;
    } else if s.rows[id].attempts < cfg.maxAttempts && v.hasQuestion {
      GradingRuns.RunSplits(cfg, s, visit, AskEvents(t, v.answerAt - s.clock, v.answer));
      AskingComputesTriggeredRow(cfg, s1, t, id, v);
    } else {
      GradingRuns.RunSplits(cfg, s, visit, [GiveUp(t)]);
      GivingUpFailsTheRow(cfg, s1, t, id);
    }
  }

  lemma QueueAdvances(s: State, s': State, queue: seq<(nat, Id)>, row: Row, now: int)
    requires queue != [] && Queued(s, queue, now) && Visited(s, s', queue[0].0, queue[0].1, row)
    ensures Queued(s', queue[1..], now)
  {
    forall i | 0 <= i < |queue[1..]| ensures QueuedAt(s', queue[1..][i], now) {
      assert queue[1..][i] == queue[i + 1] && QueuedAt(s, queue[i + 1], now);
      assert queue[0].0 != queue[i + 1].0;
    }
  }

  /** The sequential tick and the interleaved protocol agree: running the protocol's own
      steps for all the selected rows, one after the other in any order, leaves exactly the
      table the tick computes -- each row judged by the moment of selection. */
  lemma {:induction false} TickComputesReapedTable(cfg: Config, s: State, queue: seq<(nat, Id)>, world: Id -> Visit, now: int)
    requires Queued(s, queue, now) && OnTime(cfg, s, queue, world, now)
    ensures Run(cfg, s, VisitRows(cfg, s, queue, world, now)).rows == ReapedTable(cfg, now, s.rows, Ids(queue), world)
    decreases queue
  {
    if queue == [] {
      assert ReapedTable(cfg, now, s.rows, {}, world) == s.rows && Ids(queue) == {};
    } else {
      var t, id := queue[0].0, queue[0].1;
      assert QueuedAt(s, queue[0], now) && queue[0] == (t, id);
      var one := VisitRow(cfg, s, t, id, world(id), now);
      var s1 := Run(cfg, s, one);
      VisitComputesReapedRow(cfg, s, t, id, world(id), now);
      QueueAdvances(s, s1, queue, ReapedRow(cfg, now, s.rows[id], id, world(id)), now);
      TickComputesReapedTable(cfg, s1, queue[1..], world, now);
      GradingRuns.RunSplits(cfg, s, one, VisitRows(cfg, s1, queue[1..], world, now));
      ReapOneMore(cfg, now, s.rows, queue, world);
    }
  }

  lemma ReapOneMore(cfg: Config, now: int, rows: map<Id, Row>, queue: seq<(nat, Id)>, world: Id -> Visit)
    requires queue != [] && queue[0].1 in rows && forall j | 0 < j < |queue| :: queue[0].1 != queue[j].1
    ensures var id := queue[0].1;
      ReapedTable(cfg, now, rows[id := ReapedRow(cfg, now, rows[id], id, world(id))], Ids(queue[1..]), world)
      == ReapedTable(cfg, now, rows, Ids(queue), world)
  {
    var id := queue[0].1;
    forall j | j in Ids(queue) ensures j == id || j in Ids(queue[1..]) {
      var i :| 0 <= i < |queue| && queue[i].1 == j;
      if i > 0 { assert queue[1..][i - 1] == queue[i]; }
    }
    forall i | 0 <= i < |queue[1..]| ensures queue[1..][i].1 in Ids(queue) && queue[1..][i].1 != id {
      assert queue[1..][i] == queue[i + 1];
    }
    assert queue[0].1 in Ids(queue);
  }

  lemma GivingUpFailsTheRow(cfg: Config, s: State, t: nat, id: Id)
    requires id in s.rows && t in s.tasks && s.tasks[t] == GivingUp(id, s.rows[id].status, s.rows[id].attempts)
    ensures Visited(s, Run(cfg, s, [GiveUp(t)]), t, id, FailRow(s.rows[id], NeverAnswered, s.clock))
  {
    GradingRuns.RunSnoc(cfg, s, [], GiveUp(t));
    assert [] + [GiveUp(t)] == [GiveUp(t)];
  }

  /** Claim and post: the row is claimed and its attempt is on the wire. */
  lemma ClaimThenPost(cfg: Config, s: State, t: nat, id: Id)
    requires id in s.rows && t in s.tasks
    requires s.tasks[t] == Loaded(id, ByReaper, s.rows[id].status, s.rows[id].attempts)
    ensures var s2 := Run(cfg, s, [Claim(t), Post(t)]);
      && Visited(s, s2, t, id, ClaimRow(s.rows[id], id, s.clock)) && s2.clock == s.clock
      && t in s2.tasks && s2.tasks[t] == OnWire(id, s.rows[id].attempts + 1, s.clock)
  {
    var s1 := Apply(cfg, s, Claim(t));
    assert s1 == DoClaim(s, t, s.tasks[t]);
    RunPair(cfg, s, Claim(t), Post(t));
  }

  function AnswerEvent(t: nat, answer: Answer): Event {
    match answer
    case Accepted(job) => Accept(t, job)
    case Refused => Refuse(t)
    case NoAnswer => Fail(t)
  }

  /** The answer to a claim nobody contested is recorded. */
  lemma AnswerIsRecorded(cfg: Config, s: State, t: nat, id: Id, v: Visit)
    requires id in s.rows && s.rows[id].status == Pending && s.clock == v.answerAt
    requires t in s.tasks && s.tasks[t].OnWire? && s.tasks[t].id == id && s.tasks[t].attempt == s.rows[id].attempts
    ensures Visited(s, Apply(cfg, s, AnswerEvent(t, v.answer)), t, id, AnsweredRow(s.rows[id], v))
  {
    assert s.rows[id := s.rows[id]] == s.rows;
  }

  lemma AskingComputesTriggeredRow(cfg: Config, s: State, t: nat, id: Id, v: Visit)
    requires id in s.rows && t in s.tasks && v.claimAt == s.clock <= v.answerAt
    requires s.tasks[t] == Loaded(id, ByReaper, s.rows[id].status, s.rows[id].attempts)
    ensures Visited(s, Run(cfg, s, AskEvents(t, v.answerAt - s.clock, v.answer)), t, id, TriggeredRow(s.rows[id], id, v))
  {
    var asked, wait := [Claim(t), Post(t)], Advance(v.answerAt - s.clock);
    ClaimThenPost(cfg, s, t, id);
    GradingRuns.RunSnoc(cfg, s, asked, wait);
    GradingRuns.RunSnoc(cfg, s, asked + [wait], AnswerEvent(t, v.answer));
    assert AskEvents(t, v.answerAt - s.clock, v.answer) == asked + [wait] + [AnswerEvent(t, v.answer)];
    AnswerIsRecorded(cfg, Run(cfg, s, asked + [wait]), t, id, v);
  }

  lemma RunPair(cfg: Config, s: State, e: Event, f: Event)
    ensures Run(cfg, s, [e, f]) == Apply(cfg, Apply(cfg, s, e), f)
  {
    assert [e, f][..1] == [e] && [e][..0] == [];
    assert Run(cfg, s, [e]) == Apply(cfg, Run(cfg, s, []), e);
  }
}
