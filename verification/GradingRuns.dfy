/** What every run of the grading protocol keeps. */
module GradingRuns {
  import opened Base
  import opened Grading

  // ------------------------------------------------------------------------
  // Which events write a given row
  // ------------------------------------------------------------------------

  ghost predicate Holds(s: State, t: nat, id: Id) {
    id in s.rows && t in s.tasks && s.tasks[t].id == id
  }

  ghost predicate ClaimWins(s: State, e: Event, id: Id) {
    e.Claim? && Holds(s, e.task, id) && s.tasks[e.task].Loaded?
    && TokenMatches(s.rows[id], s.tasks[e.task].status, s.tasks[e.task].attempts)
  }

  ghost predicate GiveUpWins(s: State, e: Event, id: Id) {
    e.GiveUp? && Holds(s, e.task, id) && s.tasks[e.task].GivingUp?
    && TokenMatches(s.rows[id], s.tasks[e.task].status, s.tasks[e.task].attempts)
  }

  ghost predicate AnswerWins(s: State, e: Event, id: Id) {
    (e.Accept? || e.Refuse?) && Holds(s, e.task, id) && s.tasks[e.task].OnWire?
    && TokenMatches(s.rows[id], Pending, s.tasks[e.task].attempt)
  }

  ghost predicate CallbackLands(cfg: Config, s: State, e: Event, id: Id) {
    e.Land? && Holds(s, e.task, id) && ReadyToLand(cfg, s.tasks[e.task])
  }

  /** The complete list of writes to one row. */
  lemma RowStep(cfg: Config, s: State, e: Event, id: Id)
    requires id in s.rows
    ensures id in Apply(cfg, s, e).rows
    ensures Apply(cfg, s, e).rows[id] ==
            if ClaimWins(s, e, id) then ClaimRow(s.rows[id], id, s.clock)
            else if GiveUpWins(s, e, id) then FailRow(s.rows[id], NeverAnswered, s.clock)
            else if AnswerWins(s, e, id) then
              if e.Accept? then AcceptRow(s.rows[id], e.echoed, s.clock) else FailRow(s.rows[id], AgentRefused, s.clock)
            else if CallbackLands(cfg, s, e, id) then LandedRow(s.rows[id], s.tasks[e.task], s.clock)
            else s.rows[id]
  {
  }

  lemma {:induction false} RunKeepsInv(cfg: Config, s: State, es: seq<Event>)
    requires Inv(cfg, s)
    ensures Inv(cfg, Run(cfg, s, es))
  {
    if es != [] {
      RunKeepsInv(cfg, s, es[..|es| - 1]);
      StepKeepsInv(cfg, Run(cfg, s, es[..|es| - 1]), es[|es| - 1]);
    }
  }

  lemma {:induction false} RunSplits(cfg: Config, s: State, es: seq<Event>, fs: seq<Event>)
    ensures Run(cfg, s, es + fs) == Run(cfg, Run(cfg, s, es), fs)
  {
    if fs == [] {
      assert es + fs == es;
    } else {
      var all := es + fs;
      assert all[..|all| - 1] == es + fs[..|fs| - 1];
      RunSplits(cfg, s, es, fs[..|fs| - 1]);
    }
  }

  // ------------------------------------------------------------------------
  // Attempts: monotone, fenced, bounded
  // ------------------------------------------------------------------------

  /** Rows are never lost and `attempts` never decreases, over any stretch of a run. */
  lemma {:induction false} AttemptsNeverDecrease(cfg: Config, s: State, es: seq<Event>, id: Id)
    requires id in s.rows
    ensures id in Run(cfg, s, es).rows && s.rows[id].attempts <= Run(cfg, s, es).rows[id].attempts
  {
    if es != [] {
      AttemptsNeverDecrease(cfg, s, es[..|es| - 1], id);
      RowStep(cfg, Run(cfg, s, es[..|es| - 1]), es[|es| - 1], id);
    }
  }

  /** The manual retries that won on this row, counted along the run. */
  ghost function RetriesWon(cfg: Config, es: seq<Event>, id: Id): nat {
    if es == [] then 0
    else
      var s, e := Run(cfg, Empty, es[..|es| - 1]), es[|es| - 1];
      RetriesWon(cfg, es[..|es| - 1], id) + if ClaimWins(s, e, id) && s.tasks[e.task].origin == ByRetry then 1 else 0
  }

  lemma RetriesStep(cfg: Config, s: State, e: Event, id: Id)
    ensures RetriesOf(Apply(cfg, s, e), id)
            == RetriesOf(s, id) + if ClaimWins(s, e, id) && s.tasks[e.task].origin == ByRetry then 1 else 0
  {
  }

  lemma {:induction false} RetriesAreCounted(cfg: Config, es: seq<Event>, id: Id)
    ensures RetriesOf(Run(cfg, Empty, es), id) == RetriesWon(cfg, es, id)
  {
    if es != [] {
      RetriesAreCounted(cfg, es[..|es| - 1], id);
      RetriesStep(cfg, Run(cfg, Empty, es[..|es| - 1]), es[|es| - 1], id);
    }
  }

  /** What is on the wire's record is what was posted: a claimed attempt, by the task that claimed it. */
  lemma WireIsWhatWasPosted(cfg: Config, s: State, e: Event)
    ensures Apply(cfg, s, e).wire
            == if e.Post? && e.task in s.tasks && s.tasks[e.task].OnWire? && s.tasks[e.task].id in s.rows
               then s.wire + {(s.tasks[e.task].id, s.tasks[e.task].attempt, e.task)} else s.wire
  {
  }

  /** The fence and the budget: in every reachable state each attempt number was put
      on the wire by at most one task, and no row used more attempts than the budget
      plus the manual retries that won their claim. */
  lemma EachAttemptOnWireOnce(cfg: Config, es: seq<Event>)
    ensures var s := Run(cfg, Empty, es);
      && (forall v, w | v in s.wire && w in s.wire && v.0 == w.0 && v.1 == w.1 :: v.2 == w.2)
      && (forall w | w in s.wire :: w.0 in s.rows && 1 <= w.1 <= s.rows[w.0].attempts)
      && (forall id | id in s.rows ::
            s.rows[id].attempts <= (if cfg.maxAttempts < 1 then 1 else cfg.maxAttempts) + RetriesWon(cfg, es, id))
  {
    RunKeepsInv(cfg, Empty, es);
    var s := Run(cfg, Empty, es);
    forall id | id in s.rows ensures s.rows[id].attempts <= Budget(cfg) + RetriesWon(cfg, es, id) {
      assert RowOk(cfg, s, id);
      RetriesAreCounted(cfg, es, id);
    }
  }

  // ------------------------------------------------------------------------
  // Jobs stay matched to their own submission
  // ------------------------------------------------------------------------

  /** The agent answers a trigger with the id it was sent. */
  ghost predicate Echoes(s: State, e: Event) {
    e.Accept? && e.task in s.tasks ==> e.echoed == s.tasks[e.task].id
  }

  ghost predicate JobsOwn(s: State) {
    forall id | id in s.rows ::
      && (s.rows[id].job == None || s.rows[id].job == Some(id))
      && (s.rows[id].attempts > 0 ==> s.rows[id].job == Some(id))
  }

  lemma StepKeepsJobs(cfg: Config, s: State, e: Event)
    requires JobsOwn(s) && Echoes(s, e)
    ensures JobsOwn(Apply(cfg, s, e))
  {
    var s' := Apply(cfg, s, e);
    forall id | id in s'.rows
      ensures s'.rows[id].job == None || s'.rows[id].job == Some(id)
      ensures s'.rows[id].attempts > 0 ==> s'.rows[id].job == Some(id)
    {
      if id in s.rows { RowStep(cfg, s, e, id); }
    }
  }

  lemma {:induction false} RunKeepsJobs(cfg: Config, s: State, es: seq<Event>)
    requires JobsOwn(s) && Along(cfg, s, es, Echoes)
    ensures JobsOwn(Run(cfg, s, es))
  {
    if es != [] {
      RunKeepsJobs(cfg, s, es[..|es| - 1]);
      StepKeepsJobs(cfg, Run(cfg, s, es[..|es| - 1]), es[|es| - 1]);
    }
  }

  /** A job that was on the wire after `es` is matched, in every later state, by its
      own submission and by no other row. */
  lemma SentJobsStayMatched(cfg: Config, es: seq<Event>, later: seq<Event>, id: Id, n: nat, t: nat)
    requires Along(cfg, Empty, es + later, Echoes)
    requires (id, n, t) in Run(cfg, Empty, es).wire
    ensures var rows := Run(cfg, Empty, es + later).rows;
      id in rows && forall other | other in rows :: rows[other].job == Some(id) <==> other == id
  {
    EachAttemptOnWireOnce(cfg, es);
    RunSplits(cfg, Empty, es, later);
    AttemptsNeverDecrease(cfg, Run(cfg, Empty, es), later, id);
    RunKeepsJobs(cfg, Empty, es + later);
  }

  /** A callback is heard on the row that carries its job, and on no other. */
  lemma HeardOnItsJobOnly(cfg: Config, s: State, job: Id, id: Id, p: Payload)
    requires id !in s.rows || s.rows[id].job != Some(job)
    ensures Apply(cfg, s, Hear(job, id, p)) == s
  {
  }

  /** Column by column, what a recorded callback writes when it commits, on whatever the row is
      by now: nothing if another callback stored the first result meanwhile, and otherwise each
      column that differs from what it had read. */
  lemma RecordingWritesWhatDiffers(cfg: Config, s: State, t: nat)
    requires t in s.tasks && s.tasks[t].Recording? && s.tasks[t].id in s.rows
    ensures var task, id := s.tasks[t], s.tasks[t].id;
      var sent := if task.payload.verdict.None? || task.payload.verdict.value == "" then "ERROR" else task.payload.verdict.value;
      var final := if sent == "ERROR" || task.payload.error || task.payload.infraError then Error else Done;
      var costs := task.payload.cost.Some? && task.payload.cost != task.seen.cost;
      var before, after := s.rows[id], Apply(cfg, s, Land(t)).rows[id];
      if task.found.None? && before.verdict.Some? then after == before
      else after == Row(if final == task.seen.status then before.status else final, before.attempts, before.job, before.reason,
                        if task.found == Some(sent) then before.verdict else Some(sent),
                        if costs then task.payload.cost else before.cost,
                        if final == task.seen.status && !costs then before.updatedAt else s.clock)
  {
  }

  // ------------------------------------------------------------------------
  // Done is final, except for an error verdict -- and two races
  // ------------------------------------------------------------------------

  /** The claim of a manual retry that re-read the row after `reopen_sitting`
      committed and found it already graded. */
  ghost predicate RetriesGraded(s: State, e: Event, id: Id) {
    ClaimWins(s, e, id) && s.tasks[e.task].origin == ByRetry && s.tasks[e.task].status == Done
  }

  /** A worker error that read "running" commits its re-queue. */
  ghost predicate RequeueLands(cfg: Config, s: State, e: Event, id: Id) {
    CallbackLands(cfg, s, e, id) && s.tasks[e.task].Heard? && s.tasks[e.task].seen.status != Pending
  }

  /** A callback records an error, and its status column differs from the row it read; its
      result has somewhere to go. */
  ghost predicate ErrorLands(cfg: Config, s: State, e: Event, id: Id) {
    && CallbackLands(cfg, s, e, id) && s.tasks[e.task].Recording?
    && IsErrorPayload(s.tasks[e.task].payload) && s.tasks[e.task].seen.status != Error
    && (s.tasks[e.task].found.Some? || s.rows[id].verdict.None?)
  }

  /** Every way out of "done", exactly: an error recorded by a callback (to "error"); the
      retry race or a landing re-queue (to "pending").  No other step moves a graded row. */
  lemma WaysOutOfDone(cfg: Config, s: State, e: Event, id: Id)
    requires Inv(cfg, s) && id in s.rows && s.rows[id].status == Done
    ensures id in Apply(cfg, s, e).rows
    ensures var after := Apply(cfg, s, e).rows[id].status;
      && (after == Error <==> ErrorLands(cfg, s, e, id))
      && (after == Pending <==> RetriesGraded(s, e, id) || RequeueLands(cfg, s, e, id))
      && after != Running
  {
    RowStep(cfg, s, e, id);
    if HasTask(e) && e.task in s.tasks {
      assert TaskOk(cfg, s, e.task, s.tasks[e.task]);
    }
  }

  /** A callback goes through the look-up only if it is to be recorded. */
  ghost predicate CallbacksConsistent(cfg: Config, s: State) {
    forall t | t in s.tasks && s.tasks[t].Recording? :: PathOf(cfg, s.tasks[t].seen, s.tasks[t].payload).Recorded?
  }

  lemma StepKeepsConsistent(cfg: Config, s: State, e: Event)
    requires CallbacksConsistent(cfg, s)
    ensures CallbacksConsistent(cfg, Apply(cfg, s, e))
  {
  }

  lemma {:induction false} RunKeepsConsistent(cfg: Config, es: seq<Event>)
    ensures CallbacksConsistent(cfg, Run(cfg, Empty, es))
  {
    if es != [] {
      RunKeepsConsistent(cfg, es[..|es| - 1]);
      StepKeepsConsistent(cfg, Run(cfg, Empty, es[..|es| - 1]), es[|es| - 1]);
    }
  }

  /** In every reachable state, each landing that takes a row out of "done" carries an error
      verdict or decided on a row that was not terminal when it read it. */
  lemma LandingsOutOfDone(cfg: Config, es: seq<Event>, e: Event, id: Id)
    requires var s := Run(cfg, Empty, es); ErrorLands(cfg, s, e, id) || RequeueLands(cfg, s, e, id)
    ensures var task := Run(cfg, Empty, es).tasks[e.task];
      (task.payload.verdict.Some? && IsErrorPayload(task.payload)) || !Terminal(task.seen.status)
  {
    RunKeepsConsistent(cfg, es);
  }

  /** A retry's re-read finds the row graded meanwhile. */
  ghost predicate ReloadFindsDone(s: State, e: Event) {
    && e.RetryReload? && e.task in s.tasks && s.tasks[e.task].Reopened? && s.tasks[e.task].id in s.rows
    && s.rows[s.tasks[e.task].id].status == Done
  }

  /** A re-queue commits on a row graded since it was read. */
  ghost predicate RequeueHitsDone(cfg: Config, s: State, e: Event) {
    exists id :: id in s.rows && s.rows[id].status == Done && RequeueLands(cfg, s, e, id)
  }

  ghost function SparesDone(cfg: Config): (State, Event) -> bool {
    (s: State, e: Event) => !ReloadFindsDone(s, e) && !RequeueHitsDone(cfg, s, e)
  }

  ghost predicate NoRetryOfDone(s: State) {
    forall t | t in s.tasks && s.tasks[t].Loaded? && s.tasks[t].origin == ByRetry :: s.tasks[t].status != Done
  }

  lemma StepKeepsRetries(cfg: Config, s: State, e: Event)
    requires NoRetryOfDone(s) && !ReloadFindsDone(s, e)
    ensures NoRetryOfDone(Apply(cfg, s, e))
  {
    if HasTask(e) && e.task in s.tasks && s.tasks[e.task].id in s.rows {
      TaskKeepsRetries(cfg, s, e);
    }
  }

  lemma TaskKeepsRetries(cfg: Config, s: State, e: Event)
    requires NoRetryOfDone(s) && !ReloadFindsDone(s, e)
    requires HasTask(e) && e.task in s.tasks && s.tasks[e.task].id in s.rows
    ensures NoRetryOfDone(ApplyTask(cfg, s, e, s.tasks[e.task]))
  {
    var s' := ApplyTask(cfg, s, e, s.tasks[e.task]);
    forall t | t in s'.tasks && s'.tasks[t].Loaded? && s'.tasks[t].origin == ByRetry ensures s'.tasks[t].status != Done {
      assert t != e.task ==> t in s.tasks && s'.tasks[t] == s.tasks[t];
    }
  }

  lemma {:induction false} RunKeepsRetries(cfg: Config, s: State, es: seq<Event>)
    requires NoRetryOfDone(s) && Along(cfg, s, es, SparesDone(cfg))
    ensures NoRetryOfDone(Run(cfg, s, es))
  {
    if es != [] {
      RunKeepsRetries(cfg, s, es[..|es| - 1]);
      StepKeepsRetries(cfg, Run(cfg, s, es[..|es| - 1]), es[|es| - 1]);
    }
  }

  /** In every run in which no retry re-reads a graded row and no re-queue lands on one, no
      step at all takes a submission from done to pending or running. */
  lemma DoneNeverRegresses(cfg: Config, es: seq<Event>, e: Event, id: Id)
    requires Along(cfg, Empty, es + [e], SparesDone(cfg))
    requires id in Run(cfg, Empty, es).rows && Run(cfg, Empty, es).rows[id].status == Done
    ensures id in Run(cfg, Empty, es + [e]).rows && Terminal(Run(cfg, Empty, es + [e]).rows[id].status)
  {
    assert (es + [e])[..|es|] == es;
    assert SparesDone(cfg)(Run(cfg, Empty, es), e);
    RunKeepsInv(cfg, Empty, es);
    RunKeepsRetries(cfg, Empty, es);
    WaysOutOfDone(cfg, Run(cfg, Empty, es), e, id);
  }

  /** Neither exception is idle.  A reload that finds "done" can be claimed into "pending"... */
  lemma ReloadOfDoneRegresses(cfg: Config, s: State, t: nat)
    requires ReloadFindsDone(s, RetryReload(t))
    ensures var s2 := Apply(cfg, Apply(cfg, s, RetryReload(t)), Claim(t));
      s.tasks[t].id in s2.rows && s2.rows[s.tasks[t].id].status == Pending
  {
  }

  /** ...and a re-queue that lands on "done" leaves it "pending". */
  lemma RequeueOnDoneRegresses(cfg: Config, s: State, e: Event)
    requires RequeueHitsDone(cfg, s, e)
    ensures exists id :: id in s.rows && s.rows[id].status == Done
                         && id in Apply(cfg, s, e).rows && Apply(cfg, s, e).rows[id].status == Pending
  {
    var id :| id in s.rows && s.rows[id].status == Done && RequeueLands(cfg, s, e, id);
    RowStep(cfg, s, e, id);
  }

  /** Retry as one step -- check and reload with nothing in between -- never finds "done". */
  lemma AtomicRetrySeesError(cfg: Config, s: State, id: Id)
    requires Inv(cfg, s) && NoRetryOfDone(s)
    ensures !ReloadFindsDone(Apply(cfg, s, RetryCheck(id)), RetryReload(s.next))
    ensures NoRetryOfDone(Apply(cfg, Apply(cfg, s, RetryCheck(id)), RetryReload(s.next)))
  {
    assert forall t | t in s.tasks :: TaskOk(cfg, s, t, s.tasks[t]);
    StepKeepsRetries(cfg, s, RetryCheck(id));
    StepKeepsRetries(cfg, Apply(cfg, s, RetryCheck(id)), RetryReload(s.next));
  }

  lemma RunSnoc(cfg: Config, s: State, es: seq<Event>, e: Event)
    ensures Run(cfg, s, es + [e]) == Apply(cfg, Run(cfg, s, es), e)
  {
    assert (es + [e])[..|es|] == es;
  }

  const RaceConfig := Config(3, 120, 900)
  const Passed := Payload(Some("PASS"), false, false, None)
  const WorkerError := Payload(None, true, false, None)

  /** A verdict read, looked up and committed with nothing in between, on a row with no result yet. */
  lemma VerdictLands(cfg: Config, s: State)
    requires 0 in s.rows && s.rows[0].job == Some(0) && s.rows[0].verdict.None? && s.rows[0].status != Done && s.next !in s.tasks
    ensures var s3 := Apply(cfg, Apply(cfg, Apply(cfg, s, Hear(0, 0, Passed)), LookUp(s.next)), Land(s.next));
      s3 == s.(rows := s.rows[0 := s.rows[0].(status := Done, verdict := Some("PASS"), updatedAt := s.clock)], next := s.next + 1)
  {
    var s1 := Apply(cfg, s, Hear(0, 0, Passed));
    assert s1 == Spawn(s, Heard(0, s.rows[0], Passed));
    var s2 := Apply(cfg, s1, LookUp(s.next));
    assert s2.tasks[s.next] == Recording(0, s.rows[0], Passed, None);
    assert s2.tasks - {s.next} == s.tasks;
  }

  /** A submission the agent refused, with a retry that has checked it and cleared the stamp. */
  lemma RefusedThenReopened() returns (es: seq<Event>)
    ensures Run(RaceConfig, Empty, es) ==
            State(0, map[0 := Row(Error, 1, Some(0), Some(AgentRefused), None, None, 0)],
                  map[1 := Reopened(0)], 2, map[(0, 1) := 0], {}, map[])
  {
    es := [];
    RunSnoc(RaceConfig, Empty, es, Submit(0));
    es := es + [Submit(0)];
    RunSnoc(RaceConfig, Empty, es, Claim(0));
    es := es + [Claim(0)];
    assert Run(RaceConfig, Empty, es).tasks == map[0 := OnWire(0, 1, 0)];
    RunSnoc(RaceConfig, Empty, es, Refuse(0));
    es := es + [Refuse(0)];
    assert Run(RaceConfig, Empty, es).tasks == map[];
    RunSnoc(RaceConfig, Empty, es, RetryCheck(0));
    es := es + [RetryCheck(0)];
  }

  /** The retry race: the agent's late verdict lands between a retry's check and its re-read. */
  lemma RetryRaceRegradesADoneRow() returns (es: seq<Event>, e: Event)
    ensures 0 in Run(RaceConfig, Empty, es).rows && Run(RaceConfig, Empty, es).rows[0].status == Done
    ensures 0 in Run(RaceConfig, Empty, es + [e]).rows && Run(RaceConfig, Empty, es + [e]).rows[0].status == Pending
  {
    es := RefusedThenReopened();
    var s := Run(RaceConfig, Empty, es);
    VerdictLands(RaceConfig, s);
    RunThrice(RaceConfig, es, Hear(0, 0, Passed), LookUp(2), Land(2));
    es := es + [Hear(0, 0, Passed)] + [LookUp(2)] + [Land(2)];
    RunSnoc(RaceConfig, Empty, es, RetryReload(1));
    assert ReloadFindsDone(Run(RaceConfig, Empty, es), RetryReload(1));
    ReloadOfDoneRegresses(RaceConfig, Run(RaceConfig, Empty, es), 1);
    es := es + [RetryReload(1)];
    e := Claim(1);
    RunSnoc(RaceConfig, Empty, es, e);
  }

  lemma RunThrice(cfg: Config, es: seq<Event>, a: Event, b: Event, c: Event)
    ensures Run(cfg, Empty, es + [a] + [b] + [c]) == Apply(cfg, Apply(cfg, Apply(cfg, Run(cfg, Empty, es), a), b), c)
  {
    RunSnoc(cfg, Empty, es, a);
    RunSnoc(cfg, Empty, es + [a], b);
    RunSnoc(cfg, Empty, es + [a] + [b], c);
  }

  /** An accepted submission whose worker error has been read and not committed. */
  lemma ErrorHeardWhileRunning() returns (es: seq<Event>)
    ensures Run(RaceConfig, Empty, es) ==
            State(0, map[0 := Row(Running, 1, Some(0), None, None, None, 0)],
                  map[1 := Heard(0, Row(Running, 1, Some(0), None, None, None, 0), WorkerError)], 2, map[(0, 1) := 0], {}, map[])
  {
    es := [];
    RunSnoc(RaceConfig, Empty, es, Submit(0));
    es := es + [Submit(0)];
    RunSnoc(RaceConfig, Empty, es, Claim(0));
    es := es + [Claim(0)];
    assert Run(RaceConfig, Empty, es).tasks == map[0 := OnWire(0, 1, 0)];
    RunSnoc(RaceConfig, Empty, es, Accept(0, 0));
    es := es + [Accept(0, 0)];
    assert Run(RaceConfig, Empty, es).tasks == map[];
    RunSnoc(RaceConfig, Empty, es, Hear(0, 0, WorkerError));
    es := es + [Hear(0, 0, WorkerError)];
  }

  /** The callback race, with no retry at all: a worker error reads "running", a verdict
      commits, and the worker error's re-queue puts the graded row back in "pending". */
  lemma StaleRequeueRegradesADoneRow() returns (es: seq<Event>, e: Event)
    ensures 0 in Run(RaceConfig, Empty, es).rows && Run(RaceConfig, Empty, es).rows[0].status == Done
    ensures 0 in Run(RaceConfig, Empty, es + [e]).rows && Run(RaceConfig, Empty, es + [e]).rows[0].status == Pending
  {
    es := ErrorHeardWhileRunning();
    var s := Run(RaceConfig, Empty, es);
    VerdictLands(RaceConfig, s);
    RunThrice(RaceConfig, es, Hear(0, 0, Passed), LookUp(2), Land(2));
    es := es + [Hear(0, 0, Passed)] + [LookUp(2)] + [Land(2)];
    e := Land(1);
    RunSnoc(RaceConfig, Empty, es, e);
    RequeueReopens(RaceConfig, Run(RaceConfig, Empty, es), 1);
  }

  lemma RequeueReopens(cfg: Config, s: State, t: nat)
    requires t in s.tasks && s.tasks[t].Heard? && s.tasks[t].id in s.rows && s.tasks[t].seen.status == Running
    requires ReadyToLand(cfg, s.tasks[t])
    ensures s.tasks[t].id in Apply(cfg, s, Land(t)).rows && Apply(cfg, s, Land(t)).rows[s.tasks[t].id].status == Pending
  {
  }

  // ------------------------------------------------------------------------
  // Termination: the reaper runs out of attempts
  // ------------------------------------------------------------------------

  /** A reaper pass that acted on the row: its claim or its give-up won. */
  ghost predicate ReaperActs(s: State, e: Event, id: Id) {
    (ClaimWins(s, e, id) && s.tasks[e.task].origin == ByReaper) || GiveUpWins(s, e, id)
  }

  ghost function ReaperPasses(cfg: Config, s: State, es: seq<Event>, id: Id): nat {
    if es == [] then 0
    else ReaperPasses(cfg, s, es[..|es| - 1], id)
         + if ReaperActs(Run(cfg, s, es[..|es| - 1]), es[|es| - 1], id) then 1 else 0
  }

  ghost predicate OpenThroughout(cfg: Config, s: State, es: seq<Event>, id: Id) {
    forall k | 0 <= k <= |es| :: id in Run(cfg, s, es[..k]).rows && !Terminal(Run(cfg, s, es[..k]).rows[id].status)
  }

  lemma ReaperActSpendsAttempt(cfg: Config, s: State, e: Event, id: Id)
    requires Inv(cfg, s) && id in s.rows && id in Apply(cfg, s, e).rows && !Terminal(Apply(cfg, s, e).rows[id].status)
    ensures var acted := if ReaperActs(s, e, id) then 1 else 0;
      acted + Remaining(cfg, Apply(cfg, s, e).rows[id]) <= Remaining(cfg, s.rows[id])
  {
    RowStep(cfg, s, e, id);
    if HasTask(e) && e.task in s.tasks { assert TaskOk(cfg, s, e.task, s.tasks[e.task]); }
  }

  lemma {:induction false} OpenRowSpendsAttempts(cfg: Config, s: State, es: seq<Event>, id: Id)
    requires Inv(cfg, s) && OpenThroughout(cfg, s, es, id) && id in s.rows
    ensures id in Run(cfg, s, es).rows
    ensures ReaperPasses(cfg, s, es, id) + Remaining(cfg, Run(cfg, s, es).rows[id]) <= Remaining(cfg, s.rows[id])
  {
    if es != [] {
      var init := es[..|es| - 1];
      assert forall k | 0 <= k <= |init| :: init[..k] == es[..k];
      OpenRowSpendsAttempts(cfg, s, init, id);
      RunKeepsInv(cfg, s, init);
      assert es[..|es|] == es;
      ReaperActSpendsAttempt(cfg, Run(cfg, s, init), es[|es| - 1], id);
    }
  }

  /** From any reachable state, once the reaper has acted on a row more often than it
      has attempts left, the row was terminal at some point on the way -- whatever the
      agent answered and however many worker-error callbacks re-queued it. */
  lemma ReaperTerminates(cfg: Config, s: State, es: seq<Event>, id: Id)
    requires Inv(cfg, s) && id in s.rows
    requires ReaperPasses(cfg, s, es, id) > Remaining(cfg, s.rows[id])
    ensures exists k :: 0 <= k <= |es| && id in Run(cfg, s, es[..k]).rows && Terminal(Run(cfg, s, es[..k]).rows[id].status)
  {
    forall k | 0 <= k <= |es| ensures id in Run(cfg, s, es[..k]).rows {
      AttemptsNeverDecrease(cfg, s, es[..k], id);
    }
    if OpenThroughout(cfg, s, es, id) { OpenRowSpendsAttempts(cfg, s, es, id); }
  }

  /** A pass that finds the row past grace and is not raced always acts: it either
      spends an attempt or ends the row. */
  lemma UncontestedPassActs(cfg: Config, s: State, id: Id, hasQuestion: bool)
    requires Inv(cfg, s) && id in s.rows && !Terminal(s.rows[id].status) && PastGrace(cfg, s.rows[id], s.clock)
    ensures var visited := Apply(cfg, Apply(cfg, s, TickList(id)), TickVisit(s.next, hasQuestion));
      var act := if s.rows[id].attempts < cfg.maxAttempts && hasQuestion then Claim(s.next) else GiveUp(s.next);
      && ReaperActs(visited, act, id)
      && id in Apply(cfg, visited, act).rows
      && var after := Apply(cfg, visited, act).rows[id];
      after.status == Error || (after.status == Pending && after.attempts == s.rows[id].attempts + 1)
  {
  }

  // ------------------------------------------------------------------------
  // Real time: the pending grace outlasts the wire
  // ------------------------------------------------------------------------

  /** No manual retry, and time never passes an in-flight trigger's deadline: a
      trigger leaves the wire within `d` of its claim. */
  ghost function Prompt(d: nat): (State, Event) -> bool {
    (s: State, e: Event) =>
      && !e.RetryCheck?
      && (e.Advance? ==> forall t | t in s.tasks && s.tasks[t].OnWire? :: s.clock + e.d <= s.tasks[t].since + d)
  }

  ghost predicate WireIdle(s: State, id: Id) {
    forall t | t in s.tasks && s.tasks[t].OnWire? :: s.tasks[t].id != id
  }

  /** A trigger on the wire holds the row's latest attempt, and a reaper whose token
      still matches found the wire idle. */
  ghost predicate TimedTask(d: nat, s: State, task: Task) {
    && task.id in s.rows
    && var row := s.rows[task.id];
    match task
    case Reopened(_) => false
    case Listed(_, _) => true
    case Loaded(id, origin, _, n) => origin != ByRetry && (n == row.attempts ==> WireIdle(s, id))
    case GivingUp(_, _, _) => true
    case OnWire(_, n, since) => n == row.attempts && row.status != Running && s.clock <= since + d
    case Heard(_, _, _) => true
    case Recording(_, _, _, _) => true
  }

  ghost predicate Timed(d: nat, s: State) {
    forall t | t in s.tasks :: TimedTask(d, s, s.tasks[t])
  }

  lemma VisitFindsIdleWire(cfg: Config, d: nat, s: State, t: nat)
    requires Inv(cfg, s) && Timed(d, s) && d <= cfg.retryAfter
    requires t in s.tasks && s.tasks[t].Listed? && PastGrace(cfg, s.rows[s.tasks[t].id], s.tasks[t].now)
    requires s.rows[s.tasks[t].id].status == Pending || s.rows[s.tasks[t].id].status == Running
    ensures WireIdle(s, s.tasks[t].id)
  {
    assert TaskOk(cfg, s, t, s.tasks[t]);
    forall u | u in s.tasks && s.tasks[u].OnWire? ensures s.tasks[u].id != s.tasks[t].id {
      assert TaskOk(cfg, s, u, s.tasks[u]) && TimedTask(d, s, s.tasks[u]);
    }
  }

  lemma IdleStaysIdle(cfg: Config, s: State, e: Event, id: Id)
    requires WireIdle(s, id) && !ClaimWins(s, e, id)
    ensures WireIdle(Apply(cfg, s, e), id)
  {
  }

  /** A task that the step leaves alone stays timed. */
  lemma BystanderStaysTimed(cfg: Config, d: nat, s: State, e: Event, t: nat)
    requires Inv(cfg, s) && Timed(d, s) && Prompt(d)(s, e)
    requires t in s.tasks && t in Apply(cfg, s, e).tasks && Apply(cfg, s, e).tasks[t] == s.tasks[t]
    ensures TimedTask(d, Apply(cfg, s, e), s.tasks[t])
  {
    var task := s.tasks[t];
    assert TaskOk(cfg, s, t, task) && TimedTask(d, s, task);
    RowStep(cfg, s, e, task.id);
    if task.OnWire? {
      WaitingStaysTimed(cfg, d, s, e, t);
    } else if task.Loaded? && task.attempts == s.rows[task.id].attempts && !ClaimWins(s, e, task.id) {
      IdleStaysIdle(cfg, s, e, task.id);
    }
  }

  /** While a trigger is on the wire no other task can win the row's next attempt or answer. */
  lemma NoRival(cfg: Config, d: nat, s: State, e: Event, t: nat)
    requires Inv(cfg, s) && Timed(d, s) && t in s.tasks && s.tasks[t].OnWire?
    ensures !ClaimWins(s, e, s.tasks[t].id)
    ensures AnswerWins(s, e, s.tasks[t].id) ==> e.task == t
  {
    assert TaskOk(cfg, s, t, s.tasks[t]) && TimedTask(d, s, s.tasks[t]);
    if (e.Claim? || e.Accept? || e.Refuse?) && Holds(s, e.task, s.tasks[t].id) {
      assert TaskOk(cfg, s, e.task, s.tasks[e.task]) && TimedTask(d, s, s.tasks[e.task]);
    }
  }

  lemma AnswerEndsTask(cfg: Config, s: State, e: Event, id: Id)
    requires AnswerWins(s, e, id)
    ensures e.task !in Apply(cfg, s, e).tasks
  {
  }

  lemma WaitingStaysTimed(cfg: Config, d: nat, s: State, e: Event, t: nat)
    requires Inv(cfg, s) && Timed(d, s) && Prompt(d)(s, e)
    requires t in s.tasks && t in Apply(cfg, s, e).tasks && s.tasks[t].OnWire?
    ensures TimedTask(d, Apply(cfg, s, e), s.tasks[t])
  {
    var task := s.tasks[t];
    assert TimedTask(d, s, task);
    NoRival(cfg, d, s, e, t);
    if AnswerWins(s, e, task.id) { AnswerEndsTask(cfg, s, e, task.id); }
    RowStep(cfg, s, e, task.id);
    ClockStep(cfg, s, e);
  }

  lemma ClockStep(cfg: Config, s: State, e: Event)
    ensures Apply(cfg, s, e).clock == if e.Advance? then s.clock + e.d else s.clock
  {
  }

  lemma VisitorIsTimed(cfg: Config, d: nat, s: State, e: Event)
    requires Inv(cfg, s) && Timed(d, s) && d <= cfg.retryAfter && e.TickVisit?
    requires e.task in s.tasks && e.task in Apply(cfg, s, e).tasks && s.tasks[e.task].Listed?
    ensures TimedTask(d, Apply(cfg, s, e), Apply(cfg, s, e).tasks[e.task])
  {
    var task := s.tasks[e.task];
    assert TaskOk(cfg, s, e.task, task) && TimedTask(d, s, task);
    if PastGrace(cfg, s.rows[task.id], task.now) {
      VisitFindsIdleWire(cfg, d, s, e.task);
      IdleStaysIdle(cfg, s, e, task.id);
    }
  }

  lemma LookUpKeepsRows(cfg: Config, s: State, e: Event)
    requires e.LookUp? && e.task in s.tasks && e.task in Apply(cfg, s, e).tasks && Apply(cfg, s, e).tasks[e.task] != s.tasks[e.task]
    ensures Apply(cfg, s, e).rows == s.rows && Apply(cfg, s, e).tasks[e.task].Recording?
    ensures Apply(cfg, s, e).tasks[e.task].id == s.tasks[e.task].id
  {
  }

  lemma ActorStaysTimed(cfg: Config, d: nat, s: State, e: Event)
    requires Inv(cfg, s) && Timed(d, s) && d <= cfg.retryAfter && HasTask(e)
    requires e.task in s.tasks && e.task in Apply(cfg, s, e).tasks && Apply(cfg, s, e).tasks[e.task] != s.tasks[e.task]
    ensures TimedTask(d, Apply(cfg, s, e), Apply(cfg, s, e).tasks[e.task])
  {
    var task := s.tasks[e.task];
    assert TaskOk(cfg, s, e.task, task) && TimedTask(d, s, task);
    if e.TickVisit? {
      VisitorIsTimed(cfg, d, s, e);
    } else if e.LookUp? {
      LookUpKeepsRows(cfg, s, e);
    } else {
      assert e.Claim? && task.Loaded?;
    }
  }

  lemma OnlyActorsChange(cfg: Config, s: State, e: Event, t: nat)
    requires t in s.tasks && t < s.next && t in Apply(cfg, s, e).tasks && Apply(cfg, s, e).tasks[t] != s.tasks[t]
    ensures HasTask(e) && e.task == t
  {
  }

  lemma StepKeepsTimed(cfg: Config, d: nat, s: State, e: Event)
    requires Inv(cfg, s) && Timed(d, s) && d <= cfg.retryAfter && Prompt(d)(s, e)
    ensures Timed(d, Apply(cfg, s, e))
  {
    var s' := Apply(cfg, s, e);
    forall t | t in s'.tasks ensures TimedTask(d, s', s'.tasks[t]) {
      if t in s.tasks && s'.tasks[t] == s.tasks[t] {
        BystanderStaysTimed(cfg, d, s, e, t);
      } else if t in s.tasks {
        assert TaskOk(cfg, s, t, s.tasks[t]);
        OnlyActorsChange(cfg, s, e, t);
        ActorStaysTimed(cfg, d, s, e);
      } else {
        NewcomerIsTimed(cfg, d, s, e, t);
      }
    }
  }

  lemma NewTasksArrive(cfg: Config, s: State, e: Event, t: nat)
    requires t !in s.tasks && t in Apply(cfg, s, e).tasks
    ensures e.Submit? || e.TickList? || e.RetryCheck? || e.Hear?
  {
  }

  lemma NewcomerIsTimed(cfg: Config, d: nat, s: State, e: Event, t: nat)
    requires Inv(cfg, s) && Timed(d, s) && Prompt(d)(s, e)
    requires t !in s.tasks && t in Apply(cfg, s, e).tasks
    ensures TimedTask(d, Apply(cfg, s, e), Apply(cfg, s, e).tasks[t])
  {
    NewTasksArrive(cfg, s, e, t);
    if e.Submit? {
      forall u | u in s.tasks ensures s.tasks[u].id != e.newId { assert TaskOk(cfg, s, u, s.tasks[u]); }
    }
  }

  lemma {:induction false} RunKeepsTimed(cfg: Config, d: nat, es: seq<Event>)
    requires d <= cfg.retryAfter && Along(cfg, Empty, es, Prompt(d))
    ensures Timed(d, Run(cfg, Empty, es))
  {
    if es != [] {
      var init := es[..|es| - 1];
      RunKeepsTimed(cfg, d, init);
      RunKeepsInv(cfg, Empty, init);
      StepKeepsTimed(cfg, d, Run(cfg, Empty, init), es[|es| - 1]);
    }
  }

  /** If triggers take at most `d` and the pending grace is at least that, then in every
      run without manual retry a winning claim finds no earlier trigger of the row on the wire. */
  lemma NoClaimWhileOnWire(cfg: Config, d: nat, es: seq<Event>, e: Event, id: Id)
    requires d <= cfg.retryAfter && Along(cfg, Empty, es, Prompt(d))
    requires ClaimWins(Run(cfg, Empty, es), e, id)
    ensures WireIdle(Run(cfg, Empty, es), id)
  {
    RunKeepsTimed(cfg, d, es);
    var s := Run(cfg, Empty, es);
    assert TimedTask(d, s, s.tasks[e.task]);
  }
}
