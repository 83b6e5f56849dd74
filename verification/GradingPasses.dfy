/**
How many reaper passes an open submission can survive: passes that nothing interrupts, and
passes of a single reaper that callbacks and late accepts may make lose.
*/
module GradingPasses {
  import opened Base
  import opened Grading
  import opened GradingRuns

  // ------------------------------------------------------------------------
  // Uninterrupted passes
  // ------------------------------------------------------------------------

  /** A pass is the reaper's visit to one row together with the swap it leads to; anything
      else -- other workers' visits and swaps included -- is a step of its own. */
  datatype Block = Other(e: Event) | Pass(task: nat, hasQuestion: bool)

  /** What a visited task goes on to. */
  function SwapOf(s: State, t: nat): Event {
    if t in s.tasks && s.tasks[t].GivingUp? then GiveUp(t) else Claim(t)
  }

  function ApplyBlock(cfg: Config, s: State, b: Block): State {
    match b
    case Other(e) => Apply(cfg, s, e)
    case Pass(t, hasQuestion) =>
      var visited := Apply(cfg, s, TickVisit(t, hasQuestion));
      Apply(cfg, visited, SwapOf(visited, t))
  }

  function RunBlocks(cfg: Config, s: State, bs: seq<Block>): State {
    if bs == [] then s else ApplyBlock(cfg, RunBlocks(cfg, s, bs[..|bs| - 1]), bs[|bs| - 1])
  }

  /** The pass finds the row past its grace. */
  ghost predicate Finds(cfg: Config, s: State, b: Block, id: Id) {
    b.Pass? && Holds(s, b.task, id) && s.tasks[b.task].Listed? && PastGrace(cfg, s.rows[id], s.tasks[b.task].now)
  }

  ghost function FindsOf(cfg: Config, s: State, bs: seq<Block>, id: Id): nat {
    if bs == [] then 0
    else FindsOf(cfg, s, bs[..|bs| - 1], id)
         + if Finds(cfg, RunBlocks(cfg, s, bs[..|bs| - 1]), bs[|bs| - 1], id) then 1 else 0
  }

  lemma StepKeepsAttempts(cfg: Config, s: State, e: Event, id: Id)
    requires id in s.rows
    ensures id in Apply(cfg, s, e).rows && s.rows[id].attempts <= Apply(cfg, s, e).rows[id].attempts
  {
    RowStep(cfg, s, e, id);
  }

  lemma BlockKeepsAttempts(cfg: Config, s: State, b: Block, id: Id)
    requires id in s.rows
    ensures id in ApplyBlock(cfg, s, b).rows && s.rows[id].attempts <= ApplyBlock(cfg, s, b).rows[id].attempts
  {
    if b.Other? {
      StepKeepsAttempts(cfg, s, b.e, id);
    } else {
      var visited := Apply(cfg, s, TickVisit(b.task, b.hasQuestion));
      StepKeepsAttempts(cfg, s, TickVisit(b.task, b.hasQuestion), id);
      StepKeepsAttempts(cfg, visited, SwapOf(visited, b.task), id);
    }
  }

  lemma VisitLoadsToken(cfg: Config, s: State, t: nat, hasQuestion: bool, id: Id)
    requires Finds(cfg, s, Pass(t, hasQuestion), id)
    ensures var visited := Apply(cfg, s, TickVisit(t, hasQuestion));
      && visited.rows == s.rows && visited.clock == s.clock && t in visited.tasks
      && visited.tasks[t] == (if s.rows[id].attempts < cfg.maxAttempts && hasQuestion
                              then Loaded(id, ByReaper, s.rows[id].status, s.rows[id].attempts)
                              else GivingUp(id, s.rows[id].status, s.rows[id].attempts))
  {
  }

  lemma FreshTokenWins(cfg: Config, s: State, t: nat, id: Id)
    requires id in s.rows && t in s.tasks
    requires s.tasks[t] == Loaded(id, ByReaper, s.rows[id].status, s.rows[id].attempts)
          || s.tasks[t] == GivingUp(id, s.rows[id].status, s.rows[id].attempts)
    ensures Apply(cfg, s, SwapOf(s, t)).rows ==
            s.rows[id := if s.tasks[t].Loaded? then ClaimRow(s.rows[id], id, s.clock) else FailRow(s.rows[id], NeverAnswered, s.clock)]
  {
  }

  /** A pass that finds the row past grace ends it or spends an attempt. */
  lemma PassSpends(cfg: Config, s: State, b: Block, id: Id)
    requires Finds(cfg, s, b, id)
    ensures id in ApplyBlock(cfg, s, b).rows
    ensures var after := ApplyBlock(cfg, s, b).rows[id];
      after.status == Error || Remaining(cfg, after) + 1 == Remaining(cfg, s.rows[id])
  {
    var visited := Apply(cfg, s, TickVisit(b.task, b.hasQuestion));
    VisitLoadsToken(cfg, s, b.task, b.hasQuestion, id);
    FreshTokenWins(cfg, visited, b.task, id);
  }

  ghost predicate OpenAfter(cfg: Config, s: State, bs: seq<Block>, id: Id) {
    id in RunBlocks(cfg, s, bs).rows && !Terminal(RunBlocks(cfg, s, bs).rows[id].status)
  }

  lemma {:induction false} OpenBlocksSpend(cfg: Config, s: State, bs: seq<Block>, id: Id)
    requires id in s.rows && forall k | 0 <= k <= |bs| :: OpenAfter(cfg, s, bs[..k], id)
    ensures id in RunBlocks(cfg, s, bs).rows
    ensures FindsOf(cfg, s, bs, id) + Remaining(cfg, RunBlocks(cfg, s, bs).rows[id]) <= Remaining(cfg, s.rows[id])
  {
    if bs != [] {
      var init, b := bs[..|bs| - 1], bs[|bs| - 1];
      forall k | 0 <= k <= |init| ensures OpenAfter(cfg, s, init[..k], id) { assert init[..k] == bs[..k]; }
      OpenBlocksSpend(cfg, s, init, id);
      var mid := RunBlocks(cfg, s, init);
      assert OpenAfter(cfg, s, bs[..|bs|], id) && bs[..|bs|] == bs;
      if Finds(cfg, mid, b, id) { PassSpends(cfg, mid, b, id); } else { BlockKeepsAttempts(cfg, mid, b, id); }
    }
  }

  lemma {:induction false} BlocksKeepRows(cfg: Config, s: State, bs: seq<Block>, id: Id)
    requires id in s.rows
    ensures id in RunBlocks(cfg, s, bs).rows
  {
    if bs != [] {
      BlocksKeepRows(cfg, s, bs[..|bs| - 1], id);
      BlockKeepsAttempts(cfg, RunBlocks(cfg, s, bs[..|bs| - 1]), bs[|bs| - 1], id);
    }
  }

  /** With passes uninterrupted and anything at all between them, a submission is terminal
      after at most its remaining attempts plus one passes that find it past grace. */
  lemma UninterruptedReaperTerminates(cfg: Config, s: State, bs: seq<Block>, id: Id)
    requires id in s.rows && FindsOf(cfg, s, bs, id) > Remaining(cfg, s.rows[id])
    ensures exists k :: 0 <= k <= |bs| && id in RunBlocks(cfg, s, bs[..k]).rows
                        && Terminal(RunBlocks(cfg, s, bs[..k]).rows[id].status)
  {
    forall k | 0 <= k <= |bs| ensures id in RunBlocks(cfg, s, bs[..k]).rows { BlocksKeepRows(cfg, s, bs[..k], id); }
    if forall k | 0 <= k <= |bs| :: OpenAfter(cfg, s, bs[..k], id) { OpenBlocksSpend(cfg, s, bs, id); }
  }

  // ------------------------------------------------------------------------
  // Passes that lose
  // ------------------------------------------------------------------------

  /** A reaper's task on this row between its visit and its swap. */
  predicate ActivePass(s: State, t: nat, id: Id) {
    t in s.tasks && s.tasks[t].id == id && (s.tasks[t].GivingUp? || (s.tasks[t].Loaded? && s.tasks[t].origin == ByReaper))
  }

  /** Its token no longer matches, so its swap will lose. */
  predicate Beaten(s: State, t: nat, id: Id) {
    ActivePass(s, t, id) && id in s.rows && !TokenMatches(s.rows[id], s.tasks[t].status, s.tasks[t].attempts)
  }

  ghost predicate SomePassIsBeaten(s: State, id: Id) {
    exists t :: Beaten(s, t, id)
  }

  ghost predicate OnePassAtATime(s: State, id: Id) {
    forall t, u | ActivePass(s, t, id) && ActivePass(s, u, id) :: t == u
  }

  /** The pass reaches its swap, which wins or loses. */
  predicate EndsPass(s: State, e: Event, id: Id) {
    (e.Claim? || e.GiveUp?) && ActivePass(s, e.task, id) && (e.GiveUp? <==> s.tasks[e.task].GivingUp?)
  }

  /** One reaper, which finishes a pass over the row before it visits it again, and no manual retry. */
  ghost function OneReaper(id: Id): (State, Event) -> bool {
    (s: State, e: Event) =>
      && (e.TickVisit? && Holds(s, e.task, id) ==> forall t :: !ActivePass(s, t, id))
      && !(ClaimWins(s, e, id) && s.tasks[e.task].origin == ByRetry)
  }

  /** A row is "running" only once the trigger of its latest attempt is off the wire. */
  ghost predicate OffWire(s: State) {
    forall t | WireMatches(s, t) :: s.rows[s.tasks[t].id].status != Running
  }

  predicate WireMatches(s: State, t: nat) {
    t in s.tasks && s.tasks[t].OnWire? && s.tasks[t].id in s.rows && s.tasks[t].attempt == s.rows[s.tasks[t].id].attempts
  }

  ghost predicate Awaited(s: State, id: Id) {
    exists t :: WireMatches(s, t) && s.tasks[t].id == id
  }

  /** How often the token of an open row can still change without a new attempt: an awaited
      trigger may be accepted, and an accepted one re-queued by a worker error. */
  ghost function Phase(s: State, id: Id): nat requires id in s.rows {
    if s.rows[id].status == Running then 1
    else if s.rows[id].status == Pending && Awaited(s, id) then 2 else 0
  }

  ghost function Moves(cfg: Config, s: State, id: Id): nat requires id in s.rows {
    3 * Max(0, Budget(cfg) - s.rows[id].attempts) + Phase(s, id)
  }

  lemma WireTaskStep(cfg: Config, s: State, e: Event, t: nat)
    requires t in Apply(cfg, s, e).tasks && Apply(cfg, s, e).tasks[t].OnWire?
    ensures (t in s.tasks && s.tasks[t] == Apply(cfg, s, e).tasks[t])
         || (e.Claim? && e.task == t && t in s.tasks && ClaimWins(s, e, s.tasks[t].id)
             && Apply(cfg, s, e).tasks[t] == OnWire(s.tasks[t].id, s.rows[s.tasks[t].id].attempts + 1, s.clock))
  {
  }

  /** Only the answer to the latest attempt makes a row "running", and it takes that trigger off the wire. */
  lemma StepKeepsOffWire(cfg: Config, s: State, e: Event)
    requires Inv(cfg, s) && OffWire(s)
    ensures OffWire(Apply(cfg, s, e))
  {
    var s' := Apply(cfg, s, e);
    forall t | WireMatches(s', t)
      ensures s'.rows[s'.tasks[t].id].status != Running
    {
      WireTaskStep(cfg, s, e, t);
      var id := s'.tasks[t].id;
      if t in s.tasks && s.tasks[t] == s'.tasks[t] {
        WaiterStaysOffWire(cfg, s, e, t);
      } else {
        RowStep(cfg, s, e, id);
      }
    }
  }

  lemma WaiterStaysOffWire(cfg: Config, s: State, e: Event, t: nat)
    requires Inv(cfg, s) && OffWire(s) && t in s.tasks && s.tasks[t].OnWire?
    requires t in Apply(cfg, s, e).tasks && Apply(cfg, s, e).tasks[t] == s.tasks[t] && WireMatches(Apply(cfg, s, e), t)
    ensures Apply(cfg, s, e).rows[s.tasks[t].id].status != Running
  {
    var id := s.tasks[t].id;
    assert TaskOk(cfg, s, t, s.tasks[t]);
    RowStep(cfg, s, e, id);
    if AnswerWins(s, e, id) {
      assert TaskOk(cfg, s, e.task, s.tasks[e.task]);
      AnswerEndsTask(cfg, s, e, id);
    } else {
      assert !ClaimWins(s, e, id) ==> WireMatches(s, t);
    }
  }

  lemma {:induction false} RunKeepsOffWire(cfg: Config, es: seq<Event>)
    ensures OffWire(Run(cfg, Empty, es))
  {
    if es != [] {
      RunKeepsOffWire(cfg, es[..|es| - 1]);
      RunKeepsInv(cfg, Empty, es[..|es| - 1]);
      StepKeepsOffWire(cfg, Run(cfg, Empty, es[..|es| - 1]), es[|es| - 1]);
    }
  }

  /** While the row's token stands, nobody new awaits it. */
  lemma NobodyNewAwaits(cfg: Config, s: State, e: Event, id: Id)
    requires id in s.rows && !ClaimWins(s, e, id) && Awaited(Apply(cfg, s, e), id)
    ensures Awaited(s, id)
  {
    var s' := Apply(cfg, s, e);
    var t :| WireMatches(s', t) && s'.tasks[t].id == id;
    WireTaskStep(cfg, s, e, t);
    RowStep(cfg, s, e, id);
    assert WireMatches(s, t);
  }

  ghost predicate OpenStep(cfg: Config, s: State, e: Event, id: Id) {
    && id in s.rows && !Terminal(s.rows[id].status)
    && id in Apply(cfg, s, e).rows && !Terminal(Apply(cfg, s, e).rows[id].status)
  }

  predicate TokenStands(s: State, s': State, id: Id) requires id in s.rows && id in s'.rows {
    TokenMatches(s'.rows[id], s.rows[id].status, s.rows[id].attempts)
  }

  ghost predicate SpendsAMove(cfg: Config, s: State, e: Event, id: Id) requires OpenStep(cfg, s, e, id) {
    Moves(cfg, Apply(cfg, s, e), id) + (if TokenStands(s, Apply(cfg, s, e), id) then 0 else 1) <= Moves(cfg, s, id)
  }

  lemma ClaimSpendsAMove(cfg: Config, s: State, e: Event, id: Id)
    requires Inv(cfg, s) && OneReaper(id)(s, e) && OpenStep(cfg, s, e, id) && ClaimWins(s, e, id)
    ensures SpendsAMove(cfg, s, e, id)
  {
    RowStep(cfg, s, e, id);
    assert TaskOk(cfg, s, e.task, s.tasks[e.task]);
  }

  lemma AnswerSpendsAMove(cfg: Config, s: State, e: Event, id: Id)
    requires OffWire(s) && OpenStep(cfg, s, e, id) && AnswerWins(s, e, id)
    ensures SpendsAMove(cfg, s, e, id)
  {
    RowStep(cfg, s, e, id);
    assert WireMatches(s, e.task);
  }

  lemma CallbackSpendsAMove(cfg: Config, s: State, e: Event, id: Id)
    requires OffWire(s) && OpenStep(cfg, s, e, id) && !ClaimWins(s, e, id) && !AnswerWins(s, e, id)
    ensures SpendsAMove(cfg, s, e, id)
  {
    RowStep(cfg, s, e, id);
    if Awaited(Apply(cfg, s, e), id) {
      NobodyNewAwaits(cfg, s, e, id);
      if s.rows[id].status == Running { RunningIsNotAwaited(s, id); }
    }
  }

  /** Each change of an open row's token uses up a move. */
  lemma TokenChangeIsAMove(cfg: Config, s: State, e: Event, id: Id)
    requires Inv(cfg, s) && OffWire(s) && OneReaper(id)(s, e) && OpenStep(cfg, s, e, id)
    ensures Moves(cfg, Apply(cfg, s, e), id) + (if TokenStands(s, Apply(cfg, s, e), id) then 0 else 1) <= Moves(cfg, s, id)
  {
    if ClaimWins(s, e, id) {
      ClaimSpendsAMove(cfg, s, e, id);
    } else if AnswerWins(s, e, id) {
      AnswerSpendsAMove(cfg, s, e, id);
    } else {
      CallbackSpendsAMove(cfg, s, e, id);
    }
  }

  lemma RunningIsNotAwaited(s: State, id: Id)
    requires OffWire(s) && id in s.rows && s.rows[id].status == Running
    ensures !Awaited(s, id)
  {
  }

  lemma PassTaskStep(cfg: Config, s: State, e: Event, t: nat, id: Id)
    requires ActivePass(Apply(cfg, s, e), t, id)
    ensures (ActivePass(s, t, id) && Apply(cfg, s, e).tasks[t] == s.tasks[t])
         || (e.TickVisit? && e.task == t && Holds(s, t, id) && Apply(cfg, s, e).rows == s.rows
             && TokenMatches(s.rows[id], Apply(cfg, s, e).tasks[t].status, Apply(cfg, s, e).tasks[t].attempts))
  {
  }

  lemma StepKeepsOnePass(cfg: Config, s: State, e: Event, id: Id)
    requires OnePassAtATime(s, id) && OneReaper(id)(s, e)
    ensures OnePassAtATime(Apply(cfg, s, e), id)
  {
    var s' := Apply(cfg, s, e);
    forall t, u | ActivePass(s', t, id) && ActivePass(s', u, id) ensures t == u {
      PassTaskStep(cfg, s, e, t, id);
      PassTaskStep(cfg, s, e, u, id);
    }
  }

  lemma EndedPassIsGone(cfg: Config, s: State, e: Event, id: Id)
    requires EndsPass(s, e, id) && id in s.rows
    ensures e.task !in Apply(cfg, s, e).tasks || Apply(cfg, s, e).tasks[e.task].OnWire?
    ensures !Beaten(s, e.task, id) ==> ClaimWins(s, e, id) || GiveUpWins(s, e, id)
  {
  }

  /** A pass that was under way is over after a step if and only if the step was its swap. */
  lemma PassEndsExactlyAtItsSwap(cfg: Config, s: State, e: Event, t: nat, id: Id)
    requires Inv(cfg, s) && ActivePass(s, t, id)
    ensures !ActivePass(Apply(cfg, s, e), t, id) <==> EndsPass(s, e, id) && e.task == t
  {
    if HasTask(e) && e.task == t {
      if EndsPass(s, e, id) { EndedPassIsGone(cfg, s, e, id); } else { OtherOwnStepsAreIdle(cfg, s, e, id); }
    } else {
      assert TaskOk(cfg, s, t, s.tasks[t]);
      OthersLeaveTask(cfg, s, e, t);
    }
  }

  lemma OtherOwnStepsAreIdle(cfg: Config, s: State, e: Event, id: Id)
    requires HasTask(e) && ActivePass(s, e.task, id) && !EndsPass(s, e, id)
    ensures Apply(cfg, s, e).tasks == s.tasks
  {
  }

  lemma OthersLeaveTask(cfg: Config, s: State, e: Event, t: nat)
    requires t in s.tasks && t < s.next && !(HasTask(e) && e.task == t)
    ensures t in Apply(cfg, s, e).tasks && Apply(cfg, s, e).tasks[t] == s.tasks[t]
  {
  }

  /** Once a pass has ended none is under way. */
  lemma EndedPassLeavesNone(cfg: Config, s: State, e: Event, id: Id)
    requires OnePassAtATime(s, id) && EndsPass(s, e, id) && id in s.rows
    ensures !SomePassIsBeaten(Apply(cfg, s, e), id)
  {
    EndedPassIsGone(cfg, s, e, id);
    forall t ensures !Beaten(Apply(cfg, s, e), t, id) {
      if ActivePass(Apply(cfg, s, e), t, id) { PassTaskStep(cfg, s, e, t, id); }
    }
  }

  /** With the token standing, no pass is newly beaten. */
  lemma StandingTokenBeatsNobody(cfg: Config, s: State, e: Event, id: Id)
    requires id in s.rows && id in Apply(cfg, s, e).rows && TokenStands(s, Apply(cfg, s, e), id)
    requires SomePassIsBeaten(Apply(cfg, s, e), id)
    ensures SomePassIsBeaten(s, id)
  {
    var t :| Beaten(Apply(cfg, s, e), t, id);
    PassTaskStep(cfg, s, e, t, id);
    assert Beaten(s, t, id);
  }

  ghost function Owed(s: State, id: Id): nat {
    if SomePassIsBeaten(s, id) then 1 else 0
  }

  /** Every pass that ends is paid for by a move: its own claim, or the one that beat it. */
  lemma PassIsPaidFor(cfg: Config, s: State, e: Event, id: Id)
    requires Inv(cfg, s) && OffWire(s) && OnePassAtATime(s, id) && OneReaper(id)(s, e) && OpenStep(cfg, s, e, id)
    ensures (if EndsPass(s, e, id) then 1 else 0) + Owed(Apply(cfg, s, e), id) + Moves(cfg, Apply(cfg, s, e), id)
            <= Owed(s, id) + Moves(cfg, s, id)
  {
    TokenChangeIsAMove(cfg, s, e, id);
    if EndsPass(s, e, id) {
      EndedPassLeavesNone(cfg, s, e, id);
      EndedPassIsGone(cfg, s, e, id);
      RowStep(cfg, s, e, id);
      assert Beaten(s, e.task, id) ==> SomePassIsBeaten(s, id);
    } else if TokenStands(s, Apply(cfg, s, e), id) && SomePassIsBeaten(Apply(cfg, s, e), id) {
      StandingTokenBeatsNobody(cfg, s, e, id);
    }
  }

  ghost function PassesEnded(cfg: Config, s: State, es: seq<Event>, id: Id): nat {
    if es == [] then 0
    else PassesEnded(cfg, s, es[..|es| - 1], id) + if EndsPass(Run(cfg, s, es[..|es| - 1]), es[|es| - 1], id) then 1 else 0
  }

  lemma {:induction false} OpenRowPaysForPasses(cfg: Config, s: State, es: seq<Event>, id: Id)
    requires Inv(cfg, s) && OffWire(s) && OnePassAtATime(s, id) && Along(cfg, s, es, OneReaper(id))
    requires OpenThroughout(cfg, s, es, id) && id in s.rows
    ensures var s' := Run(cfg, s, es);
      && Inv(cfg, s') && OffWire(s') && OnePassAtATime(s', id) && id in s'.rows
      && PassesEnded(cfg, s, es, id) + Owed(s', id) + Moves(cfg, s', id) <= Owed(s, id) + Moves(cfg, s, id)
  {
    if es != [] {
      var init, e := es[..|es| - 1], es[|es| - 1];
      assert forall k | 0 <= k <= |init| :: init[..k] == es[..k];
      assert init == es[..|es| - 1] && es == es[..|es|];
      OpenRowPaysForPasses(cfg, s, init, id);
      var mid := Run(cfg, s, init);
      StepKeepsInv(cfg, mid, e);
      StepKeepsOffWire(cfg, mid, e);
      StepKeepsOnePass(cfg, mid, e, id);
      PassIsPaidFor(cfg, mid, e, id);
    }
  }

  /** At some point of the run the row was terminal. */
  ghost predicate EndedAt(cfg: Config, s: State, es: seq<Event>, id: Id, k: nat) {
    k <= |es| && id in Run(cfg, s, es[..k]).rows && Terminal(Run(cfg, s, es[..k]).rows[id].status)
  }

  lemma NotEndedIsOpen(cfg: Config, s: State, es: seq<Event>, id: Id)
    requires id in s.rows && forall k: nat :: !EndedAt(cfg, s, es, id, k)
    ensures OpenThroughout(cfg, s, es, id)
  {
    forall k | 0 <= k <= |es|
      ensures id in Run(cfg, s, es[..k]).rows && !Terminal(Run(cfg, s, es[..k]).rows[id].status)
    {
      AttemptsNeverDecrease(cfg, s, es[..k], id);
      assert !EndedAt(cfg, s, es, id, k);
    }
  }

  lemma PassesAreBounded(cfg: Config, s: State, es: seq<Event>, id: Id)
    requires Inv(cfg, s) && OffWire(s) && id in s.rows && (forall t :: !ActivePass(s, t, id)) && Along(cfg, s, es, OneReaper(id))
    requires PassesEnded(cfg, s, es, id) > 3 * Max(0, Budget(cfg) - s.rows[id].attempts) + 2
    ensures exists k: nat :: EndedAt(cfg, s, es, id, k)
  {
    if forall k: nat :: !EndedAt(cfg, s, es, id, k) {
      NotEndedIsOpen(cfg, s, es, id);
      OpenRowPaysForPasses(cfg, s, es, id);
    }
  }

  /** One reaper, any callbacks and late accepts, no manual retry: from any reachable state
      with no pass under way, a submission is terminal before more than
      3 * (budget - attempts) + 2 passes over it have ended, won or lost.  Each attempt pays
      for at most three: its claim, one lost to its accept, one lost to a re-queue. */
  lemma SequentialReaperTerminates(cfg: Config, before: seq<Event>, es: seq<Event>, id: Id)
    requires var s := Run(cfg, Empty, before);
      && id in s.rows && (forall t :: !ActivePass(s, t, id)) && Along(cfg, s, es, OneReaper(id))
      && PassesEnded(cfg, s, es, id) > 3 * Max(0, Budget(cfg) - s.rows[id].attempts) + 2
    ensures exists k: nat :: EndedAt(cfg, Run(cfg, Empty, before), es, id, k)
  {
    RunKeepsInv(cfg, Empty, before);
    RunKeepsOffWire(cfg, before);
    PassesAreBounded(cfg, Run(cfg, Empty, before), es, id);
  }

  /** A pass can lose without anyone having acted: the reaper loads "running", a worker error
      re-queues the row, and the claim finds its token gone. */
  lemma PassLostToARequeue(cfg: Config, s: State, t: nat, id: Id)
    requires id in s.rows && t in s.tasks && s.tasks[t] == Loaded(id, ByReaper, Running, s.rows[id].attempts)
    requires s.rows[id].status == Running && s.rows[id].job == Some(id) && s.rows[id].attempts < cfg.maxAttempts
    requires s.next !in s.tasks
    ensures var s2 := Apply(cfg, Apply(cfg, s, Hear(id, id, WorkerError)), Land(s.next));
      var s3 := Apply(cfg, s2, Claim(t));
      && EndsPass(s2, Claim(t), id) && s3.rows == s2.rows == s.rows[id := s.rows[id].(status := Pending, updatedAt := s.clock)]
  {
    var s1 := Apply(cfg, s, Hear(id, id, WorkerError));
    assert s1 == Spawn(s, Heard(id, s.rows[id], WorkerError));
    var s2 := Apply(cfg, s1, Land(s.next));
    assert s2.tasks == s1.tasks - {s.next} && s2.tasks[t] == s.tasks[t];
  }

  // ------------------------------------------------------------------------
  // The delays, over whole runs
  // ------------------------------------------------------------------------

  /** The pass has loaded this token. */
  predicate HoldsToken(s: State, t: nat, id: Id, st: Status, n: nat) {
    ActivePass(s, t, id) && s.tasks[t].status == st && s.tasks[t].attempts == n
  }

  /** A pass holds no attempt that is still to be claimed, none that failed its delay's test, and
      a "running" one only once that attempt's trigger is off the wire. */
  ghost predicate PassOk(cfg: Config, s: State, t: nat, id: Id) requires ActivePass(s, t, id) {
    && id in s.rows && s.tasks[t].attempts <= s.rows[id].attempts
    && (s.tasks[t].status == Pending ==> cfg.retryAfter > 0)
    && (s.tasks[t].status == Running ==>
          && cfg.reapAfter > 0
          && forall u | u in s.tasks && s.tasks[u].OnWire? && s.tasks[u].id == id :: s.tasks[u].attempt != s.tasks[t].attempts)
  }

  ghost predicate PassesOk(cfg: Config, s: State) {
    forall t, id | ActivePass(s, t, id) :: PassOk(cfg, s, t, id)
  }

  /** A visit that goes on to a swap found its row's own delay exceeded. */
  lemma VisitFindsDelayExceeded(cfg: Config, s: State, e: Event, t: nat, id: Id)
    requires Inv(cfg, s) && ActivePass(Apply(cfg, s, e), t, id) && !ActivePass(s, t, id)
    ensures id in s.rows && Apply(cfg, s, e).rows == s.rows && Apply(cfg, s, e).clock == s.clock
    ensures HoldsToken(Apply(cfg, s, e), t, id, s.rows[id].status, s.rows[id].attempts)
    ensures s.rows[id].status == Pending ==> cfg.retryAfter > 0 && s.rows[id].updatedAt + cfg.retryAfter < s.clock
    ensures s.rows[id].status == Running ==> cfg.reapAfter > 0 && s.rows[id].updatedAt + cfg.reapAfter < s.clock
  {
    PassTaskStep(cfg, s, e, t, id);
    assert TaskOk(cfg, s, t, s.tasks[t]);
  }

  lemma OldPassStaysOk(cfg: Config, s: State, e: Event, t: nat, id: Id)
    requires Inv(cfg, s) && PassesOk(cfg, s) && ActivePass(s, t, id)
    requires ActivePass(Apply(cfg, s, e), t, id) && Apply(cfg, s, e).tasks[t] == s.tasks[t]
    ensures PassOk(cfg, Apply(cfg, s, e), t, id)
  {
    var s' := Apply(cfg, s, e);
    assert PassOk(cfg, s, t, id);
    StepKeepsAttempts(cfg, s, e, id);
    forall u | u in s'.tasks && s'.tasks[u].OnWire? && s'.tasks[u].id == id && s.tasks[t].status == Running
      ensures s'.tasks[u].attempt != s.tasks[t].attempts
    {
      WireTaskStep(cfg, s, e, u);
    }
  }

  lemma NewPassIsOk(cfg: Config, s: State, e: Event, t: nat, id: Id)
    requires Inv(cfg, s) && OffWire(s) && ActivePass(Apply(cfg, s, e), t, id) && !ActivePass(s, t, id)
    ensures PassOk(cfg, Apply(cfg, s, e), t, id)
  {
    var s' := Apply(cfg, s, e);
    VisitFindsDelayExceeded(cfg, s, e, t, id);
    forall u | u in s'.tasks && s'.tasks[u].OnWire? && s'.tasks[u].id == id && s.rows[id].status == Running
      ensures s'.tasks[u].attempt != s.rows[id].attempts
    {
      StepKeepsOffWire(cfg, s, e);
      assert s'.tasks[u].attempt == s.rows[id].attempts ==> WireMatches(s', u);
    }
  }

  lemma StepKeepsPasses(cfg: Config, s: State, e: Event)
    requires Inv(cfg, s) && OffWire(s) && PassesOk(cfg, s)
    ensures PassesOk(cfg, Apply(cfg, s, e))
  {
    forall t, id | ActivePass(Apply(cfg, s, e), t, id) ensures PassOk(cfg, Apply(cfg, s, e), t, id) {
      if ActivePass(s, t, id) {
        PassTaskStep(cfg, s, e, t, id);
        OldPassStaysOk(cfg, s, e, t, id);
      } else {
        NewPassIsOk(cfg, s, e, t, id);
      }
    }
  }

  lemma {:induction false} RunKeepsPasses(cfg: Config, es: seq<Event>)
    ensures PassesOk(cfg, Run(cfg, Empty, es))
  {
    if es != [] {
      var init := es[..|es| - 1];
      RunKeepsPasses(cfg, init);
      RunKeepsInv(cfg, Empty, init);
      RunKeepsOffWire(cfg, init);
      StepKeepsPasses(cfg, Run(cfg, Empty, init), es[|es| - 1]);
    }
  }

  /** Since `from` the row has not been older than that in its attempt `n`, and a pass that has
      loaded it in status `st` since then found it left alone for longer than `delay`. */
  ghost predicate WaitedFor(s: State, id: Id, st: Status, n: nat, from: int, delay: int) {
    && id in s.rows && from <= s.clock && (s.rows[id].attempts == n ==> from <= s.rows[id].updatedAt)
    && forall t | HoldsToken(s, t, id, st, n) :: delay > 0 && from + delay < s.clock
  }

  function DelayOf(cfg: Config, st: Status): int {
    if st == Running then cfg.reapAfter else cfg.retryAfter
  }

  lemma StepKeepsWaiting(cfg: Config, s: State, e: Event, id: Id, st: Status, n: nat, from: int)
    requires Inv(cfg, s) && (st == Pending || st == Running) && WaitedFor(s, id, st, n, from, DelayOf(cfg, st))
    requires n <= s.rows[id].attempts
    ensures WaitedFor(Apply(cfg, s, e), id, st, n, from, DelayOf(cfg, st)) && n <= Apply(cfg, s, e).rows[id].attempts
  {
    var s' := Apply(cfg, s, e);
    RowStep(cfg, s, e, id);
    ClockStep(cfg, s, e);
    forall t | HoldsToken(s', t, id, st, n) ensures DelayOf(cfg, st) > 0 && from + DelayOf(cfg, st) < s'.clock {
      if ActivePass(s, t, id) {
        PassTaskStep(cfg, s, e, t, id);
        assert HoldsToken(s, t, id, st, n) || e.TickVisit?;
      } else {
        VisitFindsDelayExceeded(cfg, s, e, t, id);
      }
    }
  }

  lemma {:induction false} RunKeepsWaiting(cfg: Config, s: State, es: seq<Event>, id: Id, st: Status, n: nat, from: int)
    requires Inv(cfg, s) && (st == Pending || st == Running) && WaitedFor(s, id, st, n, from, DelayOf(cfg, st))
    requires n <= s.rows[id].attempts
    ensures WaitedFor(Run(cfg, s, es), id, st, n, from, DelayOf(cfg, st)) && n <= Run(cfg, s, es).rows[id].attempts
  {
    if es != [] {
      RunKeepsWaiting(cfg, s, es[..|es| - 1], id, st, n, from);
      RunKeepsInv(cfg, s, es[..|es| - 1]);
      StepKeepsWaiting(cfg, Run(cfg, s, es[..|es| - 1]), es[|es| - 1], id, st, n, from);
    }
  }

  /** A claim or an acceptance starts the wait: no pass holds the token it makes. */
  lemma WaitStarts(cfg: Config, s: State, e: Event, id: Id)
    requires Inv(cfg, s) && PassesOk(cfg, s) && (ClaimWins(s, e, id) || (e.Accept? && AnswerWins(s, e, id)))
    ensures var s' := Apply(cfg, s, e);
      && id in s'.rows && s'.rows[id].status == (if e.Accept? then Running else Pending)
      && WaitedFor(s', id, s'.rows[id].status, s'.rows[id].attempts, s.clock, DelayOf(cfg, s'.rows[id].status))
  {
    var s' := Apply(cfg, s, e);
    RowStep(cfg, s, e, id);
    ClockStep(cfg, s, e);
    forall t ensures !HoldsToken(s', t, id, s'.rows[id].status, s'.rows[id].attempts) {
      if ActivePass(s', t, id) {
        PassTaskStep(cfg, s, e, t, id);
        assert PassOk(cfg, s, t, id);
      }
    }
  }

  /** The two delays, in every interleaving: no reaper pass claims or gives up a row within
      `retryAfter` of the claim, or within `reapAfter` of the acceptance, of the attempt it is in. */
  lemma ReaperWaitsItsDelay(cfg: Config, es: seq<Event>, e: Event, later: seq<Event>, act: Event, id: Id)
    requires var s := Run(cfg, Empty, es); ClaimWins(s, e, id) || (e.Accept? && AnswerWins(s, e, id))
    requires var s1, s2 := Run(cfg, Empty, es + [e]), Run(cfg, Run(cfg, Empty, es + [e]), later);
      && ReaperActs(s2, act, id) && id in s1.rows
      && s2.rows[id].status == s1.rows[id].status && s2.rows[id].attempts == s1.rows[id].attempts
    ensures var delay, s2 := if e.Accept? then cfg.reapAfter else cfg.retryAfter, Run(cfg, Run(cfg, Empty, es + [e]), later);
      delay > 0 && Run(cfg, Empty, es).clock + delay < s2.clock
  {
    var s := Run(cfg, Empty, es);
    RunKeepsInv(cfg, Empty, es);
    RunKeepsPasses(cfg, es);
    RunSnoc(cfg, Empty, es, e);
    WaitStarts(cfg, s, e, id);
    StepKeepsInv(cfg, s, e);
    var s1 := Run(cfg, Empty, es + [e]);
    RunKeepsWaiting(cfg, s1, later, id, s1.rows[id].status, s1.rows[id].attempts, s.clock);
    assert HoldsToken(Run(cfg, s1, later), act.task, id, s1.rows[id].status, s1.rows[id].attempts);
  }

  /** A delay of nothing or less switches the reaper off for rows in that status. */
  lemma NoDelayNoReaper(cfg: Config, es: seq<Event>, act: Event, id: Id)
    requires ReaperActs(Run(cfg, Empty, es), act, id)
    ensures var st := Run(cfg, Empty, es).rows[id].status;
      (st == Pending && cfg.retryAfter > 0) || (st == Running && cfg.reapAfter > 0)
  {
    RunKeepsPasses(cfg, es);
    RunKeepsInv(cfg, Empty, es);
    var s := Run(cfg, Empty, es);
    assert PassOk(cfg, s, act.task, id) && TaskOk(cfg, s, act.task, s.tasks[act.task]);
  }
}
