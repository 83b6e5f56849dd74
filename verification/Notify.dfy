/**
Telling the interviewer that a sitting is over: `assessment_platform/notify.py`.

Several callbacks may finish the submissions of one sitting at once.  Each commits
its terminal status, then counts the graded submissions, then swaps the notified
stamp.  A manual retry checks the status, clears the stamp, re-reads the row and claims
it.  All of those are separate steps here and interleave freely, as does a worker error
that takes a graded submission back because it read the row before it was graded.
*/
module Notify {
  import opened Base

  type Id = nat
  type Question = nat

  /** A sitting: one invite, one candidate address. */
  type Key = (nat, nat)

  /** `claims` is the submission's `attempts`: every claim counts one up. */
  datatype Sub = Sub(key: Key, question: Question, status: Status, claims: nat)

  /** The questions a sitting's slots resolve to, in slot order.  Frozen: slots cannot
      change once an invite exists and a variant is frozen on first resolution. */
  type Plan = Key -> seq<Question>

  type Token = (Status, nat)

  datatype Task =
    | Committed(key: Key)                                   // callback: terminal status committed
    | ToSwap(key: Key, graded: set<Id>, opening: nat)       // and counted
    | Checked(key: Key, id: Id)                             // retry: found "error"
    | Retrying(key: Key, id: Id, token: Option<Token>)      // stamp cleared; re-read once there is a token

  /** `opening` is how often submissions of the sitting had been taken back when it was counted. */
  datatype Notice = Notice(key: Key, graded: set<Id>, opening: nat)

  /** `stamps` holds the attempt rows: whether `results_notified_at` is set.  `reopened`
      counts cleared stamps and `withdrawn` submissions taken back after they were terminal. */
  datatype State = State(
    subs: map<Id, Sub>,
    stamps: map<Key, bool>,
    tasks: map<nat, Task>,
    next: nat,
    reopened: map<Key, nat>,
    withdrawn: map<Key, nat>,
    log: seq<Notice>)

  datatype Event =
    | Start(startKey: Key)
    | Insert(newId: Id, newKey: Key, question: Question)
    | Claim(claimed: Id)                    // submit or reaper
    | Move(moved: Id, open: Status)         // the agent accepts
    | Requeue(requeued: Id)                 // a worker error, on whatever the row is by now
    | Conclude(concluded: Id, final: Status)
    | Recount(recounted: Id)                // a callback that changed no status
    | Count(task: nat)
    | Swap(task: nat)
    | Check(retried: Id)
    | Reopen(task: nat)
    | Reload(task: nat)
    | Reclaim(task: nat)

  const Empty := State(map[], map[], map[], 0, map[], map[], [])

  // ------------------------------------------------------------------------
  // Queries
  // ------------------------------------------------------------------------

  function Elements(qs: seq<Question>): set<Question> {
    set q | q in qs
  }

  function Asked(plan: Plan, key: Key): set<Question> {
    Elements(plan(key))
  }

  function SlotCount(plan: Plan, key: Key): nat {
    if plan(key) == [] then 1 else |plan(key)|
  }

  function Graded(subs: map<Id, Sub>, key: Key): set<Id> {
    set id | id in subs && subs[id].key == key && Terminal(subs[id].status)
  }

  function QuestionsOf(subs: map<Id, Sub>, ids: set<Id>): set<Question>
    requires ids <= subs.Keys
  {
    set id | id in ids :: subs[id].question
  }

  function Reopenings(s: State, key: Key): nat {
    if key in s.reopened then s.reopened[key] else 0
  }

  function Withdrawals(s: State, key: Key): nat {
    if key in s.withdrawn then s.withdrawn[key] else 0
  }

  function Notices(log: seq<Notice>, key: Key): nat {
    if log == [] then 0
    else Notices(log[..|log| - 1], key) + if log[|log| - 1].key == key then 1 else 0
  }

  /** Every slot's question has a terminal submission. */
  predicate AllSlotsGraded(plan: Plan, subs: map<Id, Sub>, key: Key) {
    Asked(plan, key) <= QuestionsOf(subs, Graded(subs, key))
  }

  predicate Reached(plan: Plan, s: State, key: Key) {
    |Graded(s.subs, key)| >= SlotCount(plan, key)
  }

  function TokenOf(sub: Sub): Token {
    (sub.status, sub.claims)
  }

  // ------------------------------------------------------------------------
  // Steps
  // ------------------------------------------------------------------------

  function Spawn(s: State, task: Task): State {
    s.(tasks := s.tasks[s.next := task], next := s.next + 1)
  }

  function Finish(s: State, t: nat): State {
    s.(tasks := s.tasks - {t})
  }

  function WithStatus(s: State, id: Id, st: Status): State
    requires id in s.subs
  {
    s.(subs := s.subs[id := s.subs[id].(status := st)])
  }

  /** Back to "pending"; a submission that was terminal is thereby withdrawn. */
  function Pend(s: State, id: Id, claimed: bool): State
    requires id in s.subs
  {
    var sub := s.subs[id];
    s.(subs := s.subs[id := sub.(status := Pending, claims := sub.claims + if claimed then 1 else 0)],
       withdrawn := if Terminal(sub.status) then s.withdrawn[sub.key := Withdrawals(s, sub.key) + 1] else s.withdrawn)
  }

  function DoCount(plan: Plan, s: State, t: nat, key: Key): State {
    if !Reached(plan, s, key) || key !in s.stamps then Finish(s, t)
    else s.(tasks := s.tasks[t := ToSwap(key, Graded(s.subs, key), Withdrawals(s, key))])
  }

  function DoSwap(s: State, t: nat, key: Key, graded: set<Id>, opening: nat): State {
    if key !in s.stamps || s.stamps[key] then Finish(s, t)
    else Finish(s, t).(stamps := s.stamps[key := true], log := s.log + [Notice(key, graded, opening)])
  }

  function DoReopen(s: State, t: nat, key: Key, id: Id): State {
    var waiting := s.(tasks := s.tasks[t := Retrying(key, id, None)]);
    if key !in s.stamps then waiting
    else waiting.(stamps := s.stamps[key := false], reopened := s.reopened[key := Reopenings(s, key) + 1])
  }

  function DoReload(s: State, t: nat, key: Key, id: Id, token: Token): State {
    s.(tasks := s.tasks[t := Retrying(key, id, Some(token))])
  }

  function DoReclaim(s: State, t: nat, id: Id, token: Token): State {
    if id in s.subs && TokenOf(s.subs[id]) == token then Finish(Pend(s, id, true), t) else Finish(s, t)
  }

  function Apply(plan: Plan, s: State, e: Event): State {
    match e
    case Start(key) => if key in s.stamps then s else s.(stamps := s.stamps[key := false])
    case Insert(id, key, q) =>
      if id in s.subs || key !in s.stamps || q !in plan(key)
         || (exists other :: other in s.subs && s.subs[other].key == key && s.subs[other].question == q)
      then s
      else s.(subs := s.subs[id := Sub(key, q, Pending, 0)])
    case Claim(id) => if id in s.subs && !Terminal(s.subs[id].status) then Pend(s, id, true) else s
    case Move(id, open) =>
      if id in s.subs && !Terminal(s.subs[id].status) && !Terminal(open) then WithStatus(s, id, open) else s
    case Requeue(id) => if id in s.subs then Pend(s, id, false) else s
    case Conclude(id, final) =>
      if id in s.subs && Terminal(final) then Spawn(WithStatus(s, id, final), Committed(s.subs[id].key)) else s
    case Recount(id) => if id in s.subs then Spawn(s, Committed(s.subs[id].key)) else s
    case Check(id) => if id in s.subs && s.subs[id].status == Error then Spawn(s, Checked(s.subs[id].key, id)) else s
    case _ => if e.task in s.tasks then ApplyTask(plan, s, e, s.tasks[e.task]) else s
  }

  predicate HasTask(e: Event) {
    e.Count? || e.Swap? || e.Reopen? || e.Reload? || e.Reclaim?
  }

  function ApplyTask(plan: Plan, s: State, e: Event, task: Task): State requires HasTask(e) {
    match (e, task)
    case (Count(t), Committed(key)) => DoCount(plan, s, t, key)
    case (Swap(t), ToSwap(key, graded, opening)) => DoSwap(s, t, key, graded, opening)
    case (Reopen(t), Checked(key, id)) => DoReopen(s, t, key, id)
    case (Reload(t), Retrying(key, id, None)) =>
      if id in s.subs then DoReload(s, t, key, id, TokenOf(s.subs[id])) else s
    case (Reclaim(t), Retrying(_, id, Some(token))) => DoReclaim(s, t, id, token)
    case _ => s
  }

  function Run(plan: Plan, es: seq<Event>): State {
    if es == [] then Empty else Apply(plan, Run(plan, es[..|es| - 1]), es[|es| - 1])
  }

  lemma RunSnoc(plan: Plan, es: seq<Event>, e: Event)
    ensures Run(plan, es + [e]) == Apply(plan, Run(plan, es), e)
  {
    assert (es + [e])[..|es|] == es;
  }

  // ------------------------------------------------------------------------
  // Pigeonhole over the (invite, candidate, question) unique key
  // ------------------------------------------------------------------------

  ghost predicate UniqueKey(plan: Plan, s: State) {
    && (forall id | id in s.subs :: s.subs[id].key in s.stamps && s.subs[id].question in plan(s.subs[id].key))
    && (forall a, b | a in s.subs && b in s.subs && s.subs[a].key == s.subs[b].key
                      && s.subs[a].question == s.subs[b].question :: a == b)
  }

  lemma {:induction false} SmallerSubset<T>(a: set<T>, b: set<T>)
    requires a <= b
    ensures |a| <= |b|
    ensures |a| == |b| ==> a == b
  {
    assert |b| == |a| + |b - a| by { assert b == a + (b - a); }
    if |a| == |b| { assert b - a == {}; }
  }

  /** Distinct submissions of one sitting answer distinct questions. */
  lemma {:induction false} OneSubmissionPerQuestion(plan: Plan, s: State, key: Key, ids: set<Id>)
    requires UniqueKey(plan, s) && ids <= s.subs.Keys && forall id | id in ids :: s.subs[id].key == key
    ensures |QuestionsOf(s.subs, ids)| == |ids|
    decreases ids
  {
    if ids != {} {
      var id :| id in ids;
      var rest := ids - {id};
      OneSubmissionPerQuestion(plan, s, key, rest);
      assert QuestionsOf(s.subs, ids) == QuestionsOf(s.subs, rest) + {s.subs[id].question};
      assert s.subs[id].question !in QuestionsOf(s.subs, rest);
    }
  }

  lemma {:induction false} SlotsVersusQuestions(qs: seq<Question>)
    ensures |Elements(qs)| <= |qs|
    ensures |Elements(qs)| == |qs| <==> Distinct(qs)
  {
    if qs != [] {
      var init, last := qs[..|qs| - 1], qs[|qs| - 1];
      SlotsVersusQuestions(init);
      assert qs == init + [last];
      assert Elements(qs) == Elements(init) + {last};
      if last in init {
        var i :| 0 <= i < |init| && init[i] == last;
        assert Elements(qs) == Elements(init);
        assert qs[i] == qs[|qs| - 1];
      } else {
        assert forall i | 0 <= i < |init| :: qs[i] == init[i] && qs[i] != last;
      }
    }
  }

  /** The count in `claim_sitting` reaches the slot count exactly when every slot is
      graded and no two slots resolve to the same question. */
  lemma CountMeansComplete(plan: Plan, s: State, key: Key)
    requires UniqueKey(plan, s)
    ensures |Graded(s.subs, key)| >= SlotCount(plan, key)
            <==> plan(key) != [] && Distinct(plan(key)) && AllSlotsGraded(plan, s.subs, key)
    ensures |Graded(s.subs, key)| >= SlotCount(plan, key) ==>
              QuestionsOf(s.subs, Graded(s.subs, key)) == Asked(plan, key)
  {
    var graded := Graded(s.subs, key);
    var answered := QuestionsOf(s.subs, graded);
    OneSubmissionPerQuestion(plan, s, key, graded);
    assert answered <= Asked(plan, key);
    SmallerSubset(answered, Asked(plan, key));
    SlotsVersusQuestions(plan(key));
    assert plan(key) == [] ==> Asked(plan, key) == {};
    if Asked(plan, key) <= answered { assert answered == Asked(plan, key); }
  }

  /** A sitting with an open submission has not reached its count. */
  lemma OpenMeansUnreached(plan: Plan, s: State, id: Id)
    requires UniqueKey(plan, s) && id in s.subs && !Terminal(s.subs[id].status)
    ensures !Reached(plan, s, s.subs[id].key) && !AllSlotsGraded(plan, s.subs, s.subs[id].key)
  {
    var key, q := s.subs[id].key, s.subs[id].question;
    CountMeansComplete(plan, s, key);
    assert q in Asked(plan, key) && q !in QuestionsOf(s.subs, Graded(s.subs, key));
  }

  // ------------------------------------------------------------------------
  // What one step may do
  // ------------------------------------------------------------------------

  /** The retry's claim finds the row as it re-read it. */
  predicate ReclaimWins(s: State, e: Event, id: Id) {
    && e.Reclaim? && e.task in s.tasks && s.tasks[e.task].Retrying? && s.tasks[e.task].id == id
    && id in s.subs && s.tasks[e.task].token == Some(TokenOf(s.subs[id]))
  }

  /** The step takes back a submission that was terminal. */
  predicate Withdraws(s: State, e: Event, id: Id) {
    && id in s.subs && Terminal(s.subs[id].status)
    && ((e.Requeue? && e.requeued == id) || ReclaimWins(s, e, id))
  }

  /** The only step that writes the log or sets a stamp. */
  predicate Notifies(s: State, e: Event) {
    && e.Swap? && e.task in s.tasks && s.tasks[e.task].ToSwap?
    && s.tasks[e.task].key in s.stamps && !s.stamps[s.tasks[e.task].key]
  }

  /** The only step that clears one. */
  predicate Reopens(s: State, e: Event, key: Key) {
    e.Reopen? && e.task in s.tasks && s.tasks[e.task].Checked? && s.tasks[e.task].key == key && key in s.stamps
  }

  /** The complete list of writes to one submission. */
  lemma SubStep(plan: Plan, s: State, e: Event, id: Id)
    requires id in s.subs
    ensures id in Apply(plan, s, e).subs
    ensures var sub, sub' := s.subs[id], Apply(plan, s, e).subs[id];
      && sub'.key == sub.key && sub'.question == sub.question
      && (sub' == sub
          || (e.Conclude? && e.concluded == id && Terminal(e.final) && sub' == sub.(status := e.final))
          || (e.Move? && e.moved == id && !Terminal(sub.status) && !Terminal(sub'.status))
          || (e.Claim? && e.claimed == id && !Terminal(sub.status) && sub'.status == Pending)
          || (e.Requeue? && e.requeued == id && sub'.status == Pending)
          || (ReclaimWins(s, e, id) && sub'.status == Pending))
  {
  }

  /** Column by column: a claim re-opens and counts, the agent's acceptance and a re-queue move
      the status alone, and a final result leaves its callback to count the sitting. */
  lemma StatusMoves(plan: Plan, s: State, id: Id, open: Status, final: Status)
    requires id in s.subs && !Terminal(open) && Terminal(final)
    ensures var sub := s.subs[id];
      && Apply(plan, s, Claim(id)) == (if sub.status == Done || sub.status == Error then s
                                       else s.(subs := s.subs[id := Sub(sub.key, sub.question, Pending, sub.claims + 1)]))
      && Apply(plan, s, Move(id, open)) == (if sub.status == Done || sub.status == Error then s
                                            else s.(subs := s.subs[id := Sub(sub.key, sub.question, open, sub.claims)]))
      && Apply(plan, s, Requeue(id)).subs == s.subs[id := Sub(sub.key, sub.question, Pending, sub.claims)]
      && Apply(plan, s, Conclude(id, final))
         == s.(subs := s.subs[id := Sub(sub.key, sub.question, final, sub.claims)],
               tasks := s.tasks[s.next := Committed(sub.key)], next := s.next + 1)
      && Apply(plan, s, Recount(id)) == s.(tasks := s.tasks[s.next := Committed(sub.key)], next := s.next + 1)
  {
    assert s.subs[id] == Sub(s.subs[id].key, s.subs[id].question, s.subs[id].status, s.subs[id].claims);
  }

  /** A submission is stored for a started sitting, for a question of its plan, and once; a retry
      goes ahead on a failed submission only. */
  lemma StoredOncePerQuestion(plan: Plan, s: State, id: Id, key: Key, q: Question)
    ensures var asked := key in s.stamps && q in plan(key);
      var first := forall other | other in s.subs :: s.subs[other].key != key || s.subs[other].question != q;
      Apply(plan, s, Insert(id, key, q))
      == if id !in s.subs && asked && first then s.(subs := s.subs[id := Sub(key, q, Pending, 0)]) else s
    ensures Apply(plan, s, Check(id))
            == if id in s.subs && s.subs[id].status == Error
               then s.(tasks := s.tasks[s.next := Checked(s.subs[id].key, id)], next := s.next + 1) else s
  {
  }

  /** A retry's claim re-opens the row as it re-read it, one claim up, and no other row. */
  lemma ReclaimReopens(plan: Plan, s: State, t: nat, key: Key, id: Id, st: Status, n: nat)
    requires t in s.tasks && s.tasks[t] == Retrying(key, id, Some((st, n)))
    ensures Apply(plan, s, Reclaim(t)).subs
            == if id in s.subs && s.subs[id].status == st && s.subs[id].claims == n
               then s.subs[id := Sub(s.subs[id].key, s.subs[id].question, Pending, n + 1)] else s.subs
    ensures Apply(plan, s, Reclaim(t)).tasks == s.tasks - {t}
  {
    if id in s.subs { assert s.subs[id] == Sub(s.subs[id].key, s.subs[id].question, s.subs[id].status, s.subs[id].claims); }
  }

  lemma NewSubIsOpen(plan: Plan, s: State, e: Event, id: Id)
    requires id in Apply(plan, s, e).subs && id !in s.subs
    ensures e.Insert? && e.newId == id && Apply(plan, s, e) == s.(subs := s.subs[id := Sub(e.newKey, e.question, Pending, 0)])
  {
  }

  lemma WithdrawalStep(plan: Plan, s: State, e: Event, key: Key)
    ensures Withdrawals(Apply(plan, s, e), key) == Withdrawals(s, key)
            || (exists id :: Withdraws(s, e, id) && s.subs[id].key == key && Withdrawals(Apply(plan, s, e), key) == Withdrawals(s, key) + 1)
  {
    if e.Requeue? && e.requeued in s.subs && Terminal(s.subs[e.requeued].status) {
      assert Withdraws(s, e, e.requeued);
    } else if e.Reclaim? && e.task in s.tasks && s.tasks[e.task].Retrying? && ReclaimWins(s, e, s.tasks[e.task].id) {
      if Terminal(s.subs[s.tasks[e.task].id].status) { assert Withdraws(s, e, s.tasks[e.task].id); }
    }
  }

  lemma WithdrawalCounts(plan: Plan, s: State, e: Event, id: Id)
    requires Withdraws(s, e, id)
    ensures var s' := Apply(plan, s, e);
      && id in s'.subs && s'.subs[id].key == s.subs[id].key && s'.subs[id].status == Pending
      && Withdrawals(s', s.subs[id].key) == Withdrawals(s, s.subs[id].key) + 1
      && s'.stamps == s.stamps && s'.log == s.log
      && (forall t | t in s.tasks && s.tasks[t].ToSwap? :: t in s'.tasks && s'.tasks[t] == s.tasks[t])
  {
  }

  lemma LogStep(plan: Plan, s: State, e: Event)
    ensures Apply(plan, s, e).log ==
            if Notifies(s, e) then s.log + [Notice(s.tasks[e.task].key, s.tasks[e.task].graded, s.tasks[e.task].opening)]
            else s.log
  {
  }

  lemma StampStep(plan: Plan, s: State, e: Event, key: Key)
    requires key in s.stamps
    ensures key in Apply(plan, s, e).stamps
    ensures Apply(plan, s, e).stamps[key] ==
            ((s.stamps[key] || (Notifies(s, e) && s.tasks[e.task].key == key)) && !Reopens(s, e, key))
    ensures Reopenings(Apply(plan, s, e), key) == Reopenings(s, key) + if Reopens(s, e, key) then 1 else 0
  {
    match e
    case Start(_) =>
    case Swap(t) =>
      if t in s.tasks && s.tasks[t].ToSwap? {
        assert Apply(plan, s, e) == DoSwap(s, t, s.tasks[t].key, s.tasks[t].graded, s.tasks[t].opening);
      }
    case Reopen(t) =>
      if t in s.tasks && s.tasks[t].Checked? { assert Apply(plan, s, e) == DoReopen(s, t, s.tasks[t].key, s.tasks[t].id); }
    case _ => OtherStepsLeaveStamps(plan, s, e);
  }

  lemma OtherStepsLeaveStamps(plan: Plan, s: State, e: Event)
    requires !e.Start? && !e.Swap? && !e.Reopen?
    ensures Apply(plan, s, e).stamps == s.stamps && Apply(plan, s, e).reopened == s.reopened
  {
    if HasTask(e) && e.task in s.tasks { OtherTasksLeaveStamps(plan, s, e, s.tasks[e.task]); }
  }

  lemma OtherTasksLeaveStamps(plan: Plan, s: State, e: Event, task: Task)
    requires HasTask(e) && !e.Swap? && !e.Reopen?
    ensures ApplyTask(plan, s, e, task).stamps == s.stamps && ApplyTask(plan, s, e, task).reopened == s.reopened
  {
  }

  lemma NewStampIsClear(plan: Plan, s: State, e: Event, key: Key)
    requires key in Apply(plan, s, e).stamps && key !in s.stamps
    ensures e.Start? && Apply(plan, s, e) == s.(stamps := s.stamps[key := false])
  {
  }

  /** A task stays, moves on by its own step, or ends by it; new ones belong to a submission. */
  lemma TaskStep(plan: Plan, s: State, e: Event, t: nat)
    requires t in Apply(plan, s, e).tasks
    ensures var task := Apply(plan, s, e).tasks[t];
      || (t in s.tasks && s.tasks[t] == task)
      || (t == s.next && task.Committed? && (e.Conclude? || e.Recount?))
      || (t == s.next && task.Checked? && e.Check? && e.retried in s.subs && task == Checked(s.subs[e.retried].key, e.retried))
      || (t in s.tasks && e == Count(t) && s.tasks[t] == Committed(task.key) && Reached(plan, s, task.key)
          && task == ToSwap(task.key, Graded(s.subs, task.key), Withdrawals(s, task.key)) && Apply(plan, s, e).subs == s.subs
          && Withdrawals(Apply(plan, s, e), task.key) == Withdrawals(s, task.key))
      || (t in s.tasks && e == Reopen(t) && task.Retrying? && task.token == None && s.tasks[t] == Checked(task.key, task.id))
      || (t in s.tasks && e == Reload(t) && task.Retrying? && s.tasks[t] == Retrying(task.key, task.id, None)
          && task.id in s.subs && task.token == Some(TokenOf(s.subs[task.id])) && Apply(plan, s, e).subs == s.subs)
  {
    if !HasTask(e) {
      TaskAdded(plan, s, e, t);
    } else if e.task != t {
      NoOtherTaskMoves(plan, s, e, t);
    } else {
      assert Apply(plan, s, e) == ApplyTask(plan, s, e, s.tasks[t]);
    }
  }

  lemma TaskAdded(plan: Plan, s: State, e: Event, t: nat)
    requires !HasTask(e) && t in Apply(plan, s, e).tasks
    ensures var task := Apply(plan, s, e).tasks[t];
      || (t in s.tasks && s.tasks[t] == task)
      || (t == s.next && task.Committed? && (e.Conclude? || e.Recount?))
      || (t == s.next && task.Checked? && e.Check? && e.retried in s.subs && task == Checked(s.subs[e.retried].key, e.retried))
  {
  }

  lemma NoOtherTaskMoves(plan: Plan, s: State, e: Event, t: nat)
    requires HasTask(e) && e.task != t
    ensures t in Apply(plan, s, e).tasks <==> t in s.tasks
    ensures t in s.tasks ==> Apply(plan, s, e).tasks[t] == s.tasks[t]
  {
    if e.task in s.tasks {
      assert Apply(plan, s, e) == ApplyTask(plan, s, e, s.tasks[e.task]);
    }
  }

  lemma NoTaskIsLost(plan: Plan, s: State, e: Event, t: nat)
    requires !HasTask(e) && t in s.tasks && t < s.next
    ensures t in Apply(plan, s, e).tasks && Apply(plan, s, e).tasks[t] == s.tasks[t]
  {
  }

  // ------------------------------------------------------------------------
  // The invariant of every run
  // ------------------------------------------------------------------------

  ghost predicate CoversSlots(plan: Plan, s: State, key: Key, graded: set<Id>) {
    && graded <= s.subs.Keys
    && (forall id | id in graded :: s.subs[id].key == key)
    && QuestionsOf(s.subs, graded) == Asked(plan, key)
    && plan(key) != [] && Distinct(plan(key))
  }

  /** A counted sitting covered every slot when it was counted, and still does unless
      a submission has been taken back since. */
  ghost predicate TaskOk(plan: Plan, s: State, t: nat) requires t in s.tasks {
    && t < s.next
    && match s.tasks[t]
       case Committed(_) => true
       case ToSwap(key, graded, opening) =>
         && CoversSlots(plan, s, key, graded)
         && opening <= Withdrawals(s, key)
         && (opening == Withdrawals(s, key) ==> graded <= Graded(s.subs, key))
       case Checked(key, id) => id in s.subs && s.subs[id].key == key
       case Retrying(key, id, _) => id in s.subs && s.subs[id].key == key
  }

  ghost predicate Busy(s: State, key: Key) {
    exists t :: t in s.tasks && s.tasks[t].key == key
  }

  /** The task will count the sitting, swap its stamp, or take its submission back. */
  predicate Pledge(s: State, t: nat, key: Key) {
    && t in s.tasks && s.tasks[t].key == key
    && match s.tasks[t]
       case Committed(_) => true
       case ToSwap(_, _, _) => true
       case Checked(_, _) => false
       case Retrying(_, id, token) => token.None? || (id in s.subs && token == Some(TokenOf(s.subs[id])))
  }

  ghost predicate Pledged(s: State, key: Key) {
    exists t :: Pledge(s, t, key)
  }

  ghost predicate CountOk(s: State, key: Key) requires key in s.stamps {
    && Notices(s.log, key) + (if s.stamps[key] then 0 else 1) <= 1 + Reopenings(s, key)
    && (s.stamps[key] ==> Notices(s.log, key) >= 1)
  }

  /** A complete sitting nobody was told of has somebody at work on it. */
  ghost predicate KeyOk(plan: Plan, s: State, key: Key) requires key in s.stamps {
    CountOk(s, key) && (Reached(plan, s, key) && !s.stamps[key] ==> Pledged(s, key))
  }

  ghost predicate NoticeOk(plan: Plan, s: State, n: Notice) {
    n.key in s.stamps && CoversSlots(plan, s, n.key, n.graded) && n.opening <= Withdrawals(s, n.key)
  }

  ghost predicate Inv(plan: Plan, s: State) {
    && UniqueKey(plan, s)
    && (forall t | t in s.tasks :: TaskOk(plan, s, t))
    && (forall key | key in s.stamps :: KeyOk(plan, s, key))
    && (forall n | n in s.log :: NoticeOk(plan, s, n))
    && (forall key | key in s.reopened :: key in s.stamps)
  }

  lemma CoverSurvives(plan: Plan, s: State, e: Event, key: Key, graded: set<Id>)
    requires CoversSlots(plan, s, key, graded)
    ensures CoversSlots(plan, Apply(plan, s, e), key, graded)
  {
    var s' := Apply(plan, s, e);
    forall id | id in graded
      ensures id in s'.subs && s'.subs[id].key == s.subs[id].key && s'.subs[id].question == s.subs[id].question
    {
      SubStep(plan, s, e, id);
    }
    assert QuestionsOf(s'.subs, graded) == QuestionsOf(s.subs, graded);
  }

  lemma StepKeepsUniqueKey(plan: Plan, s: State, e: Event)
    requires UniqueKey(plan, s)
    ensures UniqueKey(plan, Apply(plan, s, e))
  {
    var s' := Apply(plan, s, e);
    forall id | id in s'.subs ensures s'.subs[id].key in s'.stamps && s'.subs[id].question in plan(s'.subs[id].key) {
      if id in s.subs {
        SubStep(plan, s, e, id);
        StampStep(plan, s, e, s.subs[id].key);
      } else {
        NewSubIsOpen(plan, s, e, id);
      }
    }
    forall a, b | a in s'.subs && b in s'.subs && s'.subs[a].key == s'.subs[b].key && s'.subs[a].question == s'.subs[b].question
      ensures a == b
    {
      StillUnique(plan, s, e, a, b);
    }
  }

  lemma StillUnique(plan: Plan, s: State, e: Event, a: Id, b: Id)
    requires UniqueKey(plan, s) && a in Apply(plan, s, e).subs && b in Apply(plan, s, e).subs
    requires Apply(plan, s, e).subs[a].key == Apply(plan, s, e).subs[b].key
    requires Apply(plan, s, e).subs[a].question == Apply(plan, s, e).subs[b].question
    ensures a == b
  {
    if a in s.subs { SubStep(plan, s, e, a); } else { NewSubIsOpen(plan, s, e, a); }
    if b in s.subs { SubStep(plan, s, e, b); } else { NewSubIsOpen(plan, s, e, b); }
  }

  /** Only a withdrawal takes a graded submission back. */
  lemma GradedSurvives(plan: Plan, s: State, e: Event, key: Key)
    requires Withdrawals(Apply(plan, s, e), key) == Withdrawals(s, key)
    ensures Graded(s.subs, key) <= Graded(Apply(plan, s, e).subs, key)
  {
    forall id | id in Graded(s.subs, key) ensures id in Graded(Apply(plan, s, e).subs, key) {
      SubStep(plan, s, e, id);
      if Withdraws(s, e, id) { WithdrawalCounts(plan, s, e, id); }
    }
  }

  lemma WithdrawalsGrow(plan: Plan, s: State, e: Event, key: Key)
    ensures Withdrawals(s, key) <= Withdrawals(Apply(plan, s, e), key)
  {
    WithdrawalStep(plan, s, e, key);
  }

  lemma WaitingTaskStaysOk(plan: Plan, s: State, e: Event, t: nat)
    requires t in s.tasks && TaskOk(plan, s, t) && t in Apply(plan, s, e).tasks && Apply(plan, s, e).tasks[t] == s.tasks[t]
    ensures TaskOk(plan, Apply(plan, s, e), t)
  {
    var key := s.tasks[t].key;
    match s.tasks[t]
    case Committed(_) =>
    case ToSwap(_, graded, _) =>
      CoverSurvives(plan, s, e, key, graded);
      WithdrawalsGrow(plan, s, e, key);
      if Withdrawals(Apply(plan, s, e), key) == Withdrawals(s, key) { GradedSurvives(plan, s, e, key); }
    case Checked(_, id) => SubStep(plan, s, e, id);
    case Retrying(_, id, _) => SubStep(plan, s, e, id);
  }

  lemma StepKeepsTask(plan: Plan, s: State, e: Event, t: nat)
    requires UniqueKey(plan, s) && t in Apply(plan, s, e).tasks && (t in s.tasks ==> TaskOk(plan, s, t))
    ensures TaskOk(plan, Apply(plan, s, e), t)
  {
    TaskStep(plan, s, e, t);
    NextGrows(plan, s, e);
    var task := Apply(plan, s, e).tasks[t];
    if t in s.tasks && s.tasks[t] == task {
      WaitingTaskStaysOk(plan, s, e, t);
    } else if task.ToSwap? {
      CountMeansComplete(plan, s, task.key);
    } else if task.Checked? {
      SubStep(plan, s, e, e.retried);
    } else if task.Retrying? {
      SubStep(plan, s, e, task.id);
    }
  }

  lemma NextGrows(plan: Plan, s: State, e: Event)
    ensures s.next <= Apply(plan, s, e).next
    ensures s.next in Apply(plan, s, e).tasks && s.next !in s.tasks ==> s.next < Apply(plan, s, e).next
    ensures e.Conclude? || e.Recount? || e.Check? ==> Apply(plan, s, e) == s || s.next < Apply(plan, s, e).next
  {
    if HasTask(e) {
      TaskStepsSpawnNothing(plan, s, e);
      if s.next != e.task { NoOtherTaskMoves(plan, s, e, s.next); }
    }
  }

  lemma TaskStepsSpawnNothing(plan: Plan, s: State, e: Event)
    requires HasTask(e)
    ensures Apply(plan, s, e).next == s.next && (e.task !in s.tasks ==> Apply(plan, s, e) == s)
  {
  }

  lemma NoticesAppend(log: seq<Notice>, n: Notice, key: Key)
    ensures Notices(log + [n], key) == Notices(log, key) + if n.key == key then 1 else 0
  {
    assert (log + [n])[..|log|] == log;
  }

  lemma {:induction false} NoticesOfUnknown(plan: Plan, s: State, log: seq<Notice>, key: Key)
    requires key !in s.stamps && forall n | n in log :: n.key in s.stamps
    ensures Notices(log, key) == 0
  {
    if log != [] { NoticesOfUnknown(plan, s, log[..|log| - 1], key); }
  }

  lemma StepKeepsCount(plan: Plan, s: State, e: Event, key: Key)
    requires Inv(plan, s) && key in Apply(plan, s, e).stamps
    ensures CountOk(Apply(plan, s, e), key)
  {
    LogStep(plan, s, e);
    if key in s.stamps {
      assert KeyOk(plan, s, key);
      StampStep(plan, s, e, key);
      if Notifies(s, e) {
        NoticesAppend(s.log, Notice(s.tasks[e.task].key, s.tasks[e.task].graded, s.tasks[e.task].opening), key);
      }
    } else {
      NewStampIsClear(plan, s, e, key);
      forall n | n in s.log ensures n.key in s.stamps { assert NoticeOk(plan, s, n); }
      NoticesOfUnknown(plan, s, s.log, key);
    }
  }

  /** The step leaves every submission of this sitting as it was. */
  ghost predicate Spares(s: State, s': State, key: Key) {
    && (forall id | id in s.subs && s.subs[id].key == key :: id in s'.subs && s'.subs[id] == s.subs[id])
    && (forall id | id in s'.subs && s'.subs[id].key == key :: id in s.subs && s.subs[id].key == key)
  }

  lemma SparedIsAsGraded(plan: Plan, s: State, s': State, key: Key)
    requires Spares(s, s', key)
    ensures Graded(s'.subs, key) == Graded(s.subs, key)
  {
  }

  /** The step writes this submission: it is open afterwards, or a callback has committed it. */
  lemma WrittenIsOpenOrCommitted(plan: Plan, s: State, e: Event, id: Id)
    requires id in Apply(plan, s, e).subs && (id in s.subs ==> Apply(plan, s, e).subs[id] != s.subs[id])
    ensures var s' := Apply(plan, s, e); !Terminal(s'.subs[id].status) || Pledge(s', s.next, s'.subs[id].key)
  {
    if id in s.subs { SubStep(plan, s, e, id); } else { NewSubIsOpen(plan, s, e, id); }
  }

  lemma StepKeepsPledge(plan: Plan, s: State, e: Event, key: Key)
    requires Inv(plan, s) && key in Apply(plan, s, e).stamps
    requires Reached(plan, Apply(plan, s, e), key) && !Apply(plan, s, e).stamps[key]
    ensures Pledged(Apply(plan, s, e), key)
  {
    var s' := Apply(plan, s, e);
    StepKeepsUniqueKey(plan, s, e);
    if Spares(s, s', key) {
      SparedIsAsGraded(plan, s, s', key);
      SparedKeepsPledge(plan, s, e, key);
    } else {
      var id :| id in s'.subs && s'.subs[id].key == key && (id in s.subs ==> s'.subs[id] != s.subs[id]) by {
        UnsparedHasAWitness(plan, s, e, key);
      }
      WrittenIsOpenOrCommitted(plan, s, e, id);
      if !Terminal(s'.subs[id].status) { OpenMeansUnreached(plan, s', id); }
    }
  }

  lemma UnsparedHasAWitness(plan: Plan, s: State, e: Event, key: Key)
    requires !Spares(s, Apply(plan, s, e), key)
    ensures var s' := Apply(plan, s, e);
      exists id :: id in s'.subs && s'.subs[id].key == key && (id in s.subs ==> s'.subs[id] != s.subs[id])
  {
    var s' := Apply(plan, s, e);
    if id :| id in s.subs && s.subs[id].key == key && !(id in s'.subs && s'.subs[id] == s.subs[id]) {
      SubStep(plan, s, e, id);
    } else {
      var id :| id in s'.subs && s'.subs[id].key == key && !(id in s.subs && s.subs[id].key == key);
      if id in s.subs { SubStep(plan, s, e, id); }
    }
  }

  lemma SparedKeepsPledge(plan: Plan, s: State, e: Event, key: Key)
    requires Inv(plan, s) && key in Apply(plan, s, e).stamps && Spares(s, Apply(plan, s, e), key)
    requires Reached(plan, s, key) && !Apply(plan, s, e).stamps[key]
    ensures Pledged(Apply(plan, s, e), key)
  {
    ReachedIsStarted(plan, s, key);
    StampStep(plan, s, e, key);
    if Reopens(s, e, key) {
      assert Pledge(Apply(plan, s, e), e.task, key);
    } else {
      assert KeyOk(plan, s, key);
      var t :| Pledge(s, t, key);
      assert TaskOk(plan, s, t);
      PledgeStays(plan, s, e, t, key);
    }
  }

  lemma ReachedIsStarted(plan: Plan, s: State, key: Key)
    requires UniqueKey(plan, s) && Reached(plan, s, key)
    ensures key in s.stamps
  {
    var id :| id in Graded(s.subs, key);
  }

  lemma PledgeStays(plan: Plan, s: State, e: Event, t: nat, key: Key)
    requires Pledge(s, t, key) && TaskOk(plan, s, t) && key in s.stamps && Spares(s, Apply(plan, s, e), key)
    requires Reached(plan, s, key) && !Apply(plan, s, e).stamps[key]
    ensures Pledge(Apply(plan, s, e), t, key)
  {
    var s' := Apply(plan, s, e);
    StampStep(plan, s, e, key);
    if HasTask(e) && e.task == t {
      OwnStepKeepsPledge(plan, s, e, key);
    } else {
      if HasTask(e) { NoOtherTaskMoves(plan, s, e, t); } else { NoTaskIsLost(plan, s, e, t); }
    }
  }

  lemma OwnStepKeepsPledge(plan: Plan, s: State, e: Event, key: Key)
    requires HasTask(e) && Pledge(s, e.task, key) && TaskOk(plan, s, e.task) && key in s.stamps
    requires Spares(s, Apply(plan, s, e), key) && Reached(plan, s, key)
    requires key in Apply(plan, s, e).stamps && !Apply(plan, s, e).stamps[key]
    ensures Pledge(Apply(plan, s, e), e.task, key)
  {
    match s.tasks[e.task]
    case Committed(_) =>
    case ToSwap(_, _, _) =>
    case Checked(_, _) =>
    case Retrying(_, id, token) =>
      if e.Reclaim? && token.Some? { ReclaimWrites(plan, s, e, id); }
  }

  lemma ReclaimWrites(plan: Plan, s: State, e: Event, id: Id)
    requires ReclaimWins(s, e, id)
    ensures Apply(plan, s, e).subs[id] != s.subs[id]
  {
  }

  lemma StepKeepsNotice(plan: Plan, s: State, e: Event, n: Notice)
    requires Inv(plan, s) && n in Apply(plan, s, e).log
    ensures NoticeOk(plan, Apply(plan, s, e), n)
  {
    LogStep(plan, s, e);
    if n in s.log { assert NoticeOk(plan, s, n); } else { assert TaskOk(plan, s, e.task); }
    CoverSurvives(plan, s, e, n.key, n.graded);
    WithdrawalsGrow(plan, s, e, n.key);
    StampStep(plan, s, e, n.key);
  }

  lemma StepKeepsInv(plan: Plan, s: State, e: Event)
    requires Inv(plan, s)
    ensures Inv(plan, Apply(plan, s, e))
  {
    var s' := Apply(plan, s, e);
    StepKeepsUniqueKey(plan, s, e);
    forall n | n in s'.log ensures NoticeOk(plan, s', n) { StepKeepsNotice(plan, s, e, n); }
    StepKeepsTasks(plan, s, e);
    forall key | key in s'.stamps ensures KeyOk(plan, s', key) { StepKeepsKey(plan, s, e, key); }
    OnlyStartedReopen(plan, s, e);
  }

  lemma StepKeepsKey(plan: Plan, s: State, e: Event, key: Key)
    requires Inv(plan, s) && key in Apply(plan, s, e).stamps
    ensures KeyOk(plan, Apply(plan, s, e), key)
  {
    StepKeepsCount(plan, s, e, key);
    if Reached(plan, Apply(plan, s, e), key) && !Apply(plan, s, e).stamps[key] { StepKeepsPledge(plan, s, e, key); }
  }

  lemma StepKeepsTasks(plan: Plan, s: State, e: Event)
    requires Inv(plan, s)
    ensures forall t | t in Apply(plan, s, e).tasks :: TaskOk(plan, Apply(plan, s, e), t)
  {
    forall t | t in Apply(plan, s, e).tasks ensures TaskOk(plan, Apply(plan, s, e), t) {
      assert t in s.tasks ==> TaskOk(plan, s, t);
      StepKeepsTask(plan, s, e, t);
    }
  }

  lemma OnlyStartedReopen(plan: Plan, s: State, e: Event)
    requires forall key | key in s.reopened :: key in s.stamps
    ensures forall key | key in Apply(plan, s, e).reopened :: key in Apply(plan, s, e).stamps
  {
  }

  lemma {:induction false} RunKeepsInv(plan: Plan, es: seq<Event>)
    ensures Inv(plan, Run(plan, es))
  {
    if es != [] {
      RunKeepsInv(plan, es[..|es| - 1]);
      StepKeepsInv(plan, Run(plan, es[..|es| - 1]), es[|es| - 1]);
    }
  }

  // ------------------------------------------------------------------------
  // Over every run
  // ------------------------------------------------------------------------

  /** Safety.  In every run each notification reports exactly one submission per slot,
      and a sitting is notified at most once more than its stamp is cleared. */
  lemma NotifiedAtMostOncePerOpening(plan: Plan, es: seq<Event>, key: Key)
    ensures var s := Run(plan, es);
      && Notices(s.log, key) <= 1 + Reopenings(s, key)
      && forall n | n in s.log :: CoversSlots(plan, s, n.key, n.graded) && |n.graded| == |plan(n.key)|
  {
    RunKeepsInv(plan, es);
    var s := Run(plan, es);
    forall n | n in s.log ensures n.key in s.stamps { assert NoticeOk(plan, s, n); }
    if key in s.stamps { assert KeyOk(plan, s, key); } else { NoticesOfUnknown(plan, s, s.log, key); }
    forall n | n in s.log ensures CoversSlots(plan, s, n.key, n.graded) && |n.graded| == |plan(n.key)| {
      assert NoticeOk(plan, s, n);
      OneSubmissionPerQuestion(plan, s, n.key, n.graded);
      SlotsVersusQuestions(plan(n.key));
    }
  }

  lemma NotifiedOnlyWhenComplete(plan: Plan, es: seq<Event>, t: nat)
    requires Notifies(Run(plan, es), Swap(t))
    ensures var s := Run(plan, es);
      s.tasks[t].opening == Withdrawals(s, s.tasks[t].key) ==> AllSlotsGraded(plan, s.subs, s.tasks[t].key)
  {
    RunKeepsInv(plan, es);
    var s := Run(plan, es);
    assert TaskOk(plan, s, t);
  }

  /** Liveness.  Once every slot of a started sitting is graded and no worker is mid-step
      on it, the stamp is set and a notice was sent. */
  lemma CompleteSittingIsNotified(plan: Plan, es: seq<Event>, key: Key)
    requires key in Run(plan, es).stamps && !Busy(Run(plan, es), key)
    requires plan(key) != [] && Distinct(plan(key)) && AllSlotsGraded(plan, Run(plan, es).subs, key)
    ensures Run(plan, es).stamps[key] && Notices(Run(plan, es).log, key) >= 1
  {
    RunKeepsInv(plan, es);
    var s := Run(plan, es);
    CountMeansComplete(plan, s, key);
    assert KeyOk(plan, s, key);
  }

  /** The distinctness is needed, not convenient: if two slots resolve to one question
      the sitting can never be notified, however many of its submissions are graded. */
  lemma SharedQuestionIsNeverNotified(plan: Plan, es: seq<Event>, key: Key)
    requires !Distinct(plan(key))
    ensures Notices(Run(plan, es).log, key) == 0
  {
    RunKeepsInv(plan, es);
    var s := Run(plan, es);
    forall n | n in s.log ensures CoversSlots(plan, s, n.key, n.graded) { assert NoticeOk(plan, s, n); }
    NoticesNeedCover(plan, s, s.log, key);
  }

  lemma {:induction false} NoticesNeedCover(plan: Plan, s: State, log: seq<Notice>, key: Key)
    requires !Distinct(plan(key)) && forall n | n in log :: CoversSlots(plan, s, n.key, n.graded)
    ensures Notices(log, key) == 0
  {
    if log != [] {
      NoticesNeedCover(plan, s, log[..|log| - 1], key);
      assert log[|log| - 1] in log;
    }
  }

  const TwoSlots: Plan := (key: Key) => [7, 7]
  const OneSlot: Plan := (key: Key) => [7]
  const Sitting: Key := (0, 0)

  /** A sitting's only submission is concluded and not yet counted. */
  lemma Concluded(plan: Plan, final: Status) returns (es: seq<Event>)
    requires Terminal(final) && 7 in plan(Sitting)
    ensures Run(plan, es) ==
      State(map[0 := Sub(Sitting, 7, final, 0)], map[Sitting := false], map[0 := Committed(Sitting)], 1, map[], map[], [])
    ensures Graded(Run(plan, es).subs, Sitting) == {0}
  {
    RunSnoc(plan, [], Start(Sitting));
    es := [] + [Start(Sitting)];
    assert Run(plan, es).stamps == map[Sitting := false];
    RunSnoc(plan, es, Insert(0, Sitting, 7));
    es := es + [Insert(0, Sitting, 7)];
    assert Run(plan, es).subs == map[0 := Sub(Sitting, 7, Pending, 0)];
    RunSnoc(plan, es, Conclude(0, final));
    es := es + [Conclude(0, final)];
    assert Run(plan, es).subs == map[0 := Sub(Sitting, 7, final, 0)] && Run(plan, es).tasks == map[0 := Committed(Sitting)];
  }

  /** The failing input: question 7 is one slot and a variant of the other slot's set.  It is
      answered and graded, no worker is at work, and nobody is told. */
  lemma SharedQuestionRun() returns (es: seq<Event>)
    ensures var s := Run(TwoSlots, es);
      AllSlotsGraded(TwoSlots, s.subs, Sitting) && s.tasks == map[] && s.log == [] && s.stamps == map[Sitting := false]
  {
    es := Concluded(TwoSlots, Done);
    var s := Run(TwoSlots, es);
    RunSnoc(TwoSlots, es, Count(0));
    es := es + [Count(0)];
    assert Run(TwoSlots, es) == Finish(s, 0);
    assert Asked(TwoSlots, Sitting) == {7} && QuestionsOf(s.subs, {0}) == {7};
  }

  // ------------------------------------------------------------------------
  // Taking a graded submission back
  // ------------------------------------------------------------------------

  /** A callback has counted this sitting and not swapped its stamp yet. */
  ghost predicate Swapping(s: State, key: Key) {
    exists t :: t in s.tasks && s.tasks[t].ToSwap? && s.tasks[t].key == key
  }

  /** The stamp is clear and no swap is outstanding: nothing told, nothing about to be. */
  ghost predicate Clear(s: State, key: Key) {
    key in s.stamps && !s.stamps[key] && !Swapping(s, key)
  }

  /** A submission is taken back while its sitting is not clear. */
  ghost predicate Tangles(s: State, e: Event) {
    exists id :: Withdraws(s, e, id) && !Clear(s, s.subs[id].key)
  }

  ghost predicate Untangled(plan: Plan, es: seq<Event>) {
    es == [] || (Untangled(plan, es[..|es| - 1]) && !Tangles(Run(plan, es[..|es| - 1]), es[|es| - 1]))
  }

  /** The interviewer has been told of the sitting as it is since the last withdrawal. */
  ghost predicate Told(s: State, key: Key) {
    exists n :: n in s.log && n.key == key && n.opening == Withdrawals(s, key)
  }

  ghost predicate Current(s: State) {
    && (forall t | t in s.tasks && s.tasks[t].ToSwap? :: s.tasks[t].opening == Withdrawals(s, s.tasks[t].key))
    && (forall key | key in s.stamps && s.stamps[key] :: Told(s, key))
  }

  lemma UntangledWithdrawal(plan: Plan, s: State, e: Event, key: Key)
    requires !Tangles(s, e) && Withdrawals(Apply(plan, s, e), key) != Withdrawals(s, key)
    ensures Clear(s, key) && Apply(plan, s, e).stamps == s.stamps && !e.Swap? && !e.Count?
  {
    WithdrawalStep(plan, s, e, key);
    var id :| Withdraws(s, e, id) && s.subs[id].key == key;
    WithdrawalCounts(plan, s, e, id);
  }

  lemma StepKeepsTold(plan: Plan, s: State, e: Event, key: Key)
    requires Current(s) && !Tangles(s, e) && key in Apply(plan, s, e).stamps && Apply(plan, s, e).stamps[key]
    ensures Told(Apply(plan, s, e), key)
  {
    var s' := Apply(plan, s, e);
    if key !in s.stamps { NewStampIsClear(plan, s, e, key); }
    StampStep(plan, s, e, key);
    LogStep(plan, s, e);
    if Withdrawals(s', key) != Withdrawals(s, key) { UntangledWithdrawal(plan, s, e, key); }
    if s.stamps[key] {
      var n :| n in s.log && n.key == key && n.opening == Withdrawals(s, key);
      assert n in s'.log;
    } else {
      var n := s'.log[|s'.log| - 1];
      assert n in s'.log && n.key == key && n.opening == Withdrawals(s', key);
    }
  }

  lemma SwapStaysCurrent(plan: Plan, s: State, e: Event, t: nat)
    requires Current(s) && !Tangles(s, e) && t in Apply(plan, s, e).tasks && Apply(plan, s, e).tasks[t].ToSwap?
    ensures Apply(plan, s, e).tasks[t].opening == Withdrawals(Apply(plan, s, e), Apply(plan, s, e).tasks[t].key)
  {
    TaskStep(plan, s, e, t);
    if t in s.tasks && s.tasks[t] == Apply(plan, s, e).tasks[t] {
      var key := s.tasks[t].key;
      assert Swapping(s, key);
      if Withdrawals(Apply(plan, s, e), key) != Withdrawals(s, key) { UntangledWithdrawal(plan, s, e, key); }
    }
  }

  lemma StepKeepsCurrent(plan: Plan, s: State, e: Event)
    requires Current(s) && !Tangles(s, e)
    ensures Current(Apply(plan, s, e))
  {
    var s' := Apply(plan, s, e);
    forall key | key in s'.stamps && s'.stamps[key] ensures Told(s', key) { StepKeepsTold(plan, s, e, key); }
    forall t | t in s'.tasks && s'.tasks[t].ToSwap? ensures s'.tasks[t].opening == Withdrawals(s', s'.tasks[t].key) {
      SwapStaysCurrent(plan, s, e, t);
    }
  }

  lemma {:induction false} UntangledIsCurrent(plan: Plan, es: seq<Event>)
    requires Untangled(plan, es)
    ensures Current(Run(plan, es))
  {
    if es != [] {
      UntangledIsCurrent(plan, es[..|es| - 1]);
      StepKeepsCurrent(plan, Run(plan, es[..|es| - 1]), es[|es| - 1]);
    }
  }

  /** In runs that take submissions back only while their sitting is clear, every notice goes
      out while all slots are graded... */
  lemma UntangledNoticeIsTrue(plan: Plan, es: seq<Event>, t: nat)
    requires Untangled(plan, es) && Notifies(Run(plan, es), Swap(t))
    ensures var s := Run(plan, es); AllSlotsGraded(plan, s.subs, s.tasks[t].key)
  {
    NotifiedOnlyWhenComplete(plan, es, t);
    UntangledIsCurrent(plan, es);
  }

  /** ...and a sitting that is complete and idle -- retried and re-graded or not -- has been
      told of as it is since its last withdrawal. */
  lemma UntangledSittingIsTold(plan: Plan, es: seq<Event>, key: Key)
    requires Untangled(plan, es) && key in Run(plan, es).stamps && !Busy(Run(plan, es), key)
    requires plan(key) != [] && Distinct(plan(key)) && AllSlotsGraded(plan, Run(plan, es).subs, key)
    ensures Told(Run(plan, es), key)
  {
    CompleteSittingIsNotified(plan, es, key);
    UntangledIsCurrent(plan, es);
  }

  /** The stamp says told, and it is not so. */
  ghost predicate Muted(s: State, key: Key) {
    key in s.stamps && s.stamps[key] && !Told(s, key)
  }

  lemma MutedStepsSilently(plan: Plan, s: State, e: Event, key: Key)
    requires Inv(plan, s) && Muted(s, key) && !e.Reopen?
    ensures Muted(Apply(plan, s, e), key)
  {
    var s' := Apply(plan, s, e);
    StampStep(plan, s, e, key);
    LogStep(plan, s, e);
    WithdrawalsGrow(plan, s, e, key);
    forall n | n in s'.log && n.key == key ensures n.opening != Withdrawals(s', key) {
      assert n in s.log && NoticeOk(plan, s, n);
    }
  }

  ghost predicate WithoutReopening(es: seq<Event>) {
    forall e | e in es :: !e.Reopen?
  }

  /** Until a further retry clears the stamp, nothing will be sent for a muted sitting,
      whatever else happens. */
  lemma {:induction false} MutedIsForGood(plan: Plan, es: seq<Event>, fs: seq<Event>, key: Key)
    requires Muted(Run(plan, es), key) && WithoutReopening(fs)
    ensures Muted(Run(plan, es + fs), key)
  {
    if fs == [] {
      assert es + fs == es;
    } else {
      var init, e := fs[..|fs| - 1], fs[|fs| - 1];
      assert WithoutReopening(init) && e in fs;
      MutedIsForGood(plan, es, init, key);
      RunSnoc(plan, es + init, e);
      assert es + init + [e] == es + fs;
      RunKeepsInv(plan, es + init);
      MutedStepsSilently(plan, Run(plan, es + init), e, key);
    }
  }

  /** Taking a submission back while the stamp is set mutes the sitting at once. */
  lemma WithdrawalUnderAStampMutes(plan: Plan, s: State, e: Event, id: Id)
    requires Inv(plan, s) && Withdraws(s, e, id) && s.subs[id].key in s.stamps && s.stamps[s.subs[id].key]
    ensures Muted(Apply(plan, s, e), s.subs[id].key)
  {
    var key, s' := s.subs[id].key, Apply(plan, s, e);
    WithdrawalCounts(plan, s, e, id);
    forall n | n in s'.log && n.key == key ensures n.opening < Withdrawals(s', key) { assert NoticeOk(plan, s, n); }
  }

  /** Taking it back with a swap outstanding: that swap then sends a notice while the slot is
      open, and mutes the sitting. */
  lemma WithdrawalBeforeASwapMutes(plan: Plan, s: State, e: Event, id: Id, t: nat)
    requires Inv(plan, s) && Withdraws(s, e, id) && !s.stamps[s.subs[id].key]
    requires t in s.tasks && s.tasks[t].ToSwap? && s.tasks[t].key == s.subs[id].key
    ensures var s1, key := Apply(plan, s, e), s.subs[id].key;
      && Notifies(s1, Swap(t)) && !AllSlotsGraded(plan, s1.subs, key)
      && Muted(Apply(plan, s1, Swap(t)), key)
  {
    var key, s1 := s.subs[id].key, Apply(plan, s, e);
    WithdrawalCounts(plan, s, e, id);
    StepKeepsInv(plan, s, e);
    OpenMeansUnreached(plan, s1, id);
    assert TaskOk(plan, s, t);
    LogStep(plan, s1, Swap(t));
    StampStep(plan, s1, Swap(t), key);
    var s2 := Apply(plan, s1, Swap(t));
    SwapKeepsWithdrawals(plan, s1, t, key);
    forall n | n in s2.log && n.key == key ensures n.opening < Withdrawals(s2, key) {
      assert n in s.log ==> NoticeOk(plan, s, n);
    }
  }

  lemma SwapKeepsWithdrawals(plan: Plan, s: State, t: nat, key: Key)
    ensures Withdrawals(Apply(plan, s, Swap(t)), key) == Withdrawals(s, key)
  {
  }

  /** Nothing is reopened or taken back. */
  ghost predicate Quiet(es: seq<Event>) {
    forall e | e in es :: !e.Reopen? && !e.Requeue? && !e.Reclaim?
  }

  ghost predicate StaysToldAfter(plan: Plan, es: seq<Event>, fs: seq<Event>, key: Key) {
    !Muted(Run(plan, es + fs), key)
  }

  lemma {:induction false} QuietStaysUntangled(plan: Plan, es: seq<Event>, fs: seq<Event>)
    requires Untangled(plan, es) && Quiet(fs)
    ensures Untangled(plan, es + fs)
  {
    if fs == [] {
      assert es + fs == es;
    } else {
      var init, all := fs[..|fs| - 1], es + fs;
      assert Quiet(init) && fs[|fs| - 1] in fs;
      QuietStaysUntangled(plan, es, init);
      assert all[..|all| - 1] == es + init;
    }
  }

  /** The condition is exact.  When a submission is taken back -- by a retry's claim or a stale
      worker error -- its sitting is never muted, whatever quiet run follows, if and only if at
      that very step the stamp is clear and no swap is outstanding. */
  lemma WithdrawalIsSafeExactlyWhenClear(plan: Plan, es: seq<Event>, e: Event, id: Id)
    requires Untangled(plan, es) && Withdraws(Run(plan, es), e, id)
    ensures var key := Run(plan, es).subs[id].key;
      Clear(Run(plan, es), key) <==> (forall fs: seq<Event> | Quiet(fs) :: StaysToldAfter(plan, es + [e], fs, key))
  {
    var s := Run(plan, es);
    var key := s.subs[id].key;
    RunKeepsInv(plan, es);
    RunSnoc(plan, es, e);
    if Clear(s, key) {
      OnlyOneWithdrawn(s, e, id);
      assert (es + [e])[..|es|] == es;
      forall fs: seq<Event> | Quiet(fs) ensures StaysToldAfter(plan, es + [e], fs, key) {
        QuietStaysUntangled(plan, es + [e], fs);
        UntangledIsCurrent(plan, es + [e] + fs);
      }
    } else if s.stamps[key] {
      WithdrawalUnderAStampMutes(plan, s, e, id);
      assert es + [e] + [] == es + [e];
      assert Quiet([]) && !StaysToldAfter(plan, es + [e], [], key);
    } else {
      var t :| t in s.tasks && s.tasks[t].ToSwap? && s.tasks[t].key == key;
      WithdrawalBeforeASwapMutes(plan, s, e, id, t);
      RunSnoc(plan, es + [e], Swap(t));
      assert Quiet([Swap(t)]) && !StaysToldAfter(plan, es + [e], [Swap(t)], key);
    }
  }

  lemma OnlyOneWithdrawn(s: State, e: Event, id: Id)
    requires Withdraws(s, e, id)
    ensures forall other | Withdraws(s, e, other) :: other == id
  {
  }

  // ------------------------------------------------------------------------
  // The failing runs
  // ------------------------------------------------------------------------

  lemma CountRuns(es: seq<Event>, t: nat, key: Key)
    requires t in Run(OneSlot, es).tasks && Run(OneSlot, es).tasks[t] == Committed(key)
    ensures Run(OneSlot, es + [Count(t)]) == DoCount(OneSlot, Run(OneSlot, es), t, key)
  {
    RunSnoc(OneSlot, es, Count(t));
  }

  lemma SwapRuns(es: seq<Event>, t: nat, key: Key, graded: set<Id>, opening: nat)
    requires t in Run(OneSlot, es).tasks && Run(OneSlot, es).tasks[t] == ToSwap(key, graded, opening)
    ensures Run(OneSlot, es + [Swap(t)]) == DoSwap(Run(OneSlot, es), t, key, graded, opening)
  {
    RunSnoc(OneSlot, es, Swap(t));
  }

  lemma ReopenRuns(es: seq<Event>, t: nat, key: Key, id: Id)
    requires t in Run(OneSlot, es).tasks && Run(OneSlot, es).tasks[t] == Checked(key, id)
    ensures Run(OneSlot, es + [Reopen(t)]) == DoReopen(Run(OneSlot, es), t, key, id)
  {
    RunSnoc(OneSlot, es, Reopen(t));
  }

  lemma ReloadRuns(es: seq<Event>, t: nat, key: Key, id: Id)
    requires t in Run(OneSlot, es).tasks && Run(OneSlot, es).tasks[t] == Retrying(key, id, None) && id in Run(OneSlot, es).subs
    ensures Run(OneSlot, es + [Reload(t)]) == DoReload(Run(OneSlot, es), t, key, id, TokenOf(Run(OneSlot, es).subs[id]))
  {
    RunSnoc(OneSlot, es, Reload(t));
  }

  lemma ReclaimRuns(es: seq<Event>, t: nat, key: Key, id: Id, token: Token)
    requires t in Run(OneSlot, es).tasks && Run(OneSlot, es).tasks[t] == Retrying(key, id, Some(token))
    ensures Run(OneSlot, es + [Reclaim(t)]) == DoReclaim(Run(OneSlot, es), t, id, token)
  {
    RunSnoc(OneSlot, es, Reclaim(t));
  }

  /** The retry's two last steps with nothing in between claim the row. */
  lemma RetryRuns(es: seq<Event>, t: nat, key: Key, id: Id) returns (fs: seq<Event>)
    requires t in Run(OneSlot, es).tasks && Run(OneSlot, es).tasks[t] == Retrying(key, id, None) && id in Run(OneSlot, es).subs
    ensures Run(OneSlot, fs) == Finish(Pend(Run(OneSlot, es), id, true), t)
  {
    var s := Run(OneSlot, es);
    var token := TokenOf(s.subs[id]);
    ReloadRuns(es, t, key, id);
    ReclaimRuns(es + [Reload(t)], t, key, id, token);
    ReloadThenReclaim(s, t, key, id);
    fs := es + [Reload(t)] + [Reclaim(t)];
  }

  lemma ReloadThenReclaim(s: State, t: nat, key: Key, id: Id)
    requires id in s.subs
    ensures DoReclaim(DoReload(s, t, key, id, TokenOf(s.subs[id])), t, id, TokenOf(s.subs[id])) == Finish(Pend(s, id, true), t)
  {
    assert DoReload(s, t, key, id, TokenOf(s.subs[id])).tasks - {t} == s.tasks - {t};
  }

  /** The retried grading lands under a set stamp: every slot is graded, nobody is at work,
      and nothing further is sent. */
  lemma RegradedInSilence(es: seq<Event>) returns (fs: seq<Event>)
    requires var s := Run(OneSlot, es);
      && s.subs == map[0 := Sub(Sitting, 7, Pending, 1)] && s.stamps == map[Sitting := true] && s.tasks == map[]
      && s.next == 2 && s.log == [Notice(Sitting, {0}, 0)] && s.withdrawn == map[Sitting := 1]
    ensures var s := Run(OneSlot, es + fs);
      && s.subs == map[0 := Sub(Sitting, 7, Done, 1)] && s.stamps == map[Sitting := true] && s.tasks == map[]
      && s.log == [Notice(Sitting, {0}, 0)] && s.withdrawn == map[Sitting := 1]
  {
    var graded := es + [Conclude(0, Done)];
    RunSnoc(OneSlot, es, Conclude(0, Done));
    var s := Run(OneSlot, graded);
    assert s.subs == map[0 := Sub(Sitting, 7, Done, 1)] && s.tasks == map[2 := Committed(Sitting)];
    assert Graded(s.subs, Sitting) == {0};
    CountRuns(graded, 2, Sitting);
    assert Run(OneSlot, graded + [Count(2)]).tasks == map[2 := ToSwap(Sitting, {0}, 1)];
    SwapRuns(graded + [Count(2)], 2, Sitting, {0}, 1);
    fs := [Conclude(0, Done), Count(2), Swap(2)];
    assert es + fs == graded + [Count(2)] + [Swap(2)];
    assert Run(OneSlot, es + fs).tasks == map[];
  }

  /** The agent's error is committed and a retry has found it. */
  lemma ErrorChecked() returns (es: seq<Event>)
    ensures Run(OneSlot, es) == State(map[0 := Sub(Sitting, 7, Error, 0)], map[Sitting := false],
              map[0 := Committed(Sitting), 1 := Checked(Sitting, 0)], 2, map[], map[], [])
    ensures Graded(Run(OneSlot, es).subs, Sitting) == {0}
  {
    es := Concluded(OneSlot, Error);
    RunSnoc(OneSlot, es, Check(0));
    es := es + [Check(0)];
  }

  /** The retry claims between another callback's count and its swap: the stale notice goes
      out with the only slot open, and the new grade is never told. */
  lemma StaleNoticeRun() returns (es: seq<Event>, fs: seq<Event>)
    ensures var s := Run(OneSlot, es); s.log == [Notice(Sitting, {0}, 0)] && s.subs == map[0 := Sub(Sitting, 7, Pending, 1)]
    ensures var s := Run(OneSlot, es + fs);
      s.log == [Notice(Sitting, {0}, 0)] && s.subs == map[0 := Sub(Sitting, 7, Done, 1)] && s.tasks == map[]
  {
    es := ReopenedBeforeTheSwap();
    es := RetryRuns(es, 1, Sitting, 0);
    assert Run(OneSlot, es) == State(map[0 := Sub(Sitting, 7, Pending, 1)], map[Sitting := false],
                                     map[0 := ToSwap(Sitting, {0}, 0)], 2, map[Sitting := 1], map[Sitting := 1], []);
    es := SwappedAfterRetry(es);
    fs := RegradedInSilence(es);
  }

  lemma ReopenedBeforeTheSwap() returns (es: seq<Event>)
    ensures Run(OneSlot, es) == State(map[0 := Sub(Sitting, 7, Error, 0)], map[Sitting := false],
              map[0 := ToSwap(Sitting, {0}, 0), 1 := Retrying(Sitting, 0, None)], 2, map[Sitting := 1], map[], [])
  {
    es := ErrorChecked();
    CountRuns(es, 0, Sitting);
    es := es + [Count(0)];
    assert Run(OneSlot, es).tasks == map[0 := ToSwap(Sitting, {0}, 0), 1 := Checked(Sitting, 0)];
    es := Reopened(es);
  }

  lemma Reopened(es: seq<Event>) returns (fs: seq<Event>)
    requires var s := Run(OneSlot, es);
      && s.tasks.Keys == {0, 1} && s.tasks[1] == Checked(Sitting, 0) && s.stamps == map[Sitting := false]
      && s.reopened == map[] && s.withdrawn == map[]
    ensures var s := Run(OneSlot, es);
      Run(OneSlot, fs) == State(s.subs, s.stamps, map[0 := s.tasks[0], 1 := Retrying(Sitting, 0, None)],
                                s.next, map[Sitting := 1], map[], s.log)
  {
    ReopenRuns(es, 1, Sitting, 0);
    fs := es + [Reopen(1)];
    assert Run(OneSlot, fs).stamps == map[Sitting := false];
  }

  lemma SwappedAfterRetry(es: seq<Event>) returns (fs: seq<Event>)
    requires var s := Run(OneSlot, es);
      && s.tasks == map[0 := ToSwap(Sitting, {0}, 0)] && s.stamps == map[Sitting := false] && s.log == []
    ensures var s := Run(OneSlot, es);
      Run(OneSlot, fs) == State(s.subs, map[Sitting := true], map[], s.next, s.reopened, s.withdrawn, [Notice(Sitting, {0}, 0)])
  {
    SwapRuns(es, 0, Sitting, {0}, 0);
    fs := es + [Swap(0)];
    assert Run(OneSlot, fs).tasks == map[] && Run(OneSlot, fs).stamps == map[Sitting := true];
  }

  /** Nobody is between count and swap when the retry clears the stamp -- but a callback counts
      and swaps before the retry claims.  The stamp is set again, and again silence. */
  lemma StampSetBeforeTheClaimRun() returns (es: seq<Event>, fs: seq<Event>)
    ensures var s := Run(OneSlot, es);
      s.log == [Notice(Sitting, {0}, 0)] && s.subs == map[0 := Sub(Sitting, 7, Pending, 1)] && s.stamps == map[Sitting := true]
    ensures var s := Run(OneSlot, es + fs);
      s.log == [Notice(Sitting, {0}, 0)] && s.subs == map[0 := Sub(Sitting, 7, Done, 1)] && s.tasks == map[]
  {
    es := ToldBeforeTheClaim();
    es := RetryRuns(es, 1, Sitting, 0);
    assert Run(OneSlot, es) == State(map[0 := Sub(Sitting, 7, Pending, 1)], map[Sitting := true], map[], 2,
                                     map[Sitting := 1], map[Sitting := 1], [Notice(Sitting, {0}, 0)]);
    fs := RegradedInSilence(es);
  }

  lemma ToldBeforeTheClaim() returns (es: seq<Event>)
    ensures Run(OneSlot, es) == State(map[0 := Sub(Sitting, 7, Error, 0)], map[Sitting := true],
              map[1 := Retrying(Sitting, 0, None)], 2, map[Sitting := 1], map[], [Notice(Sitting, {0}, 0)])
  {
    es := ErrorChecked();
    es := Reopened(es);
    es := CountedAndSwapped(es);
  }

  lemma CountedAndSwapped(es: seq<Event>) returns (fs: seq<Event>)
    requires var s := Run(OneSlot, es);
      && s.tasks == map[0 := Committed(Sitting), 1 := Retrying(Sitting, 0, None)] && Graded(s.subs, Sitting) == {0}
      && s.stamps == map[Sitting := false] && s.withdrawn == map[] && s.log == []
    ensures var s := Run(OneSlot, es);
      Run(OneSlot, fs) == State(s.subs, map[Sitting := true], map[1 := Retrying(Sitting, 0, None)], s.next, s.reopened, map[],
                                [Notice(Sitting, {0}, 0)])
  {
    CountRuns(es, 0, Sitting);
    fs := es + [Count(0)];
    assert Run(OneSlot, fs).tasks[0] == ToSwap(Sitting, {0}, 0);
    SwapRuns(fs, 0, Sitting, {0}, 0);
    fs := fs + [Swap(0)];
    assert Run(OneSlot, fs).tasks == map[1 := Retrying(Sitting, 0, None)];
    assert Run(OneSlot, fs).stamps == map[Sitting := true];
  }

  // ------------------------------------------------------------------------
  // The rows as the request changes them
  // ------------------------------------------------------------------------

  class SittingStore {
    var subs: map<Id, Sub>
    var stamps: map<Key, bool>

    constructor (subs: map<Id, Sub>, stamps: map<Key, bool>)
      ensures this.subs == subs && this.stamps == stamps
    {
      this.subs, this.stamps := subs, stamps;
    }

    /** Compare-and-swap of the notified stamp: true for exactly one of any number of callers. */
    method Claim(key: Key) returns (won: bool)
      requires key in stamps
      modifies this`stamps
      ensures won == !old(stamps)[key]
      ensures stamps == old(stamps)[key := true]
    {
      won := !stamps[key];
      if won { stamps := stamps[key := true]; }
      assert stamps == old(stamps)[key := true];
    }

    /** `claim_sitting` with nothing in between: it reports the graded submissions exactly
        when the count is reached, the candidate has an attempt, and nobody was told yet. */
    method ClaimSitting(plan: Plan, id: Id) returns (ready: Option<set<Id>>)
      requires id in subs
      modifies this`stamps
      ensures var key := subs[id].key;
        && (ready.Some? <==> |Graded(subs, key)| >= (if plan(key) == [] then 1 else |plan(key)|)
                             && key in old(stamps) && !old(stamps)[key])
        && (ready.Some? ==> ready.value == Graded(subs, key))
        && stamps == if ready.Some? then old(stamps)[key := true] else old(stamps)
    {
      var key := subs[id].key;
      var graded := Graded(subs, key);
      if |graded| < SlotCount(plan, key) || key !in stamps { return None; }
      var won := Claim(key);
      ready := if won then Some(graded) else None;
      assert !won ==> stamps == old(stamps);
    }

    /** `reopen_sitting`: the next completed grading may notify again. */
    method ReopenSitting(id: Id)
      requires id in subs
      modifies this`stamps
      ensures var key := subs[id].key;
        stamps == if key in old(stamps) then old(stamps)[key := false] else old(stamps)
    {
      var key := subs[id].key;
      if key in stamps { stamps := stamps[key := false]; }
    }
  }

  /** What the request does in one go is what its two protocol steps do back to back. */
  lemma RequestIsCountThenSwap(plan: Plan, s: State, t: nat)
    requires t in s.tasks && s.tasks[t].Committed?
    ensures var key := s.tasks[t].key;
      var after := Apply(plan, Apply(plan, s, Count(t)), Swap(t));
      var ready := |Graded(s.subs, key)| >= SlotCount(plan, key) && key in s.stamps && !s.stamps[key];
      && after.stamps == (if ready then s.stamps[key := true] else s.stamps)
      && after.log == (if ready then s.log + [Notice(key, Graded(s.subs, key), Withdrawals(s, key))] else s.log)
      && t !in after.tasks
  {
    var key := s.tasks[t].key;
    var counted := Apply(plan, s, Count(t));
    assert counted == DoCount(plan, s, t, key);
    if Reached(plan, s, key) && key in s.stamps {
      SwapNow(plan, counted, t);
    } else {
      assert t !in counted.tasks;
    }
  }

  lemma SwapNow(plan: Plan, s: State, t: nat)
    requires t in s.tasks && s.tasks[t].ToSwap?
    ensures Apply(plan, s, Swap(t)) == DoSwap(s, t, s.tasks[t].key, s.tasks[t].graded, s.tasks[t].opening)
  {
  }
}
