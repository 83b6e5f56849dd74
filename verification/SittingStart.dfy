/**
Starting a sitting: `_get_or_start_attempt` and `_claim_sitting` in
`assessment_platform/api.py`.

A new sitting is looked up, claimed from the month's allowance, inserted under the
(invite, candidate) unique key and -- when the insert lost the race -- given back, which
reads the counter and then writes an absolute figure.  Those are separate steps, so any
number of requests interleave.  The model follows one organisation through one billing month.
*/
module SittingStart {
  import opened Base
  import Billing

  type Key = (nat, nat)

  /** `read` is the counter as the give-back's SELECT saw it. */
  datatype Phase = Checked(key: Key) | Claimed(key: Key) | LostInsert(key: Key) | GivingBack(key: Key, read: nat)

  /** `attempts` maps each started sitting to its clock start; `created` are those of
      this month. */
  datatype State = State(
    attempts: map<Key, int>,
    created: set<Key>,
    counter: Billing.Counter,
    tasks: map<nat, Phase>,
    next: nat)

  datatype Event =
    | Look(key: Key, consent: bool)
    | Claim(task: nat)
    | Insert(task: nat, now: int)
    | ReadBack(task: nat)
    | WriteBack(task: nat)

  /** The plan's limit and whether BILLING_ENFORCED is on. */
  datatype Config = Config(limit: nat, enforced: bool)

  predicate MayClaim(cfg: Config, c: Billing.Counter) {
    !cfg.enforced || c.used + 1 <= Billing.Allowance(cfg.limit, c)
  }

  function ClaimOne(cfg: Config, c: Billing.Counter): Billing.Counter {
    c.(used := c.used + 1,
       over := if cfg.enforced then c.over else c.over + Billing.Overrun(c.used, 1, Billing.Allowance(cfg.limit, c)))
  }

  /** An absolute figure, written only when it differs from the one read. */
  function WrittenBack(c: Billing.Counter, read: nat): Billing.Counter {
    if read == 0 then c else c.(used := read - 1)
  }

  function GiveBackOne(c: Billing.Counter): Billing.Counter {
    WrittenBack(c, c.used)
  }

  /** The two counter moves are the billing module's own, for one sitting. */
  lemma CounterMovesAreBillings(t: Billing.Table, org: nat, p: Billing.Period, cfg: Config)
    requires (org, p) in t
    ensures var c := t[(org, p)].sittings;
      && Billing.Consumed(t, org, p, Billing.Sittings, 1, cfg.limit, cfg.enforced)
         == (if MayClaim(cfg, c) then Billing.Write(t, org, p, Billing.Sittings, ClaimOne(cfg, c)) else t)
      && Billing.Released(t, org, p, Billing.Sittings, 1) == Billing.Write(t, org, p, Billing.Sittings, GiveBackOne(c))
  {
  }

  function Apply(cfg: Config, s: State, e: Event): State {
    match e
    case Look(key, consent) =>
      if key in s.attempts || !consent then s
      else s.(tasks := s.tasks[s.next := Checked(key)], next := s.next + 1)
    case Claim(t) =>
      if t !in s.tasks || !s.tasks[t].Checked? then s
      else if MayClaim(cfg, s.counter) then
        s.(counter := ClaimOne(cfg, s.counter), tasks := s.tasks[t := Claimed(s.tasks[t].key)])
      else s.(tasks := s.tasks - {t})
    case Insert(t, now) =>
      if t !in s.tasks || !s.tasks[t].Claimed? then s
      else
        var key := s.tasks[t].key;
        if key in s.attempts then s.(tasks := s.tasks[t := LostInsert(key)])
        else s.(attempts := s.attempts[key := now], created := s.created + {key}, tasks := s.tasks - {t})
    case ReadBack(t) =>
      if t !in s.tasks || !s.tasks[t].LostInsert? then s
      else s.(tasks := s.tasks[t := GivingBack(s.tasks[t].key, s.counter.used)])
    case WriteBack(t) =>
      if t !in s.tasks || !s.tasks[t].GivingBack? then s
      else s.(counter := WrittenBack(s.counter, s.tasks[t].read), tasks := s.tasks - {t})
  }

  function Run(cfg: Config, s: State, es: seq<Event>): State {
    if es == [] then s else Apply(cfg, Run(cfg, s, es[..|es| - 1]), es[|es| - 1])
  }

  /** Nothing is claimed for a candidate who has a sitting or has not consented. */
  lemma LooksBeforeClaiming(cfg: Config, s: State, key: Key, consent: bool)
    ensures Apply(cfg, s, Look(key, consent))
            == if key !in s.attempts && consent then s.(tasks := s.tasks[s.next := Checked(key)], next := s.next + 1) else s
  {
  }

  /** The insert that wins stores its own moment as the sitting's clock; one that loses stores
      nothing and will give its claim back. */
  lemma InsertStores(cfg: Config, s: State, t: nat, now: int)
    requires t in s.tasks && s.tasks[t].Claimed?
    ensures var key, s' := s.tasks[t].key, Apply(cfg, s, Insert(t, now));
      && s'.counter == s.counter
      && if key in s.attempts then s'.attempts == s.attempts && s'.created == s.created && s'.tasks == s.tasks[t := LostInsert(key)]
         else s'.attempts == s.attempts[key := now] && s'.created == s.created + {key} && s'.tasks == s.tasks - {t}
  {
  }

  /** How many steps a request has left at most. */
  function Left(phase: Phase): nat {
    match phase
    case Checked(_) => 4
    case Claimed(_) => 3
    case LostInsert(_) => 2
    case GivingBack(_, _) => 1
  }

  predicate IsNext(e: Event, phase: Phase) {
    match phase
    case Checked(_) => e.Claim?
    case Claimed(_) => e.Insert?
    case LostInsert(_) => e.ReadBack?
    case GivingBack(_, _) => e.WriteBack?
  }

  /** Every request is over after at most four steps of its own; only a claim that does not fit,
      an insert that wins and a write-back end one. */
  lemma EachStepAdvances(cfg: Config, s: State, e: Event, t: nat)
    requires t in s.tasks && !e.Look? && e.task == t && IsNext(e, s.tasks[t])
    ensures var before, s' := s.tasks[t], Apply(cfg, s, e);
      && Left(before) <= 4
      && (t in s'.tasks ==> s'.tasks[t].key == before.key && Left(s'.tasks[t]) < Left(before))
      && (t !in s'.tasks <==> (e.Claim? && !MayClaim(cfg, s.counter)) || (e.Insert? && before.key !in s.attempts) || e.WriteBack?)
  {
  }

  /** A month's first state: earlier sittings exist, nothing is in flight, nothing is used. */
  function MonthStart(attempts: map<Key, int>, carried: nat): State {
    State(attempts, {}, Billing.Counter(0, 0, carried), map[], 0)
  }

  /** Requests that hold a claim which is neither a sitting nor given back yet. */
  function InFlight(tasks: map<nat, Phase>): set<nat> {
    set t | t in tasks && !tasks[t].Checked?
  }

  ghost predicate Inv(cfg: Config, s: State) {
    && s.counter.used == |s.created| + |InFlight(s.tasks)|
    && s.created <= s.attempts.Keys
    && (forall t | t in s.tasks :: t < s.next)
    && (cfg.enforced ==> s.counter.used <= Billing.Allowance(cfg.limit, s.counter) && s.counter.over == 0)
  }

  lemma LookKeepsInv(cfg: Config, s: State, e: Event)
    requires Inv(cfg, s) && e.Look?
    ensures Inv(cfg, Apply(cfg, s, e))
  {
    assert s.next !in s.tasks;
    assert InFlight(Apply(cfg, s, e).tasks) == InFlight(s.tasks);
  }

  lemma ClaimKeepsInv(cfg: Config, s: State, t: nat)
    requires Inv(cfg, s) && t in s.tasks && s.tasks[t].Checked?
    ensures Inv(cfg, Apply(cfg, s, Claim(t)))
  {
    assert t !in InFlight(s.tasks);
    assert InFlight(s.tasks[t := Claimed(s.tasks[t].key)]) == InFlight(s.tasks) + {t};
    assert InFlight(s.tasks - {t}) == InFlight(s.tasks);
  }

  lemma InsertKeepsInv(cfg: Config, s: State, t: nat, now: int)
    requires Inv(cfg, s) && t in s.tasks && s.tasks[t].Claimed?
    ensures Inv(cfg, Apply(cfg, s, Insert(t, now)))
  {
    assert t in InFlight(s.tasks);
    assert InFlight(s.tasks[t := LostInsert(s.tasks[t].key)]) == InFlight(s.tasks);
    assert InFlight(s.tasks - {t}) == InFlight(s.tasks) - {t};
  }

  lemma ReadBackKeepsInv(cfg: Config, s: State, t: nat)
    requires Inv(cfg, s) && t in s.tasks && s.tasks[t].LostInsert?
    ensures Inv(cfg, Apply(cfg, s, ReadBack(t)))
  {
    assert InFlight(s.tasks[t := GivingBack(s.tasks[t].key, s.counter.used)]) == InFlight(s.tasks);
  }

  /** The write-back of a give-back. */
  predicate WritesBack(s: State, e: Event) {
    e.WriteBack? && e.task in s.tasks && s.tasks[e.task].GivingBack?
  }

  /** No counter move landed between this give-back's read and its write. */
  predicate FindsWhatItRead(s: State, e: Event) {
    WritesBack(s, e) ==> s.counter.used == s.tasks[e.task].read
  }

  ghost predicate Conserved(s: State) {
    s.counter.used == |s.created| + |InFlight(s.tasks)|
  }

  /** Exactly: a write-back conserves the count if and only if it finds the figure it read. */
  lemma WriteBackConservesExactly(cfg: Config, s: State, t: nat)
    requires Conserved(s) && WritesBack(s, WriteBack(t))
    ensures Conserved(Apply(cfg, s, WriteBack(t))) <==> s.counter.used == s.tasks[t].read
  {
    assert t in InFlight(s.tasks);
    assert InFlight(s.tasks - {t}) == InFlight(s.tasks) - {t};
  }

  lemma WriteBackKeepsInv(cfg: Config, s: State, t: nat)
    requires Inv(cfg, s) && WritesBack(s, WriteBack(t)) && FindsWhatItRead(s, WriteBack(t))
    ensures Inv(cfg, Apply(cfg, s, WriteBack(t)))
  {
    WriteBackConservesExactly(cfg, s, t);
  }

  lemma StepKeepsInv(cfg: Config, s: State, e: Event)
    requires Inv(cfg, s) && FindsWhatItRead(s, e)
    ensures Inv(cfg, Apply(cfg, s, e))
  {
    match e
    case Look(_, _) => LookKeepsInv(cfg, s, e);
    case Claim(t) => if t in s.tasks && s.tasks[t].Checked? { ClaimKeepsInv(cfg, s, t); }
    case Insert(t, now) => if t in s.tasks && s.tasks[t].Claimed? { InsertKeepsInv(cfg, s, t, now); }
    case ReadBack(t) => if t in s.tasks && s.tasks[t].LostInsert? { ReadBackKeepsInv(cfg, s, t); }
    case WriteBack(t) => if t in s.tasks && s.tasks[t].GivingBack? { WriteBackKeepsInv(cfg, s, t); }
  }

  /** Every write-back of the run finds the figure it read. */
  ghost predicate Undisturbed(cfg: Config, s: State, es: seq<Event>) {
    es == [] || (Undisturbed(cfg, s, es[..|es| - 1]) && FindsWhatItRead(Run(cfg, s, es[..|es| - 1]), es[|es| - 1]))
  }

  /** Conservation.  For every such interleaving of candidates starting, the month's counter
      is the sittings created plus the claims still in flight -- so a doubled Start, once its
      requests are over, has billed once -- and with enforcement on no more sittings are
      created than the allowance. */
  lemma {:induction false} SittingsAreBilledOnce(cfg: Config, attempts: map<Key, int>, carried: nat, es: seq<Event>)
    requires Undisturbed(cfg, MonthStart(attempts, carried), es)
    ensures var s := Run(cfg, MonthStart(attempts, carried), es);
      && Inv(cfg, s) && Conserved(s)
      && s.counter.carried == carried
      && (s.tasks == map[] ==> s.counter.used == |s.created|)
      && (cfg.enforced ==> |s.created| <= Max(0, cfg.limit - carried))
  {
    if es == [] {
      assert InFlight(MonthStart(attempts, carried).tasks) == {};
    } else {
      SittingsAreBilledOnce(cfg, attempts, carried, es[..|es| - 1]);
      StepKeepsInv(cfg, Run(cfg, MonthStart(attempts, carried), es[..|es| - 1]), es[|es| - 1]);
    }
  }

  lemma RunSnoc(cfg: Config, s: State, es: seq<Event>, e: Event)
    ensures Run(cfg, s, es + [e]) == Apply(cfg, Run(cfg, s, es), e)
  {
    assert (es + [e])[..|es|] == es;
  }

  const Metered := Config(10, false)
  const Fresh := MonthStart(map[], 0)
  const Ann: Key := (0, 0)
  const Bob: Key := (0, 1)

  /** Ann starts twice at once, and both requests claim. */
  lemma TwoClaims() returns (es: seq<Event>)
    ensures Run(Metered, Fresh, es) ==
            State(map[], {}, Billing.Counter(2, 0, 0), map[0 := Claimed(Ann), 1 := Claimed(Ann)], 2)
  {
    es := [];
    RunSnoc(Metered, Fresh, es, Look(Ann, true));
    es := es + [Look(Ann, true)];
    RunSnoc(Metered, Fresh, es, Look(Ann, true));
    es := es + [Look(Ann, true)];
    assert Run(Metered, Fresh, es) == State(map[], {}, Billing.Counter(0, 0, 0), map[0 := Checked(Ann), 1 := Checked(Ann)], 2);
    RunSnoc(Metered, Fresh, es, Claim(0));
    es := es + [Claim(0)];
    assert Run(Metered, Fresh, es) == State(map[], {}, Billing.Counter(1, 0, 0), map[0 := Claimed(Ann), 1 := Checked(Ann)], 2);
    RunSnoc(Metered, Fresh, es, Claim(1));
    es := es + [Claim(1)];
  }

  /** One insert lost, and its give-back has read the counter. */
  lemma DoubledStart() returns (es: seq<Event>)
    ensures Run(Metered, Fresh, es) ==
            State(map[Ann := 0], {Ann}, Billing.Counter(2, 0, 0), map[1 := GivingBack(Ann, 2)], 2)
  {
    es := TwoClaims();
    RunSnoc(Metered, Fresh, es, Insert(0, 0));
    es := es + [Insert(0, 0)];
    assert Run(Metered, Fresh, es) == State(map[Ann := 0], {Ann}, Billing.Counter(2, 0, 0), map[1 := Claimed(Ann)], 2);
    RunSnoc(Metered, Fresh, es, Insert(1, 0));
    es := es + [Insert(1, 0)];
    assert Run(Metered, Fresh, es) == State(map[Ann := 0], {Ann}, Billing.Counter(2, 0, 0), map[1 := LostInsert(Ann)], 2);
    RunSnoc(Metered, Fresh, es, ReadBack(1));
    es := es + [ReadBack(1)];
  }

  /** The run that under-bills: Bob claims between the give-back's read and its write, which
      erases his claim.  Two sittings exist, nothing is in flight, and one is counted. */
  lemma GiveBackErasesAClaim() returns (es: seq<Event>)
    ensures Run(Metered, Fresh, es) ==
            State(map[Ann := 0, Bob := 0], {Ann, Bob}, Billing.Counter(1, 0, 0), map[], 3)
  {
    es := DoubledStart();
    RunSnoc(Metered, Fresh, es, Look(Bob, true));
    es := es + [Look(Bob, true)];
    assert Run(Metered, Fresh, es).tasks == map[1 := GivingBack(Ann, 2), 2 := Checked(Bob)];
    RunSnoc(Metered, Fresh, es, Claim(2));
    es := es + [Claim(2)];
    assert Run(Metered, Fresh, es).tasks == map[1 := GivingBack(Ann, 2), 2 := Claimed(Bob)];
    assert Run(Metered, Fresh, es).counter == Billing.Counter(3, 0, 0);
    RunSnoc(Metered, Fresh, es, WriteBack(1));
    es := es + [WriteBack(1)];
    assert Run(Metered, Fresh, es).tasks == map[2 := Claimed(Bob)];
    RunSnoc(Metered, Fresh, es, Insert(2, 0));
    es := es + [Insert(2, 0)];
    assert Run(Metered, Fresh, es).tasks == map[] && Run(Metered, Fresh, es).attempts == map[Ann := 0, Bob := 0];
  }

  /** Once a sitting exists its clock start never moves, whatever starts race with it. */
  lemma {:induction false} ClockStartIsFrozen(cfg: Config, s: State, es: seq<Event>, key: Key)
    requires key in s.attempts
    ensures key in Run(cfg, s, es).attempts && Run(cfg, s, es).attempts[key] == s.attempts[key]
  {
    if es != [] { ClockStartIsFrozen(cfg, s, es[..|es| - 1], key); }
  }

  // ------------------------------------------------------------------------
  // The request, start to finish
  // ------------------------------------------------------------------------

  datatype Outcome = Sitting(startedAt: int) | ConsentNeeded | Unavailable

  class StartDesk {
    var attempts: map<Key, int>
    var counter: Billing.Counter

    constructor (attempts: map<Key, int>, counter: Billing.Counter)
      ensures this.attempts == attempts && this.counter == counter
    {
      this.attempts, this.counter := attempts, counter;
    }

    /** One request.  `rival` is a sibling request's row for the same candidate committing
        between this request's claim and its insert.  The caller always gets the stored
        clock start, and the sitting is counted only for the request that stored it.  An
        overrun the losing request recorded stays: the give-back does not undo it. */
    method GetOrStart(cfg: Config, key: Key, now: int, consent: bool, rival: Option<int>) returns (outcome: Outcome)
      modifies this
      ensures outcome.Sitting? ==> key in attempts && attempts[key] == outcome.startedAt
      ensures outcome.Sitting? <==> key in old(attempts) || (consent && MayClaim(cfg, old(counter)))
      ensures outcome.ConsentNeeded? <==> key !in old(attempts) && !consent
      ensures key in old(attempts) || !outcome.Sitting? ==> attempts == old(attempts) && counter == old(counter)
      ensures key !in old(attempts) && outcome.Sitting? ==>
                attempts == old(attempts)[key := if rival.Some? then rival.value else now]
                && counter.used == old(counter).used + (if rival.Some? then 0 else 1)
                && counter.carried == old(counter).carried
                && counter.over == old(counter).over
                     + (if cfg.enforced then 0
                        else Billing.Overrun(old(counter).used, 1, Billing.Allowance(cfg.limit, old(counter))))
    {
      if key in attempts { return Sitting(attempts[key]); }
      if !consent { return ConsentNeeded; }
      if !MayClaim(cfg, counter) { return Unavailable; }
      counter := ClaimOne(cfg, counter);
      if rival.Some? { attempts := attempts[key := rival.value]; }
      if key in attempts {
        counter := GiveBackOne(counter);
        return Sitting(attempts[key]);
      }
      attempts := attempts[key := now];
      return Sitting(now);
    }
  }
}
