/**
The shared fixed-window limiter of `assessment_platform/ratelimit.py`: counters in the
database, one row per client and window.  Every SQL statement of a check is a step of
its own, so the checks of any number of workers interleave.  The model follows one bucket,
with its own limit and window; times are whole seconds.
*/
module DbRateLimit {
  import opened Base

  type Client = nat

  /** A counter row's primary key: the client and the start of the window. */
  type Key = (Client, int)

  /** `max` requests per `window`, rows swept `grace` seconds after their window started. */
  datatype Config = Config(max: nat, window: nat, grace: nat)

  predicate Sane(cfg: Config) {
    1 <= cfg.max && 1 <= cfg.window <= cfg.grace
  }

  function WindowStart(now: nat, window: nat): nat
    requires window >= 1
  {
    now / window * window
  }

  /** The source writes it `now - now % window`. */
  lemma WindowStartIsRounding(now: nat, window: nat)
    requires window >= 1
    ensures WindowStart(now, window) == now - now % window
    ensures WindowStart(now, window) <= now < WindowStart(now, window) + window
  {
  }

  datatype Phase = Begun | Missed | Inserting | Retrying

  datatype Task = Task(client: Client, now: nat, phase: Phase)

  datatype Hit = Hit(client: Client, at: nat)

  /** `hits` is history: the accepted requests, at the time each check read. */
  datatype State = State(clock: nat, rows: map<Key, nat>, tasks: map<nat, Task>, next: nat, hits: seq<Hit>)

  datatype Event =
    | Advance(d: nat)
    | Begin(client: Client)
    | Sweep(task: nat)       // the DELETE of dead rows, when its transaction commits
    | Increment(task: nat)   // UPDATE ... WHERE count < max
    | Look(task: nat)        // SELECT count
    | Insert(task: nat)      // INSERT, or the duplicate-key error and its rollback
    | Fallback(task: nat)    // the same UPDATE after losing the insert

  const Empty := State(0, map[], map[], 0, [])

  function KeyOf(cfg: Config, t: Task): Key requires Sane(cfg) {
    (t.client, WindowStart(t.now, cfg.window))
  }

  function Accept(cfg: Config, s: State, t: nat, count: nat): State
    requires Sane(cfg) && t in s.tasks
  {
    s.(rows := s.rows[KeyOf(cfg, s.tasks[t]) := count], tasks := s.tasks - {t},
       hits := s.hits + [Hit(s.tasks[t].client, s.tasks[t].now)])
  }

  function Goto(s: State, t: nat, phase: Phase): State requires t in s.tasks {
    s.(tasks := s.tasks[t := s.tasks[t].(phase := phase)])
  }

  function Swept(rows: map<Key, nat>, before: int): map<Key, nat> {
    map k | k in rows && k.1 >= before :: rows[k]
  }

  function Apply(cfg: Config, s: State, e: Event): State requires Sane(cfg) {
    match e
    case Advance(d) => s.(clock := s.clock + d)
    case Begin(client) => s.(tasks := s.tasks[s.next := Task(client, s.clock, Begun)], next := s.next + 1)
    case _ => if e.task in s.tasks then Statement(cfg, s, e, e.task) else s
  }

  /** One SQL statement of the check `t`. */
  function Statement(cfg: Config, s: State, e: Event, t: nat): State
    requires Sane(cfg) && t in s.tasks
  {
    var task := s.tasks[t];
    var key := KeyOf(cfg, task);
    var below := key in s.rows && s.rows[key] < cfg.max;
    match (e, task.phase)
    case (Sweep(_), _) => s.(rows := Swept(s.rows, task.now - cfg.grace))
    case (Increment(_), Begun) => if below then Accept(cfg, s, t, s.rows[key] + 1) else Goto(s, t, Missed)
    case (Look(_), Missed) => if key in s.rows then s.(tasks := s.tasks - {t}) else Goto(s, t, Inserting)
    case (Insert(_), Inserting) => if key in s.rows then Goto(s, t, Retrying) else Accept(cfg, s, t, 1)
    case (Fallback(_), Retrying) => if below then Accept(cfg, s, t, s.rows[key] + 1) else s.(tasks := s.tasks - {t})
    case _ => s
  }

  function Run(cfg: Config, es: seq<Event>): State requires Sane(cfg) {
    if es == [] then Empty else Apply(cfg, Run(cfg, es[..|es| - 1]), es[|es| - 1])
  }

  lemma RunSnoc(cfg: Config, es: seq<Event>, e: Event)
    requires Sane(cfg)
    ensures Run(cfg, es + [e]) == Apply(cfg, Run(cfg, es), e)
  {
    assert (es + [e])[..|es|] == es;
  }

  /** No check outlives the grace less one window. */
  ghost predicate Prompt(cfg: Config, s: State, e: Event) {
    e.Advance? ==> forall t | t in s.tasks :: s.clock + e.d + cfg.window <= s.tasks[t].now + cfg.grace
  }

  ghost predicate PromptRun(cfg: Config, es: seq<Event>) requires Sane(cfg) {
    es == [] || (PromptRun(cfg, es[..|es| - 1]) && Prompt(cfg, Run(cfg, es[..|es| - 1]), es[|es| - 1]))
  }

  /** The accepted hits of one client that fall in one window. */
  function HitsIn(cfg: Config, hits: seq<Hit>, key: Key): nat requires Sane(cfg) {
    if hits == [] then 0
    else
      var last := hits[|hits| - 1];
      HitsIn(cfg, hits[..|hits| - 1], key) + if (last.client, WindowStart(last.at, cfg.window)) == key then 1 else 0
  }

  ghost predicate KeyOk(cfg: Config, s: State, key: Key) requires Sane(cfg) {
    && HitsIn(cfg, s.hits, key) <= cfg.max
    && (key in s.rows ==> s.rows[key] == HitsIn(cfg, s.hits, key) && s.rows[key] >= 1)
    && (key !in s.rows && key.1 + cfg.grace >= s.clock ==> HitsIn(cfg, s.hits, key) == 0)
  }

  ghost predicate Inv(cfg: Config, s: State) requires Sane(cfg) {
    && (forall key: Key :: KeyOk(cfg, s, key))
    && (forall t | t in s.tasks :: t < s.next && s.tasks[t].now <= s.clock && s.clock + cfg.window <= s.tasks[t].now + cfg.grace)
  }

  lemma HitsAppend(cfg: Config, hits: seq<Hit>, h: Hit, key: Key)
    requires Sane(cfg)
    ensures HitsIn(cfg, hits + [h], key)
            == HitsIn(cfg, hits, key) + if (h.client, WindowStart(h.at, cfg.window)) == key then 1 else 0
  {
    assert (hits + [h])[..|hits|] == hits;
  }

  /** Counting one more hit, from a counter that says what was accepted. */
  lemma AcceptKeepsInv(cfg: Config, s: State, t: nat, count: nat)
    requires Sane(cfg) && Inv(cfg, s) && t in s.tasks
    requires count == HitsIn(cfg, s.hits, KeyOf(cfg, s.tasks[t])) + 1 <= cfg.max
    ensures Inv(cfg, Accept(cfg, s, t, count))
  {
    var s' := Accept(cfg, s, t, count);
    forall key: Key ensures KeyOk(cfg, s', key) {
      assert KeyOk(cfg, s, key);
      HitsAppend(cfg, s.hits, Hit(s.tasks[t].client, s.tasks[t].now), key);
    }
  }

  /** The window a check works on is never among the rows the sweep took. */
  lemma OwnWindowIsLive(cfg: Config, s: State, t: nat)
    requires Sane(cfg) && Inv(cfg, s) && t in s.tasks
    ensures KeyOf(cfg, s.tasks[t]).1 + cfg.grace >= s.clock
  {
    WindowStartIsRounding(s.tasks[t].now, cfg.window);
  }

  lemma QuietStepKeepsInv(cfg: Config, s: State, s': State)
    requires Sane(cfg) && Inv(cfg, s) && s'.hits == s.hits && s'.rows == s.rows && s'.clock == s.clock
    requires forall t | t in s'.tasks :: t in s.tasks && s'.tasks[t].now == s.tasks[t].now
    requires s'.next == s.next
    ensures Inv(cfg, s')
  {
    forall key: Key ensures KeyOk(cfg, s', key) { assert KeyOk(cfg, s, key); }
  }

  lemma SweepKeepsInv(cfg: Config, s: State, t: nat)
    requires Sane(cfg) && Inv(cfg, s) && t in s.tasks
    ensures Inv(cfg, s.(rows := Swept(s.rows, s.tasks[t].now - cfg.grace)))
  {
    var s' := s.(rows := Swept(s.rows, s.tasks[t].now - cfg.grace));
    forall key: Key ensures KeyOk(cfg, s', key) { assert KeyOk(cfg, s, key); }
  }

  lemma TaskStepKeepsInv(cfg: Config, s: State, e: Event)
    requires Sane(cfg) && Inv(cfg, s) && !e.Advance? && !e.Begin? && e.task in s.tasks
    ensures Inv(cfg, Apply(cfg, s, e))
  {
    var t, task := e.task, s.tasks[e.task];
    var key := KeyOf(cfg, task);
    OwnWindowIsLive(cfg, s, t);
    assert KeyOk(cfg, s, key);
    if e.Sweep? {
      SweepKeepsInv(cfg, s, t);
    } else if Apply(cfg, s, e).hits != s.hits {
      AcceptKeepsInv(cfg, s, t, if key in s.rows then s.rows[key] + 1 else 1);
    } else {
      QuietStepKeepsInv(cfg, s, Apply(cfg, s, e));
    }
  }

  lemma StepKeepsInv(cfg: Config, s: State, e: Event)
    requires Sane(cfg) && Inv(cfg, s) && Prompt(cfg, s, e)
    ensures Inv(cfg, Apply(cfg, s, e))
  {
    var s' := Apply(cfg, s, e);
    if e.Advance? || e.Begin? {
      forall key: Key ensures KeyOk(cfg, s', key) { assert KeyOk(cfg, s, key); }
    } else if e.task in s.tasks {
      TaskStepKeepsInv(cfg, s, e);
    }
  }

  lemma {:induction false} RunKeepsInv(cfg: Config, es: seq<Event>)
    requires Sane(cfg) && PromptRun(cfg, es)
    ensures Inv(cfg, Run(cfg, es))
  {
    if es != [] {
      RunKeepsInv(cfg, es[..|es| - 1]);
      StepKeepsInv(cfg, Run(cfg, es[..|es| - 1]), es[|es| - 1]);
    }
  }

  // ------------------------------------------------------------------------
  // Theorems
  // ------------------------------------------------------------------------

  /** For every statement-level interleaving -- missed increments, lost insert races,
      fallback increments, sweeps -- a live window's counter is exactly the hits accepted
      in it, and no window ever accepts more than `max`. */
  lemma CounterEqualsAcceptedHits(cfg: Config, es: seq<Event>, key: Key)
    requires Sane(cfg) && PromptRun(cfg, es)
    ensures var s := Run(cfg, es);
      && HitsIn(cfg, s.hits, key) <= cfg.max
      && (key.1 + cfg.grace >= s.clock ==>
            HitsIn(cfg, s.hits, key) == if key in s.rows then s.rows[key] else 0)
  {
    RunKeepsInv(cfg, es);
    assert KeyOk(cfg, Run(cfg, es), key);
  }

  /** A sweep leaves the window of the present moment alone, and the window of every
      check in flight, as long as a window is no longer than the grace. */
  lemma SweepSparesLiveWindows(cfg: Config, es: seq<Event>, t: nat, u: nat, client: Client)
    requires Sane(cfg) && PromptRun(cfg, es) && t in Run(cfg, es).tasks && u in Run(cfg, es).tasks
    ensures var s := Run(cfg, es);
      var swept := Apply(cfg, s, Sweep(t)).rows;
      var present := (client, WindowStart(s.clock, cfg.window));
      && (present in s.rows ==> present in swept && swept[present] == s.rows[present])
      && (KeyOf(cfg, s.tasks[u]) in s.rows ==> KeyOf(cfg, s.tasks[u]) in swept)
  {
    RunKeepsInv(cfg, es);
    var s := Run(cfg, es);
    WindowStartIsRounding(s.clock, cfg.window);
    OwnWindowIsLive(cfg, s, u);
  }

  /** The accepted hits of a client at times in [from, from + window). */
  function CountIn(hits: seq<Hit>, client: Client, from: nat, window: nat): nat {
    if hits == [] then 0
    else
      var last := hits[|hits| - 1];
      CountIn(hits[..|hits| - 1], client, from, window)
      + if last.client == client && from <= last.at < from + window then 1 else 0
  }

  lemma TwoWindowsCover(at: nat, from: nat, window: nat)
    requires window >= 1 && from <= at < from + window
    ensures WindowStart(at, window) == WindowStart(from, window) || WindowStart(at, window) == WindowStart(from, window) + window
  {
    WindowStartIsRounding(from, window);
    WindowStartIsRounding(at, window);
    NeighbouringMultiples(from / window, at / window, window, from, at);
  }

  lemma NeighbouringMultiples(q: nat, r: nat, w: nat, from: nat, at: nat)
    requires q * w <= from < q * w + w && r * w <= at < r * w + w && from <= at < from + w
    ensures r == q || (r == q + 1 && r * w == q * w + w)
  {
    if r < q {
      MulKeepsOrder(w, r + 1, q);
      assert false;
    } else if r > q + 1 {
      MulKeepsOrder(w, q + 2, r);
      assert false;
    }
  }

  lemma {:induction false} IntervalMeetsTwoWindows(cfg: Config, hits: seq<Hit>, client: Client, from: nat)
    requires Sane(cfg)
    ensures var start := WindowStart(from, cfg.window);
      CountIn(hits, client, from, cfg.window)
      <= HitsIn(cfg, hits, (client, start)) + HitsIn(cfg, hits, (client, start + cfg.window))
  {
    if hits != [] {
      IntervalMeetsTwoWindows(cfg, hits[..|hits| - 1], client, from);
      var last := hits[|hits| - 1];
      if from <= last.at < from + cfg.window { TwoWindowsCover(last.at, from, cfg.window); }
    }
  }

  /** Fixed windows bound any sliding interval of the same length by twice the limit. */
  lemma AtMostTwiceMaxInAnyInterval(cfg: Config, es: seq<Event>, client: Client, from: nat)
    requires Sane(cfg) && PromptRun(cfg, es)
    ensures CountIn(Run(cfg, es).hits, client, from, cfg.window) <= 2 * cfg.max
  {
    var start := WindowStart(from, cfg.window);
    IntervalMeetsTwoWindows(cfg, Run(cfg, es).hits, client, from);
    CounterEqualsAcceptedHits(cfg, es, (client, start));
    CounterEqualsAcceptedHits(cfg, es, (client, start + cfg.window));
  }

  /** Neither count leaves anything out: it is the number of places in the history. */
  lemma {:induction false} CountInCounts(hits: seq<Hit>, client: Client, from: nat, window: nat)
    ensures CountIn(hits, client, from, window)
            == |set k | 0 <= k < |hits| && hits[k].client == client && from <= hits[k].at && hits[k].at - from < window|
  {
    if hits != [] {
      var init, n := hits[..|hits| - 1], |hits| - 1;
      CountInCounts(init, client, from, window);
      var places := set k | 0 <= k < |init| && init[k].client == client && from <= init[k].at && init[k].at - from < window;
      var all := set k | 0 <= k < |hits| && hits[k].client == client && from <= hits[k].at && hits[k].at - from < window;
      if hits[n].client == client && from <= hits[n].at && hits[n].at - from < window {
        assert all == places + {n};
      } else {
        assert all == places;
      }
    }
  }

  // ------------------------------------------------------------------------
  // How a check ends
  // ------------------------------------------------------------------------

  /** Exactly three statements accept a request, each on what it finds at that moment: the
      increment and its repeat while the counter is below the limit, and the insert while there
      is none.  Exactly two refuse one: the look that finds a counter, and the repeat that still
      cannot increment. */
  lemma WaysACheckEnds(cfg: Config, s: State, e: Event)
    requires Sane(cfg) && !e.Advance? && !e.Begin? && e.task in s.tasks
    ensures var t, phase, key, s' := e.task, s.tasks[e.task].phase, KeyOf(cfg, s.tasks[e.task]), Apply(cfg, s, e);
      var below, none := key in s.rows && s.rows[key] < cfg.max, key !in s.rows;
      var accepts := (e.Increment? && phase.Begun? && below) || (e.Insert? && phase.Inserting? && none)
                     || (e.Fallback? && phase.Retrying? && below);
      var refuses := (e.Look? && phase.Missed? && !none) || (e.Fallback? && phase.Retrying? && !below);
      && (accepts ==> s'.rows == s.rows[key := if none then 1 else s.rows[key] + 1]
                      && s'.hits == s.hits + [Hit(s.tasks[t].client, s.tasks[t].now)])
      && (!accepts ==> s'.hits == s.hits && (!e.Sweep? ==> s'.rows == s.rows))
      && (t !in s'.tasks <==> accepts || refuses)
      && (forall u | u != t :: (u in s'.tasks <==> u in s.tasks) && (u in s.tasks ==> s'.tasks[u] == s.tasks[u]))
  {
  }

  /** Time passes by its own event only, and a check keeps the moment it began at. */
  lemma TimePasses(cfg: Config, s: State, e: Event)
    requires Sane(cfg)
    ensures Apply(cfg, s, e).clock == if e.Advance? then s.clock + e.d else s.clock
    ensures e.Begin? ==> Apply(cfg, s, e).tasks == s.tasks[s.next := Task(e.client, s.clock, Begun)]
  {
  }

  /** How many statements a check has left at most. */
  function Left(phase: Phase): nat {
    match phase
    case Begun => 4
    case Missed => 3
    case Inserting => 2
    case Retrying => 1
  }

  /** The statement this check is at. */
  predicate IsNext(e: Event, phase: Phase) {
    match phase
    case Begun => e.Increment?
    case Missed => e.Look?
    case Inserting => e.Insert?
    case Retrying => e.Fallback?
  }

  /** Every check is over after at most four statements of its own, whatever its siblings do. */
  lemma EachStatementAdvances(cfg: Config, s: State, e: Event, t: nat)
    requires Sane(cfg) && t in s.tasks && t < s.next && t in Apply(cfg, s, e).tasks
    ensures var before, after := s.tasks[t], Apply(cfg, s, e).tasks[t];
      && after.client == before.client && after.now == before.now && Left(before.phase) <= 4
      && if !e.Advance? && !e.Begin? && e.task == t && IsNext(e, before.phase) then Left(after.phase) < Left(before.phase)
         else after.phase == before.phase
  {
  }

  // ------------------------------------------------------------------------
  // One check on its own
  // ------------------------------------------------------------------------

  /** With nobody in between, a check's statements sweep the dead rows and then refuse exactly at
      the limit, count one up below it, or store the window's first. */
  lemma LoneCheck(s: State, client: Client, max: nat, window: nat, grace: nat)
    requires 1 <= max && 1 <= window <= grace && s.next !in s.tasks
    ensures var cfg, t := Config(max, window, grace), s.next;
      var s5 := Apply(cfg, Apply(cfg, Apply(cfg, Apply(cfg, Apply(cfg, s, Begin(client)), Sweep(t)), Increment(t)), Look(t)), Insert(t));
      var kept := map k | k in s.rows && s.clock - k.1 <= grace :: s.rows[k];
      var key: Key := (client, s.clock - s.clock % window);
      && s5.tasks == s.tasks && s5.next == t + 1 && s5.clock == s.clock
      && if key in kept && kept[key] >= max then s5.rows == kept && s5.hits == s.hits
         else s5.rows == kept[key := if key in kept then kept[key] + 1 else 1] && s5.hits == s.hits + [Hit(client, s.clock)]
  {
    var cfg, t := Config(max, window, grace), s.next;
    WindowStartIsRounding(s.clock, window);
    var begun := Apply(cfg, s, Begin(client));
    var swept := Apply(cfg, begun, Sweep(t));
    var kept := map k | k in s.rows && s.clock - k.1 <= grace :: s.rows[k];
    assert swept == begun.(rows := kept);
    LoneStatements(cfg, swept, t);
    assert swept.tasks - {t} == s.tasks;
  }

  lemma LoneStatements(cfg: Config, s: State, t: nat)
    requires Sane(cfg) && t in s.tasks && s.tasks[t].phase.Begun?
    ensures var s' := Apply(cfg, Apply(cfg, Apply(cfg, s, Increment(t)), Look(t)), Insert(t));
      var key := KeyOf(cfg, s.tasks[t]);
      s' == if key in s.rows && s.rows[key] >= cfg.max then s.(tasks := s.tasks - {t})
            else Accept(cfg, s, t, if key in s.rows then s.rows[key] + 1 else 1)
  {
    var key := KeyOf(cfg, s.tasks[t]);
    if !(key in s.rows && s.rows[key] < cfg.max) {
      var missed := Apply(cfg, s, Increment(t));
      assert missed == Goto(s, t, Missed) && missed.tasks - {t} == s.tasks - {t};
      if key !in s.rows {
        var inserting := Apply(cfg, missed, Look(t));
        assert inserting == Goto(missed, t, Inserting) && inserting.tasks - {t} == s.tasks - {t};
      }
    }
  }

  class CounterTable {
    var rows: map<Key, nat>

    constructor ()
      ensures rows == map[]
    {
      rows := map[];
    }

    /** `DbRateLimiter.check` with no sibling worker: dead rows are swept either way; a
        request is refused exactly when the window's counter is at the limit, and then
        the counter stays as it was. */
    method Check(client: Client, max: int, window: nat, grace: nat, now: nat) returns (allowed: bool)
      requires 1 <= window
      modifies this
      ensures var key: Key := (client, now - now % window);
        var kept := map k | k in old(rows) && now - k.1 <= grace :: old(rows)[k];
        && (allowed <==> max <= 0 || key !in kept || kept[key] < max)
        && rows == (if max <= 0 then old(rows)
                    else if !allowed then kept
                    else if key in kept then kept[key := kept[key] + 1]
                    else kept[key := 1])
    {
      if max <= 0 { return true; }
      WindowStartIsRounding(now, window);
      var key: Key := (client, WindowStart(now, window));
      rows := Swept(rows, now - grace);
      if key in rows && rows[key] < max {
        rows := rows[key := rows[key] + 1];
        return true;
      }
      if key in rows { return false; }
      rows := rows[key := 1];
      return true;
    }
  }
}
