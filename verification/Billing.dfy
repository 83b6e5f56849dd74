/**
Metered allowances: `assessment_platform/billing.py`.

A usage row per organisation and calendar month counts what was used, what went past
the allowance at the time, and what the month before carried over.  An enforced claim is
one conditional UPDATE; an unenforced one reads the counter, then the month it files under,
and then adds; a release reads the counter and writes an absolute figure.  Other claims,
releases and the turn of the month may come between any two of these.
*/
module Billing {
  import opened Base

  type OrgId = nat

  // ------------------------------------------------------------------------
  // Plans
  // ------------------------------------------------------------------------

  datatype Metric = Sittings | Drafts

  datatype Plan = Plan(sittings: nat, drafts: nat, seats: nat)

  const Free := Plan(10, 5, 2)
  const Plans: map<string, Plan> := map["free" := Free, "starter" := Plan(100, 50, 5), "growth" := Plan(500, 250, 20)]
  const EntitledStatuses: set<string> := {"active", "trialing", "past_due"}

  function PlanFor(plan: string, status: string): Plan {
    if status !in EntitledStatuses then Free
    else if plan in Plans then Plans[plan]
    else Free
  }

  function Limit(plan: Plan, m: Metric): nat {
    match m case Sittings => plan.sittings case Drafts => plan.drafts
  }

  /** A lapsed or misnamed subscription never enlarges an allowance: what an organisation
      gets is at most what the plan it names gives, and at least the free plan. */
  lemma FallbackNeverEnlarges(plan: string, status: string, m: Metric)
    ensures Limit(Free, m) <= Limit(PlanFor(plan, status), m)
    ensures plan in Plans ==> Limit(PlanFor(plan, status), m) <= Limit(Plans[plan], m)
    ensures plan !in Plans || status !in EntitledStatuses ==> PlanFor(plan, status) == Free
  {
    assert forall p | p in Plans :: p == "free" || p == "starter" || p == "growth";
  }

  /** What each subscription buys, in numbers: the paid plans only while the subscription is
      active, in trial or past due. */
  lemma PlansInNumbers(plan: string, status: string)
    ensures var paid := status == "active" || status == "trialing" || status == "past_due";
      PlanFor(plan, status) == if paid && plan == "starter" then Plan(100, 50, 5)
                               else if paid && plan == "growth" then Plan(500, 250, 20)
                               else Plan(10, 5, 2)
    ensures Limit(PlanFor(plan, status), Sittings) == PlanFor(plan, status).sittings
    ensures Limit(PlanFor(plan, status), Drafts) == PlanFor(plan, status).drafts
  {
  }

  // ------------------------------------------------------------------------
  // Months
  // ------------------------------------------------------------------------

  datatype Period = Period(year: int, month: int)

  predicate IsMonth(p: Period) {
    1 <= p.month <= 12
  }

  /** Months since year 0: the calendar the periods must agree with. */
  function MonthIndex(p: Period): int {
    12 * p.year + p.month - 1
  }

  function Previous(p: Period): (q: Period)
    ensures IsMonth(p) ==> IsMonth(q) && MonthIndex(q) == MonthIndex(p) - 1
  {
    if p.month == 1 then Period(p.year - 1, 12) else Period(p.year, p.month - 1)
  }

  function Next(p: Period): (q: Period)
    ensures IsMonth(p) ==> IsMonth(q) && MonthIndex(q) == MonthIndex(p) + 1
  {
    if p.month == 12 then Period(p.year + 1, 1) else Period(p.year, p.month + 1)
  }

  lemma NextIsTheOneAfter(p: Period, q: Period)
    requires IsMonth(p) && IsMonth(q)
    ensures Previous(q) == p <==> q == Next(p)
  {
  }

  // ------------------------------------------------------------------------
  // Usage rows
  // ------------------------------------------------------------------------

  datatype Counter = Counter(used: nat, over: nat, carried: nat)

  datatype Row = Row(sittings: Counter, drafts: Counter)

  type Table = map<(OrgId, Period), Row>

  function Get(row: Row, m: Metric): Counter {
    match m case Sittings => row.sittings case Drafts => row.drafts
  }

  function Set(row: Row, m: Metric, c: Counter): (r: Row)
    ensures Get(r, m) == c
    ensures forall k | k != m :: Get(r, k) == Get(row, k)
  {
    match m case Sittings => row.(sittings := c) case Drafts => row.(drafts := c)
  }

  function OverOf(t: Table, org: OrgId, p: Period, m: Metric): nat {
    if (org, p) in t then Get(t[(org, p)], m).over else 0
  }

  function UsedOf(t: Table, org: OrgId, p: Period, m: Metric): nat {
    if (org, p) in t then Get(t[(org, p)], m).used else 0
  }

  /** A month's row before anything is metered, settled with the previous month. */
  function SettledRow(t: Table, org: OrgId, p: Period): Row {
    Row(Counter(0, 0, OverOf(t, org, Previous(p), Sittings)), Counter(0, 0, OverOf(t, org, Previous(p), Drafts)))
  }

  /** What a reader is shown: the stored row, or a transient settled one. */
  function Usage(t: Table, org: OrgId, p: Period): Row {
    if (org, p) in t then t[(org, p)] else SettledRow(t, org, p)
  }

  function Ensured(t: Table, org: OrgId, p: Period): Table {
    if (org, p) in t then t else t[(org, p) := SettledRow(t, org, p)]
  }

  function Allowance(limit: nat, c: Counter): nat {
    Max(0, limit - c.carried)
  }

  /** The part of an unenforced claim of `n` that goes past the allowance, as judged
      against the `read` figure. */
  function Overrun(read: nat, n: nat, allowance: nat): nat {
    Min(n, Max(0, read + n - allowance))
  }

  function Write(t: Table, org: OrgId, p: Period, m: Metric, c: Counter): Table
    requires (org, p) in t
  {
    t[(org, p) := Set(t[(org, p)], m, c)]
  }

  predicate Fits(t: Table, org: OrgId, p: Period, m: Metric, n: int, limit: nat) {
    var c := Get(Usage(t, org, p), m);
    c.used + n <= Allowance(limit, c)
  }

  function Consumed(t: Table, org: OrgId, p: Period, m: Metric, n: int, limit: nat, enforced: bool): Table {
    if n <= 0 then t
    else
      var t1 := Ensured(t, org, p);
      var c := Get(t1[(org, p)], m);
      if !enforced then
        Write(t1, org, p, m, c.(used := c.used + n, over := c.over + Overrun(c.used, n, Allowance(limit, c))))
      else if c.used + n <= Allowance(limit, c) then Write(t1, org, p, m, c.(used := c.used + n))
      else t1
  }

  function Released(t: Table, org: OrgId, p: Period, m: Metric, n: nat): Table {
    if (org, p) !in t then t
    else
      var c := Get(t[(org, p)], m);
      Write(t, org, p, m, c.(used := Max(0, c.used - n)))
  }

  // ------------------------------------------------------------------------
  // The table as the routes change it
  // ------------------------------------------------------------------------

  datatype Claim = Granted | QuotaError(limit: nat)

  class UsageTable {
    var rows: Table

    constructor ()
      ensures rows == map[]
    {
      rows := map[];
    }

    /** Afterwards the month has a row; a new one starts at nothing, settled with what the
        month before recorded going over, so no reader sees a difference. */
    method EnsureRow(org: OrgId, p: Period)
      modifies this
      ensures rows.Keys == old(rows).Keys + {(org, p)} && forall k | k in old(rows) :: rows[k] == old(rows)[k]
      ensures (org, p) !in old(rows) ==>
                forall m: Metric :: Get(rows[(org, p)], m) == Counter(0, 0, OverOf(old(rows), org, Previous(p), m))
      ensures Usage(rows, org, p) == Usage(old(rows), org, p)
    {
      if (org, p) !in rows {
        rows := rows[(org, p) := SettledRow(rows, org, p)];
      }
    }

    /** `consume`: granted exactly when enforcement is off or the claim fits what a reader
        was shown, that is when use, claim and carried debt stay within the limit; a refusal
        names the limit less the debt and moves no counter.  Unenforced, the part of the claim
        past that point is written down. */
    method Consume(org: OrgId, p: Period, m: Metric, n: int, limit: nat, enforced: bool) returns (claim: Claim)
      modifies this
      ensures rows == Consumed(old(rows), org, p, m, n, limit, enforced)
      ensures claim.Granted? <==> n <= 0 || !enforced || Fits(old(rows), org, p, m, n, limit)
      ensures claim.QuotaError? ==> claim.limit == Allowance(limit, Get(Usage(old(rows), org, p), m))
      ensures claim.QuotaError? ==> Usage(rows, org, p) == Usage(old(rows), org, p)
      ensures var shown := Get(Usage(old(rows), org, p), m);
        && (n > 0 && enforced ==> (claim.Granted? <==> shown.used + n + shown.carried <= limit))
        && (claim.QuotaError? ==> claim.limit == if shown.carried < limit then limit - shown.carried else 0)
      ensures n > 0 && claim.Granted? ==>
                && (org, p) in rows
                && var shown, now := Get(Usage(old(rows), org, p), m), Get(rows[(org, p)], m);
                && now.used == shown.used + n && now.carried == shown.carried
                && now.over - shown.over == (if enforced || shown.used + n + shown.carried <= limit then 0
                                             else if shown.used + shown.carried >= limit then n
                                             else shown.used + n + shown.carried - limit)
      ensures forall k | k in old(rows) && k != (org, p) :: k in rows && rows[k] == old(rows)[k]
      ensures forall k: Metric | k != m :: Get(Usage(rows, org, p), k) == Get(Usage(old(rows), org, p), k)
    {
      if n <= 0 { return Granted; }
      EnsureRow(org, p);
      assert rows == Ensured(old(rows), org, p);
      var c := Get(rows[(org, p)], m);
      var allowance := Allowance(limit, c);
      if !enforced {
        rows := Write(rows, org, p, m, c.(used := c.used + n, over := c.over + Overrun(c.used, n, allowance)));
        return Granted;
      }
      if c.used + n <= allowance {
        rows := Write(rows, org, p, m, c.(used := c.used + n));
        return Granted;
      }
      return QuotaError(allowance);
    }

    /** Gives back the claim, or everything when less is in use; never below zero, never
        another counter, the recorded overrun or another row, and never a new row. */
    method Release(org: OrgId, p: Period, m: Metric, n: nat)
      modifies this
      ensures rows.Keys == old(rows).Keys && forall k | k in rows && k != (org, p) :: rows[k] == old(rows)[k]
      ensures (org, p) in rows ==>
                && (forall k: Metric | k != m :: Get(rows[(org, p)], k) == Get(old(rows)[(org, p)], k))
                && Get(rows[(org, p)], m) == Get(old(rows)[(org, p)], m).(used := UsedOf(rows, org, p, m))
      ensures var before, after := UsedOf(old(rows), org, p, m), UsedOf(rows, org, p, m);
        before - after == n || (after == 0 && before < n)
      ensures rows == Released(old(rows), org, p, m, n)
    {
      if (org, p) in rows {
        var c := Get(rows[(org, p)], m);
        rows := Write(rows, org, p, m, c.(used := Max(0, c.used - n)));
      }
    }
  }

  // ------------------------------------------------------------------------
  // Runs
  // ------------------------------------------------------------------------

  /** An unenforced claim between its read and its add: the figure and the allowance it saw,
      and the month it will be filed under once that is read. */
  datatype Reading = Reading(org: OrgId, m: Metric, n: nat, read: nat, allowance: nat, filed: Option<Period>)

  /** A release between its read and its write. */
  datatype Returning = Returning(org: OrgId, p: Period, m: Metric, n: nat, read: nat)

  datatype State = State(rows: Table, now: Period, claims: map<nat, Reading>, givingBack: map<nat, Returning>)

  /** A plan may change between claims: each carries the limit in force. */
  datatype Event =
    | MonthBecomes(p: Period)
    | Consume(org: OrgId, m: Metric, n: int, limit: nat)            // enforced
    | Read(task: nat, org: OrgId, m: Metric, n: int, limit: nat)    // unenforced: usage and allowance
    | File(task: nat)                                               // its month
    | Add(task: nat)                                                // its increments
    | ReadBack(task: nat, org: OrgId, m: Metric, n': nat)           // release: SELECT
    | WriteBack(task: nat)                                          // release: UPDATE
    | RecordCost(org: OrgId)

  /** The row the reader saw, or one settled for it. */
  function DoRead(s: State, t: nat, org: OrgId, m: Metric, n: nat, limit: nat): State {
    var rows := Ensured(s.rows, org, s.now);
    var c := Get(rows[(org, s.now)], m);
    s.(rows := rows, claims := s.claims[t := Reading(org, m, n, c.used, Allowance(limit, c), None)])
  }

  function OverrunOf(r: Reading): nat {
    Overrun(r.read, r.n, r.allowance)
  }

  /** The increments of `record`, on whatever the counters are by now. */
  function Bumped(t: Table, p: Period, r: Reading): Table {
    var t1 := Ensured(t, r.org, p);
    Write(t1, r.org, p, r.m, Bump(Get(t1[(r.org, p)], r.m), r))
  }

  function Bump(c: Counter, r: Reading): Counter {
    c.(used := c.used + r.n, over := c.over + OverrunOf(r))
  }

  /** An absolute figure, written only when it differs from the one read. */
  function WrittenBack(c: Counter, r: Returning): Counter {
    if Max(0, r.read - r.n) == r.read then c else c.(used := Max(0, r.read - r.n))
  }

  function Returned(t: Table, r: Returning): Table {
    if (r.org, r.p) !in t then t else Write(t, r.org, r.p, r.m, WrittenBack(Get(t[(r.org, r.p)], r.m), r))
  }

  function DoAdd(s: State, t: nat): State requires t in s.claims && s.claims[t].filed.Some? {
    s.(rows := Bumped(s.rows, s.claims[t].filed.value, s.claims[t]), claims := s.claims - {t})
  }

  function DoReadBack(s: State, t: nat, org: OrgId, m: Metric, n: nat): State {
    if t in s.givingBack || (org, s.now) !in s.rows then s
    else s.(givingBack := s.givingBack[t := Returning(org, s.now, m, n, Get(s.rows[(org, s.now)], m).used)])
  }

  /** The clock is non-decreasing. */
  function Apply(s: State, e: Event): State {
    match e
    case MonthBecomes(p) => if IsMonth(p) && MonthIndex(s.now) <= MonthIndex(p) then s.(now := p) else s
    case Consume(org, m, n, limit) => s.(rows := Consumed(s.rows, org, s.now, m, n, limit, true))
    case Read(t, org, m, n, limit) => if t in s.claims || n <= 0 then s else DoRead(s, t, org, m, n, limit)
    case File(t) =>
      if t in s.claims && s.claims[t].filed.None? then s.(claims := s.claims[t := s.claims[t].(filed := Some(s.now))]) else s
    case Add(t) => if t in s.claims && s.claims[t].filed.Some? then DoAdd(s, t) else s
    case ReadBack(t, org, m, n) => DoReadBack(s, t, org, m, n)
    case WriteBack(t) =>
      if t in s.givingBack then s.(rows := Returned(s.rows, s.givingBack[t]), givingBack := s.givingBack - {t}) else s
    case RecordCost(org) => s.(rows := Ensured(s.rows, org, s.now))
  }

  function Run(s: State, es: seq<Event>): State {
    if es == [] then s else Apply(Run(s, es[..|es| - 1]), es[|es| - 1])
  }

  function Start(p: Period): State {
    State(map[], p, map[], map[])
  }

  /** Every step of the run satisfies `ok`. */
  ghost predicate Along(s: State, es: seq<Event>, ok: (State, Event) -> bool) {
    es == [] || (Along(s, es[..|es| - 1], ok) && ok(Run(s, es[..|es| - 1]), es[|es| - 1]))
  }

  /** With nothing in between, the three steps are the unenforced claim of `consume`. */
  lemma ReadThenAddIsConsume(s: State, t: nat, org: OrgId, m: Metric, n: nat, limit: nat)
    requires t !in s.claims && n > 0
    ensures Apply(Apply(Apply(s, Read(t, org, m, n, limit)), File(t)), Add(t))
            == s.(rows := Consumed(s.rows, org, s.now, m, n, limit, false))
  {
    var s1 := Apply(s, Read(t, org, m, n, limit));
    assert s1.claims[t := s1.claims[t].(filed := Some(s.now))] - {t} == s.claims;
  }

  /** And a release's two are `release`. */
  lemma ReadThenWriteBackIsRelease(s: State, t: nat, org: OrgId, m: Metric, n: nat)
    requires t !in s.givingBack
    ensures Apply(Apply(s, ReadBack(t, org, m, n)), WriteBack(t)) == s.(rows := Released(s.rows, org, s.now, m, n))
  {
    if (org, s.now) in s.rows {
      var c := Get(s.rows[(org, s.now)], m);
      assert s.givingBack[t := Returning(org, s.now, m, n, c.used)] - {t} == s.givingBack;
    }
  }

  /** A release writes what it read less what it gives back, floored at zero, and leaves the
      counter alone when that is the figure it read -- whatever the counter is by then. */
  lemma WriteBackIsAbsolute(s: State, t: nat)
    requires t in s.givingBack
    ensures var r, s' := s.givingBack[t], Apply(s, WriteBack(t));
      UsedOf(s'.rows, r.org, r.p, r.m) == if (r.org, r.p) !in s.rows then 0
                                          else if r.n == 0 || r.read == 0 then UsedOf(s.rows, r.org, r.p, r.m)
                                          else if r.read <= r.n then 0 else r.read - r.n
  {
  }

  /** The month a claim is filed under is read once and never again. */
  lemma FiledOnce(s: State, e: Event, t: nat)
    requires t in s.claims && s.claims[t].filed.Some? && t in Apply(s, e).claims
    ensures Apply(s, e).claims[t] == s.claims[t]
  {
  }

  // ------------------------------------------------------------------------
  // Settling one month with the next
  // ------------------------------------------------------------------------

  ghost predicate Settled(s: State) {
    && IsMonth(s.now)
    && forall k | k in s.rows ::
         && IsMonth(k.1) && MonthIndex(k.1) <= MonthIndex(s.now)
         && forall m: Metric :: Get(s.rows[k], m).carried == OverOf(s.rows, k.0, Previous(k.1), m)
  }

  /** No claim is filed under a month to come. */
  ghost predicate FiledInTime(s: State) {
    && IsMonth(s.now)
    && forall t | t in s.claims && s.claims[t].filed.Some? ::
         IsMonth(s.claims[t].filed.value) && MonthIndex(s.claims[t].filed.value) <= MonthIndex(s.now)
  }

  /** The step is the add of a filed claim. */
  predicate Adds(s: State, e: Event) {
    e.Add? && e.task in s.claims && s.claims[e.task].filed.Some?
  }

  /** An overrun filed under a month that the next one has already been settled with. */
  predicate LateAdd(s: State, e: Event) {
    && Adds(s, e) && OverrunOf(s.claims[e.task]) > 0
    && (s.claims[e.task].org, Next(s.claims[e.task].filed.value)) in s.rows
  }

  lemma StepKeepsFiled(s: State, e: Event)
    requires FiledInTime(s)
    ensures FiledInTime(Apply(s, e))
  {
  }

  /** What a step does to the rows: none is lost, a new one is settled, a carried figure stays. */
  lemma CarriedStep(s: State, e: Event, k: (OrgId, Period), m: Metric)
    requires FiledInTime(s) && k in Apply(s, e).rows
    ensures k !in s.rows ==> IsMonth(k.1) && MonthIndex(k.1) <= MonthIndex(s.now)
    ensures Get(Apply(s, e).rows[k], m).carried ==
            if k in s.rows then Get(s.rows[k], m).carried else OverOf(s.rows, k.0, Previous(k.1), m)
  {
  }

  lemma RowsStay(s: State, e: Event, k: (OrgId, Period))
    requires k in s.rows
    ensures k in Apply(s, e).rows
  {
  }

  /** Only an add moves a recorded overrun, and only in the month it is filed under. */
  lemma OverStep(s: State, e: Event, org: OrgId, p: Period, m: Metric)
    ensures OverOf(Apply(s, e).rows, org, p, m) == OverOf(s.rows, org, p, m)
            + if Adds(s, e) && s.claims[e.task].org == org && s.claims[e.task].filed == Some(p) && s.claims[e.task].m == m
              then OverrunOf(s.claims[e.task]) else 0
  {
  }

  lemma TimelyStepKeepsSettled(s: State, e: Event)
    requires Settled(s) && FiledInTime(s) && !LateAdd(s, e)
    ensures Settled(Apply(s, e))
  {
    var t' := Apply(s, e).rows;
    forall k, m: Metric | k in t'
      ensures IsMonth(k.1) && MonthIndex(k.1) <= MonthIndex(Apply(s, e).now)
      ensures Get(t'[k], m).carried == OverOf(t', k.0, Previous(k.1), m)
    {
      CarriedStep(s, e, k, m);
      OverStep(s, e, k.0, Previous(k.1), m);
      if Adds(s, e) { AddTouchesOneMonth(s, e, k); }
    }
  }

  lemma AddTouchesOneMonth(s: State, e: Event, k: (OrgId, Period))
    requires FiledInTime(s) && Adds(s, e) && k in Apply(s, e).rows && IsMonth(k.1)
    ensures k in s.rows || k == (s.claims[e.task].org, s.claims[e.task].filed.value)
    ensures Previous(k.1) == s.claims[e.task].filed.value <==> k.1 == Next(s.claims[e.task].filed.value)
  {
    NextIsTheOneAfter(s.claims[e.task].filed.value, k.1);
  }

  /** The condition is exact: a step breaks the settlement if and only if it is a late add. */
  lemma SettledExactlyUntilALateAdd(s: State, e: Event)
    requires Settled(s) && FiledInTime(s)
    ensures Settled(Apply(s, e)) <==> !LateAdd(s, e)
  {
    if LateAdd(s, e) {
      var r := s.claims[e.task];
      var k := (r.org, Next(r.filed.value));
      RowsStay(s, e, k);
      CarriedStep(s, e, k, r.m);
      OverStep(s, e, r.org, r.filed.value, r.m);
      NextIsTheOneAfter(r.filed.value, k.1);
      assert Get(s.rows[k], r.m).carried == OverOf(s.rows, k.0, Previous(k.1), r.m);
      assert Get(Apply(s, e).rows[k], r.m).carried != OverOf(Apply(s, e).rows, k.0, Previous(k.1), r.m);
    } else {
      TimelyStepKeepsSettled(s, e);
    }
  }

  ghost function Timely(): (State, Event) -> bool {
    (s: State, e: Event) => !LateAdd(s, e)
  }

  /** With a non-decreasing clock and no late add, in every reachable state every stored row
      carries exactly what the calendar month before it recorded going over. */
  lemma {:induction false} CarriedIsPreviousOver(p: Period, es: seq<Event>)
    requires IsMonth(p) && Along(Start(p), es, Timely())
    ensures Settled(Run(Start(p), es)) && FiledInTime(Run(Start(p), es))
  {
    if es != [] {
      CarriedIsPreviousOver(p, es[..|es| - 1]);
      StepKeepsFiled(Run(Start(p), es[..|es| - 1]), es[|es| - 1]);
      TimelyStepKeepsSettled(Run(Start(p), es[..|es| - 1]), es[|es| - 1]);
    }
  }

  /** The run: a claim past an allowance of nothing is filed under January, February is
      settled, and then the claim is added.  February carries no debt. */
  lemma LateAddLeavesADebtBehind()
    ensures var jan, feb := Period(2026, 1), Period(2026, 2);
      var s := Run(Start(jan), [Read(0, 0, Sittings, 1, 0), File(0), MonthBecomes(feb), RecordCost(0), Add(0)]);
      OverOf(s.rows, 0, jan, Sittings) == 1 && (0, feb) in s.rows && s.rows[(0, feb)].sittings.carried == 0 && !Settled(s)
  {
    var jan, feb := Period(2026, 1), Period(2026, 2);
    var s4 := FebruarySettled();
    var es := [Read(0, 0, Sittings, 1, 0), File(0), MonthBecomes(feb), RecordCost(0)];
    RunSnoc(Start(jan), es, Add(0));
    assert es + [Add(0)] == [Read(0, 0, Sittings, 1, 0), File(0), MonthBecomes(feb), RecordCost(0), Add(0)];
    assert LateAdd(s4, Add(0));
    OverStep(s4, Add(0), 0, jan, Sittings);
    CarriedStep(s4, Add(0), (0, feb), Sittings);
    RowsStay(s4, Add(0), (0, feb));
    assert Previous(feb) == jan;
    assert Get(Apply(s4, Add(0)).rows[(0, feb)], Sittings).carried == 0;
  }

  lemma FebruarySettled() returns (s: State)
    ensures s == Run(Start(Period(2026, 1)),
                     [Read(0, 0, Sittings, 1, 0), File(0), MonthBecomes(Period(2026, 2)), RecordCost(0)])
    ensures FiledInTime(s) && s.claims == map[0 := Reading(0, Sittings, 1, 0, 0, Some(Period(2026, 1)))]
    ensures (0, Period(2026, 2)) in s.rows && s.rows[(0, Period(2026, 2))].sittings.carried == 0
    ensures OverOf(s.rows, 0, Period(2026, 1), Sittings) == 0
  {
    var jan, feb := Period(2026, 1), Period(2026, 2);
    var first: seq<Event> := [Read(0, 0, Sittings, 1, 0)];
    RunSnoc(Start(jan), [], Read(0, 0, Sittings, 1, 0));
    assert [] + [Read(0, 0, Sittings, 1, 0)] == first;
    assert Run(Start(jan), first).rows == map[(0, jan) := Row(Counter(0, 0, 0), Counter(0, 0, 0))];
    RunSnoc(Start(jan), first, File(0));
    assert first + [File(0)] == [Read(0, 0, Sittings, 1, 0), File(0)];
    assert Run(Start(jan), first + [File(0)]).claims == map[0 := Reading(0, Sittings, 1, 0, 0, Some(jan))];
    RunSnoc(Start(jan), first + [File(0)], MonthBecomes(feb));
    assert first + [File(0)] + [MonthBecomes(feb)] == [Read(0, 0, Sittings, 1, 0), File(0), MonthBecomes(feb)];
    RunSnoc(Start(jan), first + [File(0)] + [MonthBecomes(feb)], RecordCost(0));
    assert first + [File(0)] + [MonthBecomes(feb)] + [RecordCost(0)]
      == [Read(0, 0, Sittings, 1, 0), File(0), MonthBecomes(feb), RecordCost(0)];
    s := Run(Start(jan), [Read(0, 0, Sittings, 1, 0), File(0), MonthBecomes(feb), RecordCost(0)]);
  }

  /** An overrun filed under last month while this one has no row yet. */
  predicate MovesShown(s: State, e: Event, org: OrgId, m: Metric) {
    && Adds(s, e) && s.claims[e.task].org == org && s.claims[e.task].m == m && OverrunOf(s.claims[e.task]) > 0
    && s.claims[e.task].filed == Some(Previous(s.now)) && (org, s.now) !in s.rows
  }

  /** Within a month, the carried figure a reader is shown moves exactly then. */
  lemma ShownMovesExactlyWhen(s: State, e: Event, org: OrgId, m: Metric)
    requires FiledInTime(s) && !e.MonthBecomes?
    ensures Get(Usage(Apply(s, e).rows, org, s.now), m).carried == Get(Usage(s.rows, org, s.now), m).carried
            <==> !MovesShown(s, e, org, m)
  {
    var t' := Apply(s, e).rows;
    OverStep(s, e, org, Previous(s.now), m);
    if (org, s.now) in s.rows { RowsStay(s, e, (org, s.now)); }
    if (org, s.now) in t' { CarriedStep(s, e, (org, s.now), m); }
    if Adds(s, e) && (org, s.now) in t' { AddTouchesOneMonth(s, e, (org, s.now)); }
    assert Previous(s.now) != s.now;
  }

  ghost function Steady(org: OrgId, m: Metric): (State, Event) -> bool {
    (s: State, e: Event) => !e.MonthBecomes? && !MovesShown(s, e, org, m)
  }

  /** The allowance a reader is shown on the first of the month -- from a transient row,
      before anything is stored -- is the one every later claim of that month enforces. */
  lemma {:induction false} ShownAllowanceHoldsAllMonth(s: State, es: seq<Event>, org: OrgId, m: Metric, limit: nat)
    requires FiledInTime(s) && Along(s, es, Steady(org, m))
    ensures Run(s, es).now == s.now && FiledInTime(Run(s, es))
    ensures Allowance(limit, Get(Usage(Run(s, es).rows, org, s.now), m)) == Allowance(limit, Get(Usage(s.rows, org, s.now), m))
  {
    if es != [] {
      var init := es[..|es| - 1];
      ShownAllowanceHoldsAllMonth(s, init, org, m, limit);
      StepKeepsFiled(Run(s, init), es[|es| - 1]);
      ShownMovesExactlyWhen(Run(s, init), es[|es| - 1], org, m);
    }
  }

  // ------------------------------------------------------------------------
  // The account of one organisation and metric on a fixed plan
  // ------------------------------------------------------------------------

  /** The claims and reads of this account were made on this plan. */
  predicate OnPlan(e: Event, org: OrgId, m: Metric, limit: nat) {
    e.Consume? && e.org == org && e.m == m ==> e.limit == limit
  }

  /** The step adds a claim to this account. */
  predicate AddsTo(s: State, e: Event, org: OrgId, m: Metric) {
    Adds(s, e) && s.claims[e.task].org == org && s.claims[e.task].m == m
  }

  /** The account as the add will find it, in the month it is filed under. */
  function Found(s: State, r: Reading): Counter requires r.filed.Some? {
    Get(Usage(s.rows, r.org, r.filed.value), r.m)
  }

  /** The step writes back a release on this account. */
  predicate ReturnsTo(s: State, e: Event, org: OrgId, m: Metric) {
    e.WriteBack? && e.task in s.givingBack && s.givingBack[e.task].org == org && s.givingBack[e.task].m == m
  }

  /** The allowance was the plan's for that month, and the figure read is not too low to
      judge the overrun by: past the allowance, within what is in use less what is already
      written off, or of no consequence. */
  predicate JudgesFairly(r: Reading, c: Counter, limit: nat) {
    && r.allowance == Allowance(limit, c)
    && (r.allowance <= r.read || c.used <= r.read + c.over || c.used + r.n <= r.allowance + c.over)
  }

  /** As before, and not too high either: the same side of the allowance, or current. */
  predicate JudgesExactly(r: Reading, c: Counter, limit: nat) {
    && r.allowance == Allowance(limit, c)
    && (r.read == c.used || r.allowance <= Min(r.read, c.used) || Max(r.read, c.used) + r.n <= r.allowance)
  }

  ghost function Accounted(org: OrgId, m: Metric, limit: nat): (State, Event) -> bool {
    (s: State, e: Event) =>
      OnPlan(e, org, m, limit)
      && (AddsTo(s, e, org, m) ==> JudgesFairly(s.claims[e.task], Found(s, s.claims[e.task]), limit))
  }

  /** Metering alone: no enforced claim and no release on this account. */
  ghost function Metered(org: OrgId, m: Metric, limit: nat): (State, Event) -> bool {
    (s: State, e: Event) =>
      && !(e.Consume? && e.org == org && e.m == m) && !ReturnsTo(s, e, org, m)
      && (AddsTo(s, e, org, m) ==> JudgesExactly(s.claims[e.task], Found(s, s.claims[e.task]), limit))
  }

  /** What happens on another account is no condition on this one. */
  lemma OtherAccountsAreFree(s: State, e: Event, org: OrgId, m: Metric, limit: nat)
    requires e.Consume? && (e.org != org || e.m != m)
    ensures Accounted(org, m, limit)(s, e) && Metered(org, m, limit)(s, e)
  {
    assert OnPlan(e, org, m, limit);
    assert !AddsTo(s, e, org, m) && !ReturnsTo(s, e, org, m);
  }

  predicate CounterBounded(c: Counter, limit: nat) {
    c.used <= Allowance(limit, c) + c.over
  }

  predicate CounterExact(c: Counter, limit: nat) {
    c.over == Max(0, c.used - Allowance(limit, c))
  }

  ghost predicate Bounded(t: Table, org: OrgId, m: Metric, limit: nat) {
    forall p | (org, p) in t :: CounterBounded(Get(t[(org, p)], m), limit)
  }

  ghost predicate Exact(t: Table, org: OrgId, m: Metric, limit: nat) {
    forall p | (org, p) in t :: CounterExact(Get(t[(org, p)], m), limit)
  }

  /** Exactly when an add keeps the account: nothing used beyond the allowance goes unrecorded. */
  lemma BoundedExactlyWhenFair(c: Counter, r: Reading, limit: nat)
    requires CounterBounded(c, limit) && r.allowance == Allowance(limit, c)
    ensures CounterBounded(Bump(c, r), limit) <==> JudgesFairly(r, c, limit)
  {
  }

  /** And exactly when it keeps the recorded overrun equal to the excess. */
  lemma ExactExactlyWhen(c: Counter, r: Reading, limit: nat)
    requires CounterExact(c, limit) && r.allowance == Allowance(limit, c) && r.n > 0
    ensures CounterExact(Bump(c, r), limit) <==> JudgesExactly(r, c, limit)
  {
  }

  /** How one step changes one counter of a stored row. */
  lemma CounterStep(s: State, e: Event, org: OrgId, m: Metric, p: Period)
    requires (org, p) in Apply(s, e).rows
    ensures var c := Get(Usage(s.rows, org, p), m);
      var c' := Get(Apply(s, e).rows[(org, p)], m);
      || c' == c
      || (AddsTo(s, e, org, m) && s.claims[e.task].filed == Some(p) && c' == Bump(c, s.claims[e.task]))
      || (e.Consume? && e.org == org && e.m == m && e.n > 0 && c.used + e.n <= Allowance(e.limit, c)
          && c' == c.(used := c.used + e.n))
      || (ReturnsTo(s, e, org, m) && s.givingBack[e.task].p == p && c' == WrittenBack(c, s.givingBack[e.task]))
  {
  }

  /** No release will write back more than the account can bear. */
  ghost predicate ReturnsBounded(s: State, org: OrgId, m: Metric, limit: nat) {
    forall t | t in s.givingBack && s.givingBack[t].org == org && s.givingBack[t].m == m :: ReturnBounded(s, s.givingBack[t], limit)
  }

  predicate ReturnBounded(s: State, r: Returning, limit: nat) {
    (r.org, r.p) in s.rows
    && var c := Get(s.rows[(r.org, r.p)], r.m); r.read <= Allowance(limit, c) + c.over
  }

  lemma ReturnStaysBounded(s: State, e: Event, r: Returning, limit: nat)
    requires ReturnBounded(s, r, limit)
    ensures ReturnBounded(Apply(s, e), r, limit)
  {
    RowsStay(s, e, (r.org, r.p));
    CounterStep(s, e, r.org, r.m, r.p);
  }

  lemma StepKeepsReturnsBounded(s: State, e: Event, org: OrgId, m: Metric, limit: nat)
    requires Bounded(s.rows, org, m, limit) && ReturnsBounded(s, org, m, limit)
    ensures ReturnsBounded(Apply(s, e), org, m, limit)
  {
    var s' := Apply(s, e);
    forall t | t in s'.givingBack && s'.givingBack[t].org == org && s'.givingBack[t].m == m
      ensures ReturnBounded(s', s'.givingBack[t], limit)
    {
      if t in s.givingBack && s.givingBack[t] == s'.givingBack[t] { ReturnStaysBounded(s, e, s.givingBack[t], limit); }
    }
  }

  lemma StepKeepsBounded(s: State, e: Event, org: OrgId, m: Metric, limit: nat)
    requires Accounted(org, m, limit)(s, e) && Bounded(s.rows, org, m, limit) && ReturnsBounded(s, org, m, limit)
    ensures Bounded(Apply(s, e).rows, org, m, limit)
  {
    forall p | (org, p) in Apply(s, e).rows ensures CounterBounded(Get(Apply(s, e).rows[(org, p)], m), limit) {
      CounterStep(s, e, org, m, p);
      if AddsTo(s, e, org, m) { BoundedExactlyWhenFair(Found(s, s.claims[e.task]), s.claims[e.task], limit); }
      if ReturnsTo(s, e, org, m) { assert ReturnBounded(s, s.givingBack[e.task], limit); }
    }
  }

  lemma StepKeepsExact(s: State, e: Event, org: OrgId, m: Metric, limit: nat)
    requires Metered(org, m, limit)(s, e) && Exact(s.rows, org, m, limit) && ReadsCount(s)
    ensures Exact(Apply(s, e).rows, org, m, limit)
  {
    forall p | (org, p) in Apply(s, e).rows ensures CounterExact(Get(Apply(s, e).rows[(org, p)], m), limit) {
      CounterStep(s, e, org, m, p);
      if AddsTo(s, e, org, m) { ExactExactlyWhen(Found(s, s.claims[e.task]), s.claims[e.task], limit); }
    }
  }

  /** A claim of nothing is not metered. */
  ghost predicate ReadsCount(s: State) {
    forall t | t in s.claims :: s.claims[t].n > 0
  }

  lemma StepKeepsReadsCount(s: State, e: Event)
    requires ReadsCount(s)
    ensures ReadsCount(Apply(s, e))
  {
  }

  lemma {:induction false} RunReadsCount(p: Period, es: seq<Event>)
    ensures ReadsCount(Run(Start(p), es))
  {
    if es != [] {
      RunReadsCount(p, es[..|es| - 1]);
      StepKeepsReadsCount(Run(Start(p), es[..|es| - 1]), es[|es| - 1]);
    }
  }

  /** Any interleaving of enforced claims, the steps of unenforced claims and of releases, and
      month turns: as long as each add judges fairly, use never exceeds the allowance by more
      than was written down as over. */
  lemma {:induction false} UseIsAccountedFor(p: Period, es: seq<Event>, org: OrgId, m: Metric, limit: nat)
    requires Along(Start(p), es, Accounted(org, m, limit))
    ensures Bounded(Run(Start(p), es).rows, org, m, limit) && ReturnsBounded(Run(Start(p), es), org, m, limit)
  {
    if es != [] {
      UseIsAccountedFor(p, es[..|es| - 1], org, m, limit);
      StepKeepsReturnsBounded(Run(Start(p), es[..|es| - 1]), es[|es| - 1], org, m, limit);
      StepKeepsBounded(Run(Start(p), es[..|es| - 1]), es[|es| - 1], org, m, limit);
    }
  }

  /** With metering alone, the figure written down is exactly the excess. */
  lemma {:induction false} OverIsTheExcess(p: Period, es: seq<Event>, org: OrgId, m: Metric, limit: nat)
    requires Along(Start(p), es, Metered(org, m, limit))
    ensures Exact(Run(Start(p), es).rows, org, m, limit)
  {
    if es != [] {
      OverIsTheExcess(p, es[..|es| - 1], org, m, limit);
      RunReadsCount(p, es[..|es| - 1]);
      StepKeepsExact(Run(Start(p), es[..|es| - 1]), es[|es| - 1], org, m, limit);
    }
  }

  /** The condition is exact at every step: from an account in order, an add judged on its
      month's allowance leaves it in order if and only if it judges fairly. */
  lemma AddKeepsAccountExactlyWhenFair(s: State, t: nat, limit: nat)
    requires t in s.claims && s.claims[t].filed.Some? && s.claims[t].allowance == Allowance(limit, Found(s, s.claims[t]))
    requires Bounded(s.rows, s.claims[t].org, s.claims[t].m, limit)
    ensures Bounded(Apply(s, Add(t)).rows, s.claims[t].org, s.claims[t].m, limit)
            <==> JudgesFairly(s.claims[t], Found(s, s.claims[t]), limit)
  {
    var r := s.claims[t];
    var after := Apply(s, Add(t)).rows;
    BoundedExactlyWhenFair(Found(s, r), r, limit);
    assert Get(after[(r.org, r.filed.value)], r.m) == Bump(Found(s, r), r);
    if JudgesFairly(r, Found(s, r), limit) {
      forall p | (r.org, p) in after ensures CounterBounded(Get(after[(r.org, p)], r.m), limit) {
        CounterStep(s, Add(t), r.org, r.m, p);
      }
    }
  }

  /** The run that loses one: two candidates start on an allowance of one, both claims read
      the counter before either adds to it, and the second sitting is recorded as within it. */
  lemma RacingClaimsLoseAnOverrun(p: Period)
    ensures var s := Run(Start(p), [Read(0, 0, Sittings, 1, 1), Read(1, 0, Sittings, 1, 1), File(0), Add(0), File(1), Add(1)]);
      && s.rows == map[(0, p) := Row(Counter(2, 0, 0), Counter(0, 0, 0))]
      && !Bounded(s.rows, 0, Sittings, 1)
  {
    var es := [Read(0, 0, Sittings, 1, 1), Read(1, 0, Sittings, 1, 1)];
    var s2 := BothRead(p);
    RunSnoc(Start(p), es, File(0));
    RunSnoc(Start(p), es + [File(0)], Add(0));
    RunSnoc(Start(p), es + [File(0)] + [Add(0)], File(1));
    RunSnoc(Start(p), es + [File(0)] + [Add(0)] + [File(1)], Add(1));
    assert es + [File(0)] + [Add(0)] + [File(1)] + [Add(1)]
      == [Read(0, 0, Sittings, 1, 1), Read(1, 0, Sittings, 1, 1), File(0), Add(0), File(1), Add(1)];
    var s4 := FiledThenAdded(s2, p, 0, 0);
    var s6 := FiledThenAdded(s4, p, 1, 1);
    assert !CounterBounded(Get(s6.rows[(0, p)], Sittings), 1);
  }

  lemma FiledThenAdded(s: State, p: Period, t: nat, used: nat) returns (s': State)
    requires s.now == p && s.rows == map[(0, p) := Row(Counter(used, 0, 0), Counter(0, 0, 0))]
    requires t in s.claims && s.claims[t] == Reading(0, Sittings, 1, 0, 1, None)
    ensures s' == Apply(Apply(s, File(t)), Add(t))
    ensures s'.now == p && s'.rows == map[(0, p) := Row(Counter(used + 1, 0, 0), Counter(0, 0, 0))] && s'.claims == s.claims - {t}
  {
    s' := Apply(Apply(s, File(t)), Add(t));
  }

  lemma BothRead(p: Period) returns (s: State)
    ensures s == Run(Start(p), [Read(0, 0, Sittings, 1, 1), Read(1, 0, Sittings, 1, 1)])
    ensures s.now == p && s.rows == map[(0, p) := Row(Counter(0, 0, 0), Counter(0, 0, 0))]
    ensures s.claims == map[0 := Reading(0, Sittings, 1, 0, 1, None), 1 := Reading(0, Sittings, 1, 0, 1, None)]
  {
    RunSnoc(Start(p), [], Read(0, 0, Sittings, 1, 1));
    RunSnoc(Start(p), [Read(0, 0, Sittings, 1, 1)], Read(1, 0, Sittings, 1, 1));
    assert [] + [Read(0, 0, Sittings, 1, 1)] == [Read(0, 0, Sittings, 1, 1)];
    s := Run(Start(p), [Read(0, 0, Sittings, 1, 1), Read(1, 0, Sittings, 1, 1)]);
    assert [Read(0, 0, Sittings, 1, 1)] + [Read(1, 0, Sittings, 1, 1)]
      == [Read(0, 0, Sittings, 1, 1), Read(1, 0, Sittings, 1, 1)];
  }

  lemma RunSnoc(s: State, es: seq<Event>, e: Event)
    ensures Run(s, es + [e]) == Apply(Run(s, es), e)
  {
    assert (es + [e])[..|es|] == es;
  }

  /** Giving a granted claim back undoes it, up to the settled row, exactly when enforcement is
      on or the claim recorded no overrun: `release` leaves `over` as it is. */
  lemma ReleaseUndoesClaimExactlyWhen(t: Table, org: OrgId, p: Period, m: Metric, n: nat, limit: nat, enforced: bool)
    requires n > 0 && (enforced ==> Fits(t, org, p, m, n, limit))
    ensures Released(Consumed(t, org, p, m, n, limit, enforced), org, p, m, n) == Ensured(t, org, p)
            <==> enforced || Fits(t, org, p, m, n, limit)
  {
    var t1 := Ensured(t, org, p);
    var c := Get(t1[(org, p)], m);
    var t2 := Released(Consumed(t, org, p, m, n, limit, enforced), org, p, m, n);
    assert t2.Keys == t1.Keys && forall k | k in t1 && k != (org, p) :: t2[k] == t1[k];
    assert Get(t2[(org, p)], m) == if enforced then c else c.(over := c.over + Overrun(c.used, n, Allowance(limit, c)));
    assert t2[(org, p)] == t1[(org, p)] <==> Get(t2[(org, p)], m) == c;
  }

  /** Use over `k` consecutive months ending with `last`. */
  function TotalUse(t: Table, org: OrgId, m: Metric, last: Period, k: nat): nat
    decreases k
  {
    if k == 0 then 0 else UsedOf(t, org, last, m) + TotalUse(t, org, m, Previous(last), k - 1)
  }

  /** Debts larger than a whole month's limit lose the excess. */
  function Forgiven(t: Table, org: OrgId, m: Metric, limit: nat, last: Period, k: nat): nat
    decreases k
  {
    if k == 0 then 0
    else Max(0, OverOf(t, org, Previous(last), m) - limit) + Forgiven(t, org, m, limit, Previous(last), k - 1)
  }

  lemma {:induction false} TotalUseBound(s: State, org: OrgId, m: Metric, limit: nat, last: Period, k: nat)
    requires Settled(s) && Bounded(s.rows, org, m, limit) && IsMonth(last)
    ensures TotalUse(s.rows, org, m, last, k)
            <= k * limit + OverOf(s.rows, org, last, m) + Forgiven(s.rows, org, m, limit, last, k)
    decreases k
  {
    if k > 0 {
      TotalUseBound(s, org, m, limit, Previous(last), k - 1);
      assert k * limit == (k - 1) * limit + limit;
    }
  }

  /** Overruns are settled, not lost: over any consecutive months of any such run on a fixed
      plan, total use is at most the limits, plus what the last month still owes, plus
      the debts that exceeded a month's limit and were forgiven. */
  lemma DebtIsSettled(p: Period, es: seq<Event>, org: OrgId, m: Metric, limit: nat, last: Period, k: nat)
    requires IsMonth(p) && IsMonth(last) && Along(Start(p), es, Accounted(org, m, limit)) && Along(Start(p), es, Timely())
    ensures var t := Run(Start(p), es).rows;
      TotalUse(t, org, m, last, k) <= k * limit + OverOf(t, org, last, m) + Forgiven(t, org, m, limit, last, k)
  {
    CarriedIsPreviousOver(p, es);
    UseIsAccountedFor(p, es, org, m, limit);
    TotalUseBound(Run(Start(p), es), org, m, limit, last, k);
  }

  // What the allowances of those months left unused, and the month before them.

  function Unused(t: Table, org: OrgId, m: Metric, limit: nat, p: Period): nat {
    var shown := Get(Usage(t, org, p), m);
    Max(0, limit - shown.carried - shown.used)
  }

  function TotalUnused(t: Table, org: OrgId, m: Metric, limit: nat, last: Period, k: nat): nat
    decreases k
  {
    if k == 0 then 0 else Unused(t, org, m, limit, last) + TotalUnused(t, org, m, limit, Previous(last), k - 1)
  }

  function Back(p: Period, k: nat): (q: Period)
    ensures IsMonth(p) ==> IsMonth(q) && MonthIndex(q) == MonthIndex(p) - k
    decreases k
  {
    if k == 0 then p else Back(Previous(p), k - 1)
  }

  lemma MonthBalances(s: State, org: OrgId, m: Metric, limit: nat, p: Period)
    requires Settled(s) && Exact(s.rows, org, m, limit) && IsMonth(p)
    ensures UsedOf(s.rows, org, p, m) + Unused(s.rows, org, m, limit, p) + OverOf(s.rows, org, Previous(p), m)
            == limit + OverOf(s.rows, org, p, m) + Max(0, OverOf(s.rows, org, Previous(p), m) - limit)
  {
    assert Get(Usage(s.rows, org, p), m).carried == OverOf(s.rows, org, Previous(p), m);
    if (org, p) in s.rows { assert CounterExact(Get(s.rows[(org, p)], m), limit); }
  }

  lemma {:induction false} MonthsBalance(s: State, org: OrgId, m: Metric, limit: nat, last: Period, k: nat)
    requires Settled(s) && Exact(s.rows, org, m, limit) && IsMonth(last)
    ensures TotalUse(s.rows, org, m, last, k) + TotalUnused(s.rows, org, m, limit, last, k) + OverOf(s.rows, org, Back(last, k), m)
            == k * limit + OverOf(s.rows, org, last, m) + Forgiven(s.rows, org, m, limit, last, k)
    decreases k
  {
    if k > 0 {
      MonthsBalance(s, org, m, limit, Previous(last), k - 1);
      assert k * limit == (k - 1) * limit + limit;
      MonthBalances(s, org, m, limit, last);
    }
  }

  /** Metering alone, the books balance to the unit: over any consecutive months, what was used,
      what was left unused and the debt the first month began with are together the limits, the
      debt the last month leaves and what was forgiven on the way. */
  lemma DebtIsConserved(p: Period, es: seq<Event>, org: OrgId, m: Metric, limit: nat, last: Period, k: nat)
    requires IsMonth(p) && IsMonth(last) && Along(Start(p), es, Metered(org, m, limit)) && Along(Start(p), es, Timely())
    ensures var t := Run(Start(p), es).rows;
      TotalUse(t, org, m, last, k) + TotalUnused(t, org, m, limit, last, k) + OverOf(t, org, Back(last, k), m)
      == k * limit + OverOf(t, org, last, m) + Forgiven(t, org, m, limit, last, k)
  {
    CarriedIsPreviousOver(p, es);
    OverIsTheExcess(p, es, org, m, limit);
    MonthsBalance(Run(Start(p), es), org, m, limit, last, k);
  }

  /** The other direction: as long as no add lands late, an enforced claim is refused if and
      only if this month's use, the claim and what last month went over by exceed the limit
      together; granted, it is counted once. */
  lemma RefusedExactlyWhenSpent(p: Period, es: seq<Event>, org: OrgId, m: Metric, n: nat, limit: nat)
    requires IsMonth(p) && Along(Start(p), es, Timely()) && n > 0
    ensures var s := Run(Start(p), es);
      var used, debt := UsedOf(s.rows, org, s.now, m), OverOf(s.rows, org, Previous(s.now), m);
      UsedOf(Run(Start(p), es + [Consume(org, m, n, limit)]).rows, org, s.now, m)
      == if used + n + debt <= limit then used + n else used
  {
    var s := Run(Start(p), es);
    CarriedIsPreviousOver(p, es);
    RunSnoc(Start(p), es, Consume(org, m, n, limit));
    assert Get(Usage(s.rows, org, s.now), m).carried == OverOf(s.rows, org, Previous(s.now), m);
  }
}
