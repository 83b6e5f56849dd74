/**
One sitting, one tab: the lease in `web/src/sittingLock.ts`.

A claim in shared storage, refreshed on a heartbeat, without compare-and-swap.  The
clock is shared and non-decreasing; times are milliseconds.
*/
module SittingLock {
  import opened Base

  type Tab = nat

  const StaleMs := 7_000

  datatype Claim = Claim(tab: Tab, at: int)

  predicate IsStale(c: Claim, now: int) {
    now - c.at > StaleMs || now < c.at
  }

  /** A fresh claim of another tab: the one thing that refuses a claim. */
  predicate Blocked(store: Option<Claim>, tab: Tab, now: int) {
    store.Some? && store.value.tab != tab && !IsStale(store.value, now)
  }

  function Claimed(store: Option<Claim>, tab: Tab, now: int): Option<Claim> {
    if Blocked(store, tab, now) then store else Some(Claim(tab, now))
  }

  function Released(store: Option<Claim>, tab: Tab): Option<Claim> {
    if store.Some? && store.value.tab == tab then None else store
  }

  /** The storage item as one tab's code changes it. */
  class LockStorage {
    var item: Option<Claim>

    constructor ()
      ensures item == None
    {
      item := None;
    }

    method TryClaim(tab: Tab, now: int) returns (held: bool)
      modifies this
      ensures held <==> !(old(item).Some? && old(item).value.tab != tab
                          && old(item).value.at <= now && now - old(item).value.at <= 7_000)
      ensures item == if held then Some(Claim(tab, now)) else old(item)
    {
      if item.Some? && item.value.tab != tab && !IsStale(item.value, now) { return false; }
      item := Some(Claim(tab, now));
      held := item.None? || item.value.tab == tab;
    }

    /** The item goes exactly when it is the tab's own; a claim of another tab is untouched. */
    method Release(tab: Tab)
      modifies this
      ensures item.None? <==> old(item).None? || old(item).value.tab == tab
      ensures item.Some? ==> item == old(item) && item.value.tab != tab
    {
      if item.Some? && item.value.tab == tab { item := None; }
    }
  }

  // ------------------------------------------------------------------------
  // Atomic claims
  // ------------------------------------------------------------------------

  /** `won` maps each tab that believes it holds the sitting to the time of the claim it
      last won: a failed claim or a release takes it off. */
  datatype State = State(clock: int, store: Option<Claim>, won: map<Tab, int>)

  datatype Event = Advance(d: nat) | Beat(tab: Tab) | Leave(tab: Tab)

  function Apply(s: State, e: Event): State {
    match e
    case Advance(d) => s.(clock := s.clock + d)
    case Beat(tab) =>
      s.(store := Claimed(s.store, tab, s.clock),
         won := if Blocked(s.store, tab, s.clock) then s.won - {tab} else s.won[tab := s.clock])
    case Leave(tab) => s.(store := Released(s.store, tab), won := s.won - {tab})
  }

  function Run(s: State, es: seq<Event>): State {
    if es == [] then s else Apply(Run(s, es[..|es| - 1]), es[|es| - 1])
  }

  const Start := State(0, None, map[])

  /** The tab's unreleased claim is still young enough to count. */
  predicate Holds(s: State, tab: Tab) {
    tab in s.won && s.clock - s.won[tab] <= StaleMs
  }

  /** A tab that holds the sitting is the one named in storage. */
  predicate Owns(s: State, tab: Tab) {
    Holds(s, tab) ==> s.won[tab] <= s.clock && s.store == Some(Claim(tab, s.won[tab]))
  }

  lemma StepKeepsOwner(s: State, e: Event, tab: Tab)
    requires Owns(s, tab) || e == Beat(tab)
    ensures Owns(Apply(s, e), tab)
  {
  }

  lemma {:induction false} RunKeepsOwner(s: State, es: seq<Event>, tab: Tab)
    requires Owns(s, tab)
    ensures Owns(Run(s, es), tab)
  {
    if es != [] {
      RunKeepsOwner(s, es[..|es| - 1], tab);
      StepKeepsOwner(Run(s, es[..|es| - 1]), es[|es| - 1], tab);
    }
  }

  /** In every run with atomic claims, two tabs never hold the sitting at once. */
  lemma AtMostOneHolder(es: seq<Event>, a: Tab, b: Tab)
    requires Holds(Run(Start, es), a) && Holds(Run(Start, es), b)
    ensures a == b
  {
    RunKeepsOwner(Start, es, a);
    RunKeepsOwner(Start, es, b);
  }

  /** While a tab holds the sitting nothing another tab does -- claim or release -- touches
      its claim; once it has been silent past the limit, the next heartbeat of any tab
      takes over. */
  lemma OnlySilenceLosesTheSitting(es: seq<Event>, holder: Tab, other: Tab)
    requires other != holder && holder in Run(Start, es).won
    ensures var s := Run(Start, es);
      && (Holds(s, holder) ==>
            && Apply(s, Beat(other)).store == s.store == Apply(s, Leave(other)).store
            && Holds(Apply(s, Beat(other)), holder) && !Holds(Apply(s, Beat(other)), other))
      && (!Holds(s, holder) && s.store == Some(Claim(holder, s.won[holder])) ==>
            Holds(Apply(s, Beat(other)), other) && Apply(s, Beat(other)).store == Some(Claim(other, s.clock)))
  {
    RunKeepsOwner(Start, es, holder);
  }

  // ------------------------------------------------------------------------
  // Read, write and re-read as separate steps
  // ------------------------------------------------------------------------

  datatype Phase = Writing(at: int) | Written(at: int) | Leaving(at: int)

  /** `base` is the shared state; a tab in `mid` is inside `claim()` or `release()`. */
  datatype Split = Split(base: State, mid: map<Tab, Phase>)

  datatype Micro = Read(tab: Tab) | Write(tab: Tab) | Reread(tab: Tab) | Look(tab: Tab) | Remove(tab: Tab) | Whole(e: Event)

  function Step(s: Split, m: Micro): Split {
    match m
    case Read(tab) =>
      if tab in s.mid then s
      else if Blocked(s.base.store, tab, s.base.clock) then s.(base := s.base.(won := s.base.won - {tab}))
      else s.(mid := s.mid[tab := Writing(s.base.clock)])
    case Write(tab) =>
      if tab in s.mid && s.mid[tab].Writing? then
        s.(base := s.base.(store := Some(Claim(tab, s.mid[tab].at))), mid := s.mid[tab := Written(s.mid[tab].at)])
      else s
    case Reread(tab) =>
      if tab in s.mid && s.mid[tab].Written? then
        var mine := s.base.store.None? || s.base.store.value.tab == tab;
        Split(s.base.(won := if mine then s.base.won[tab := s.mid[tab].at] else s.base.won - {tab}), s.mid - {tab})
      else s
    case Look(tab) =>
      if tab in s.mid then s
      else
        var left := s.base.(won := s.base.won - {tab});
        if s.base.store.Some? && s.base.store.value.tab == tab then Split(left, s.mid[tab := Leaving(s.base.clock)])
        else s.(base := left)
    case Remove(tab) =>
      if tab in s.mid && s.mid[tab].Leaving? then Split(s.base.(store := None), s.mid - {tab}) else s
    case Whole(e) => if e.Advance? || e.tab !in s.mid then s.(base := Apply(s.base, e)) else s
  }

  function Steps(s: Split, ms: seq<Micro>): Split {
    if ms == [] then s else Step(Steps(s, ms[..|ms| - 1]), ms[|ms| - 1])
  }

  /** Undisturbed, the three steps are the atomic claim. */
  lemma UndisturbedClaimIsAtomic(s: Split, tab: Tab)
    requires tab !in s.mid
    ensures Step(Step(Step(s, Read(tab)), Write(tab)), Reread(tab)) == s.(base := Apply(s.base, Beat(tab)))
  {
    assert s.mid[tab := Writing(s.base.clock)][tab := Written(s.base.clock)] - {tab} == s.mid;
  }

  /** A tab inside one call starts no other. */
  lemma OneCallAtATime(s: Split, tab: Tab)
    requires tab in s.mid
    ensures Step(s, Read(tab)) == s && Step(s, Look(tab)) == s
    ensures Step(s, Whole(Beat(tab))) == s && Step(s, Whole(Leave(tab))) == s
  {
  }

  /** The re-read ends the call, and the tab holds the sitting at the time it wrote if and only
      if it reads its own item back or none. */
  lemma RereadDecides(s: Split, tab: Tab)
    requires tab in s.mid && s.mid[tab].Written?
    ensures var s' := Step(s, Reread(tab));
      && s'.mid == s.mid - {tab} && s'.base.store == s.base.store
      && (tab in s'.base.won <==> s.base.store.None? || s.base.store.value.tab == tab)
      && (tab in s'.base.won ==> s'.base.won[tab] == s.mid[tab].at)
  {
  }

  /** And the two steps of a release are the atomic release. */
  lemma UndisturbedReleaseIsAtomic(s: Split, tab: Tab)
    requires tab !in s.mid
    ensures Step(Step(s, Look(tab)), Remove(tab)) == s.(base := Apply(s.base, Leave(tab)))
  {
    assert s.mid[tab := Leaving(s.base.clock)] - {tab} == s.mid;
  }

  // ------------------------------------------------------------------------
  // Exactly when interleaved claims stay exclusive
  // ------------------------------------------------------------------------

  /** A tab that holds the sitting is named in storage, by that claim or a later one. */
  predicate Named(s: State, tab: Tab) {
    Holds(s, tab) ==> s.store.Some? && s.store.value.tab == tab && s.won[tab] <= s.store.value.at
  }

  ghost predicate AllNamed(s: State) {
    forall tab | tab in s.won :: Named(s, tab)
  }

  /** No time lies ahead of the clock, a tab's claim under way is its latest, and storage
      that names a tab waiting to re-read holds what it wrote. */
  ghost predicate Timely(s: Split) {
    && (forall tab | tab in s.base.won :: s.base.won[tab] <= s.base.clock)
    && (forall tab | tab in s.mid :: s.mid[tab].at <= s.base.clock && (tab in s.base.won ==> s.base.won[tab] <= s.mid[tab].at))
    && (forall tab | tab in s.mid && s.mid[tab].Leaving? :: tab !in s.base.won)
    && (s.base.store.Some? ==> s.base.store.value.at <= s.base.clock)
    && (forall tab | tab in s.mid && s.mid[tab].Written? && s.base.store.Some? && s.base.store.value.tab == tab ::
          s.base.store.value.at == s.mid[tab].at)
  }

  ghost predicate SomeoneElseHolds(s: State, tab: Tab) {
    exists other :: other != tab && Holds(s, other)
  }

  /** The three ways to lose exclusivity: a write that lands while another tab holds, a
      re-read that finds the item gone and takes that for a win, and a removal that lands
      while another tab has taken over. */
  ghost predicate Clash(s: Split, m: Micro) {
    || (m.Write? && m.tab in s.mid && s.mid[m.tab].Writing? && SomeoneElseHolds(s.base, m.tab))
    || (m.Reread? && m.tab in s.mid && s.mid[m.tab].Written? && s.base.store.None?
        && s.base.clock - s.mid[m.tab].at <= StaleMs)
    || (m.Remove? && m.tab in s.mid && s.mid[m.tab].Leaving? && SomeoneElseHolds(s.base, m.tab))
  }

  lemma StepKeepsTimely(s: Split, m: Micro)
    requires Timely(s)
    ensures Timely(Step(s, m))
  {
  }

  lemma WholeKeepsNamed(s: State, e: Event)
    requires AllNamed(s) && (s.store.Some? ==> s.store.value.at <= s.clock)
    ensures AllNamed(Apply(s, e))
  {
    var s' := Apply(s, e);
    forall tab | tab in s'.won ensures Named(s', tab) {
      assert tab in s.won ==> Named(s, tab);
    }
  }

  /** Storage goes on naming every holder exactly until a step clashes. */
  lemma NamedExactlyUntilClash(s: Split, m: Micro)
    requires Timely(s) && AllNamed(s.base)
    ensures AllNamed(Step(s, m).base) <==> !Clash(s, m)
  {
    var s' := Step(s, m);
    if m.Whole? {
      WholeKeepsNamed(s.base, m.e);
    } else if Clash(s, m) {
      ClashUnnames(s, m);
    } else {
      forall tab | tab in s'.base.won ensures Named(s'.base, tab) {
        assert tab in s.base.won ==> Named(s.base, tab);
        assert (m.Write? || m.Remove?) && tab != m.tab && Holds(s.base, tab) ==> SomeoneElseHolds(s.base, m.tab);
      }
    }
  }

  lemma ClashUnnames(s: Split, m: Micro)
    requires Clash(s, m)
    ensures !AllNamed(Step(s, m).base)
  {
    var s' := Step(s, m);
    if m.Write? || m.Remove? {
      var other :| other != m.tab && Holds(s.base, other);
      assert other in s'.base.won && !Named(s'.base, other);
    } else {
      assert m.tab in s'.base.won && !Named(s'.base, m.tab);
    }
  }

  ghost predicate Peaceful(ms: seq<Micro>) {
    ms == [] || (Peaceful(ms[..|ms| - 1]) && !Clash(Steps(Split(Start, map[]), ms[..|ms| - 1]), ms[|ms| - 1]))
  }

  lemma {:induction false} PeacefulKeepsNamed(ms: seq<Micro>)
    requires Peaceful(ms)
    ensures var s := Steps(Split(Start, map[]), ms); Timely(s) && AllNamed(s.base)
  {
    if ms != [] {
      var init, s := ms[..|ms| - 1], Steps(Split(Start, map[]), ms[..|ms| - 1]);
      PeacefulKeepsNamed(init);
      StepKeepsTimely(s, ms[|ms| - 1]);
      NamedExactlyUntilClash(s, ms[|ms| - 1]);
    }
  }

  /** In every interleaving without a clash, two tabs never hold the sitting at once... */
  lemma PeacefulClaimsAreExclusive(ms: seq<Micro>, a: Tab, b: Tab)
    requires Peaceful(ms)
    requires var s := Steps(Split(Start, map[]), ms).base; Holds(s, a) && Holds(s, b)
    ensures a == b
  {
    PeacefulKeepsNamed(ms);
    var s := Steps(Split(Start, map[]), ms).base;
    assert Named(s, a) && Named(s, b);
  }

  lemma StepsOfTwo(s: Split, m: Micro, n: Micro)
    ensures Steps(s, [m]) == Step(s, m) && Steps(s, [m, n]) == Step(Step(s, m), n)
  {
    assert [m][..0] == [] && [m, n][..1] == [m];
    assert Steps(s, [m]) == Step(Steps(s, []), m);
  }

  /** ...and each clash costs it: at the latest one heartbeat of one tab later, two tabs hold. */
  lemma ClashEndsExclusivity(s: Split, m: Micro) returns (ms: seq<Micro>, a: Tab, b: Tab)
    requires Clash(s, m)
    ensures a != b && Holds(Steps(Step(s, m), ms).base, a) && Holds(Steps(Step(s, m), ms).base, b)
  {
    var s1 := Step(s, m);
    a := m.tab;
    if m.Write? {
      b :| b != m.tab && Holds(s.base, b);
      ms := [Reread(a), Whole(Beat(a))];
      StepsOfTwo(s1, Reread(a), Whole(Beat(a)));
      var s2 := Step(s1, Reread(a));
      assert s2.base.store == Some(Claim(a, s.mid[a].at)) && a !in s2.mid && Holds(s2.base, b);
    } else if m.Remove? {
      a :| a != m.tab && Holds(s.base, a);
      b := FreshKey(s.mid.Keys + {a});
      ms := [Whole(Beat(b))];
      StepsOfTwo(s1, Whole(Beat(b)), Whole(Beat(b)));
      assert b !in s1.mid && s1.base.store.None? && Holds(s1.base, a);
    } else {
      b := FreshKey(s.mid.Keys + {a});
      ms := [Whole(Beat(b))];
      StepsOfTwo(s1, Whole(Beat(b)), Whole(Beat(b)));
      assert b !in s1.mid && s1.base.store.None?;
    }
  }

  /** An item that is gone counts as won: tab 2 wins, leaves, and tab 1, which wrote before
      it, reads nothing back and holds -- unnamed, so tab 3 claims as well. */
  lemma NothingCountsAsWon()
    ensures var ms := [Read(1), Read(2), Write(1), Write(2), Reread(2), Whole(Leave(2)), Reread(1), Whole(Beat(3))];
      var s := Steps(Split(Start, map[]), ms);
      s.mid == map[] && Holds(s.base, 1) && Holds(s.base, 3) && s.base.store == Some(Claim(3, 0))
  {
    var s4 := BothWrote();
    var first := [Read(1), Read(2), Write(1), Write(2)];
    var s5 := Step(s4, Reread(2));
    StepsSnoc(Split(Start, map[]), first, Reread(2));
    var s6 := Step(s5, Whole(Leave(2)));
    StepsSnoc(Split(Start, map[]), first + [Reread(2)], Whole(Leave(2)));
    var s7 := Step(s6, Reread(1));
    StepsSnoc(Split(Start, map[]), first + [Reread(2)] + [Whole(Leave(2))], Reread(1));
    StepsSnoc(Split(Start, map[]), first + [Reread(2)] + [Whole(Leave(2))] + [Reread(1)], Whole(Beat(3)));
    assert first + [Reread(2)] + [Whole(Leave(2))] + [Reread(1)] + [Whole(Beat(3))]
      == [Read(1), Read(2), Write(1), Write(2), Reread(2), Whole(Leave(2)), Reread(1), Whole(Beat(3))];
    assert s5 == Split(State(0, Some(Claim(2, 0)), map[2 := 0]), map[1 := Written(0)]);
    assert s6 == Split(State(0, None, map[]), map[1 := Written(0)]);
    assert s7 == Split(State(0, None, map[1 := 0]), map[]);
  }

  /** A release hits the successor: tab 1, silent past the limit, reads its own item; tab 2
      takes over; tab 1 removes what is now tab 2's; tab 3 claims beside it. */
  lemma ReleaseCanHitTheSuccessor()
    ensures var ms := [Whole(Beat(1)), Whole(Advance(7_001)), Look(1), Whole(Beat(2)), Remove(1), Whole(Beat(3))];
      var s := Steps(Split(Start, map[]), ms);
      s.mid == map[] && Holds(s.base, 2) && Holds(s.base, 3) && s.base.store == Some(Claim(3, 7_001))
  {
    var first := [Whole(Beat(1)), Whole(Advance(7_001))];
    StepsOfTwo(Split(Start, map[]), Whole(Beat(1)), Whole(Advance(7_001)));
    var s2 := Steps(Split(Start, map[]), first);
    assert s2 == Split(State(7_001, Some(Claim(1, 0)), map[1 := 0]), map[]);
    StepsSnoc(Split(Start, map[]), first, Look(1));
    var s3 := Step(s2, Look(1));
    assert s3 == Split(State(7_001, Some(Claim(1, 0)), map[]), map[1 := Leaving(7_001)]);
    StepsSnoc(Split(Start, map[]), first + [Look(1)], Whole(Beat(2)));
    var s4 := Step(s3, Whole(Beat(2)));
    assert s4 == Split(State(7_001, Some(Claim(2, 7_001)), map[2 := 7_001]), map[1 := Leaving(7_001)]);
    StepsSnoc(Split(Start, map[]), first + [Look(1)] + [Whole(Beat(2))], Remove(1));
    var s5 := Step(s4, Remove(1));
    assert s5 == Split(State(7_001, None, map[2 := 7_001]), map[]);
    StepsSnoc(Split(Start, map[]), first + [Look(1)] + [Whole(Beat(2))] + [Remove(1)], Whole(Beat(3)));
    assert first + [Look(1)] + [Whole(Beat(2))] + [Remove(1)] + [Whole(Beat(3))]
      == [Whole(Beat(1)), Whole(Advance(7_001)), Look(1), Whole(Beat(2)), Remove(1), Whole(Beat(3))];
  }

  lemma StepsSnoc(s: Split, ms: seq<Micro>, m: Micro)
    ensures Steps(s, ms + [m]) == Step(Steps(s, ms), m)
  {
    assert (ms + [m])[..|ms|] == ms;
  }

  lemma BothWrote() returns (s: Split)
    ensures s == Steps(Split(Start, map[]), [Read(1), Read(2), Write(1), Write(2)])
    ensures s == Split(State(0, Some(Claim(2, 0)), map[]), map[1 := Written(0), 2 := Written(0)])
  {
    StepsOfTwo(Split(Start, map[]), Read(1), Read(2));
    StepsSnoc(Split(Start, map[]), [Read(1), Read(2)], Write(1));
    StepsSnoc(Split(Start, map[]), [Read(1), Read(2), Write(1)], Write(2));
    assert [Read(1), Read(2)] + [Write(1)] == [Read(1), Read(2), Write(1)];
    assert [Read(1), Read(2), Write(1)] + [Write(2)] == [Read(1), Read(2), Write(1), Write(2)];
    s := Steps(Split(Start, map[]), [Read(1), Read(2), Write(1), Write(2)]);
    assert s.mid == map[1 := Written(0), 2 := Written(0)];
  }

  /** The plainest clash: two tabs that both read before either wrote may both read their
      own claim back. */
  lemma TwoTabsCanBothWin()
    ensures var read := Step(Step(Split(Start, map[]), Read(1)), Read(2));
      var one := Step(Step(read, Write(1)), Reread(1));
      var two := Step(Step(one, Write(2)), Reread(2));
      two.mid == map[] && Holds(two.base, 1) && Holds(two.base, 2)
  {
    var read := Step(Step(Split(Start, map[]), Read(1)), Read(2));
    assert read.mid == map[1 := Writing(0), 2 := Writing(0)];
    var one := Step(Step(read, Write(1)), Reread(1));
    assert one.mid == map[2 := Writing(0)] && one.base.won == map[1 := 0];
    var two := Step(Step(one, Write(2)), Reread(2));
    assert two.base.won == map[1 := 0, 2 := 0];
  }

  lemma {:induction false} BeatenTabsOwn(s: State, es: seq<Event>, tab: Tab)
    requires Beat(tab) in es
    ensures Owns(Run(s, es), tab)
  {
    var init, e := es[..|es| - 1], es[|es| - 1];
    assert es == init + [e];
    if e != Beat(tab) { BeatenTabsOwn(s, init, tab); }
    StepKeepsOwner(Run(s, init), e, tab);
  }

  /** It comes back by itself: from whatever a tangle of interleaved claims left behind,
      once no claim is mid-flight and each tab has run one more, at most one tab holds. */
  lemma ExclusivityReturns(tangled: seq<Micro>, es: seq<Event>, a: Tab, b: Tab)
    requires Steps(Split(Start, map[]), tangled).mid == map[]
    requires Beat(a) in es && Beat(b) in es
    requires var s := Run(Steps(Split(Start, map[]), tangled).base, es); Holds(s, a) && Holds(s, b)
    ensures a == b
  {
    var s := Steps(Split(Start, map[]), tangled).base;
    BeatenTabsOwn(s, es, a);
    BeatenTabsOwn(s, es, b);
  }
}
