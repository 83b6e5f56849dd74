/**
The in-memory sliding-window limiter of `assessment_platform/ratelimit.py`.

The limiter forgets: every call prunes its own key, and a large table drops whole keys.
The reference limiter keeps every accepted hit for ever.  They decide alike.
*/
module RateLimit {

  type Key = (string, string)
  type Time = real
  type Hits = map<Key, seq<Time>>

  const MaxTrackedKeys := 10_000

  function Of(h: Hits, key: Key): seq<Time> {
    if key in h then h[key] else []
  }

  /** The hits inside the window, in order. */
  function Fresh(ts: seq<Time>, cutoff: Time): seq<Time> {
    if ts == [] then []
    else
      var init, last := Fresh(ts[..|ts| - 1], cutoff), ts[|ts| - 1];
      if last > cutoff then init + [last] else init
  }

  predicate AnyFresh(ts: seq<Time>, cutoff: Time) {
    exists i :: 0 <= i < |ts| && ts[i] > cutoff
  }

  function Purged(h: Hits, cutoff: Time): Hits {
    map key | key in h && AnyFresh(h[key], cutoff) :: h[key]
  }

  /** The table as a call finds it once an overfull one has dropped its dead keys. */
  function Trimmed(h: Hits, cutoff: Time): Hits {
    if |h| > MaxTrackedKeys then Purged(h, cutoff) else h
  }

  predicate Allows(h: Hits, key: Key, max: int, window: int, now: Time) {
    max <= 0 || |Fresh(Of(h, key), now - window as real)| < max
  }

  /** The table after one call. */
  function Checked(h: Hits, key: Key, max: int, window: int, now: Time): Hits {
    if max <= 0 then h
    else
      var cutoff := now - window as real;
      var h1 := Trimmed(h, cutoff);
      var hits := Fresh(Of(h1, key), cutoff);
      if |hits| >= max then h1 else h1[key := hits + [now]]
  }

  /** The reference: nothing is ever pruned. */
  function Remembered(full: Hits, key: Key, max: int, window: int, now: Time): Hits {
    if max > 0 && Allows(full, key, max, window, now) then full[key := Of(full, key) + [now]] else full
  }

  class RateLimiter {
    var hits: Hits

    constructor ()
      ensures hits == map[]
    {
      hits := map[];
    }

    method PurgeExpired(cutoff: Time)
      modifies this
      ensures hits == Purged(old(hits), cutoff)
    {
      var dead := set key | key in hits && !AnyFresh(hits[key], cutoff);
      ghost var before := hits;
      while dead != {}
        invariant dead <= hits.Keys <= before.Keys
        invariant forall key | key in dead :: !AnyFresh(before[key], cutoff)
        invariant forall key | key in hits :: hits[key] == before[key]
        invariant forall key | key in before :: (key in hits <==> key in dead || AnyFresh(before[key], cutoff))
        decreases dead
      {
        var key :| key in dead;
        hits := hits - {key};
        dead := dead - {key};
      }
    }

    /** Records a hit, or refuses it and consumes no quota. */
    method Check(key: Key, max: int, window: int, now: Time) returns (allowed: bool)
      modifies this
      ensures allowed == Allows(old(hits), key, max, window, now)
      ensures hits == Checked(old(hits), key, max, window, now)
    {
      if max <= 0 { return true; }
      var cutoff := now - window as real;
      PurgeKeepsFresh(hits, cutoff, key);
      if |hits| > MaxTrackedKeys {
        PurgeExpired(cutoff);
      }
      var mine := Fresh(Of(hits, key), cutoff);
      if |mine| >= max { return false; }
      hits := hits[key := mine + [now]];
      return true;
    }
  }

  // ------------------------------------------------------------------------
  // Pruning is invisible
  // ------------------------------------------------------------------------

  lemma {:induction false} FreshOfFresh(ts: seq<Time>, c: Time, c': Time)
    requires c <= c'
    ensures Fresh(Fresh(ts, c), c') == Fresh(ts, c')
  {
    if ts != [] {
      FreshOfFresh(ts[..|ts| - 1], c, c');
      var kept := Fresh(ts[..|ts| - 1], c);
      assert (kept + [ts[|ts| - 1]])[..|kept|] == kept;
    }
  }

  lemma FreshAppend(ts: seq<Time>, t: Time, c: Time)
    ensures Fresh(ts + [t], c) == Fresh(ts, c) + if t > c then [t] else []
  {
    assert (ts + [t])[..|ts|] == ts;
  }

  lemma {:induction false} NothingFresh(ts: seq<Time>, c: Time)
    requires !AnyFresh(ts, c)
    ensures Fresh(ts, c) == []
  {
    if ts != [] {
      var init := ts[..|ts| - 1];
      assert forall i | 0 <= i < |init| :: init[i] == ts[i];
      NothingFresh(init, c);
    }
  }

  lemma PurgeKeepsFresh(h: Hits, c: Time, key: Key)
    ensures Fresh(Of(Purged(h, c), key), c) == Fresh(Of(h, key), c)
  {
    if key in h && !AnyFresh(h[key], c) { NothingFresh(h[key], c); }
  }

  /** The two tables agree on every hit younger than the cutoff. */
  predicate AgreeOn(h: Hits, full: Hits, cutoff: Time, key: Key) {
    Fresh(Of(h, key), cutoff) == Fresh(Of(full, key), cutoff)
  }

  ghost predicate Agree(h: Hits, full: Hits, cutoff: Time) {
    forall key :: AgreeOn(h, full, cutoff, key)
  }

  lemma AgreeLater(h: Hits, full: Hits, c: Time, c': Time)
    requires Agree(h, full, c) && c <= c'
    ensures Agree(h, full, c')
  {
    forall key ensures AgreeOn(h, full, c', key) {
      assert AgreeOn(h, full, c, key);
      FreshOfFresh(Of(h, key), c, c');
      FreshOfFresh(Of(full, key), c, c');
    }
  }

  /** What one call adds to the fresh hits of a key, whether or not the table prunes. */
  function Added(h: Hits, key: Key, max: int, window: int, now: Time, k: Key): seq<Time> {
    if k == key && max > 0 && Allows(h, key, max, window, now) && now > now - window as real then [now] else []
  }

  lemma TrimKeepsFresh(h: Hits, c: Time, key: Key)
    ensures Fresh(Of(Trimmed(h, c), key), c) == Fresh(Of(h, key), c)
  {
    PurgeKeepsFresh(h, c, key);
  }

  lemma CheckedAdds(h: Hits, key: Key, max: int, window: int, now: Time, k: Key)
    ensures var c := now - window as real;
      Fresh(Of(Checked(h, key, max, window, now), k), c) == Fresh(Of(h, k), c) + Added(h, key, max, window, now, k)
  {
    var c := now - window as real;
    var mine := Fresh(Of(h, key), c);
    TrimKeepsFresh(h, c, k);
    if k == key && max > 0 && |mine| < max {
      assert Of(Checked(h, key, max, window, now), k) == mine + [now];
      FreshOfFresh(Of(h, key), c, c);
      FreshAppend(mine, now, c);
    } else {
      TrimKeepsFresh(h, c, key);
      assert Of(Checked(h, key, max, window, now), k) == Of(if max <= 0 then h else Trimmed(h, c), k);
    }
  }

  lemma RememberedAdds(full: Hits, key: Key, max: int, window: int, now: Time, k: Key)
    ensures var c := now - window as real;
      Fresh(Of(Remembered(full, key, max, window, now), k), c) == Fresh(Of(full, k), c) + Added(full, key, max, window, now, k)
  {
    if k == key && max > 0 && Allows(full, key, max, window, now) {
      FreshAppend(Of(full, key), now, now - window as real);
      assert Of(Remembered(full, key, max, window, now), k) == Of(full, key) + [now];
    } else {
      assert Of(Remembered(full, key, max, window, now), k) == Of(full, k);
    }
  }

  lemma SameAnswer(h: Hits, full: Hits, key: Key, max: int, window: int, now: Time)
    requires AgreeOn(h, full, now - window as real, key)
    ensures Allows(h, key, max, window, now) == Allows(full, key, max, window, now)
  {
  }

  lemma StepAgreesOn(h: Hits, full: Hits, key: Key, max: int, window: int, now: Time, k: Key)
    requires AgreeOn(h, full, now - window as real, key) && AgreeOn(h, full, now - window as real, k)
    ensures AgreeOn(Checked(h, key, max, window, now), Remembered(full, key, max, window, now), now - window as real, k)
  {
    CheckedAdds(h, key, max, window, now, k);
    RememberedAdds(full, key, max, window, now, k);
    SameAnswer(h, full, key, max, window, now);
    assert Added(h, key, max, window, now, k) == Added(full, key, max, window, now, k);
  }

  lemma StepAgrees(h: Hits, full: Hits, key: Key, max: int, window: int, now: Time)
    requires Agree(h, full, now - window as real)
    ensures Agree(Checked(h, key, max, window, now), Remembered(full, key, max, window, now), now - window as real)
  {
    var c := now - window as real;
    var h', full' := Checked(h, key, max, window, now), Remembered(full, key, max, window, now);
    assert AgreeOn(h, full, c, key);
    forall k ensures AgreeOn(h', full', c, k) {
      assert AgreeOn(h, full, c, k);
      StepAgreesOn(h, full, key, max, window, now, k);
    }
  }

  /** What the table forgets besides the caller's own dead hits: nothing until it tracks more
      than 10 000 keys, and then every key without a hit inside the window. */
  lemma ForgetsOnlyWhenCrowded(h: Hits, key: Key, max: int, window: int, now: Time, k: Key)
    requires k != key && k in h
    ensures var dead := forall i | 0 <= i < |h[k]| :: h[k][i] <= now - window as real;
      var after := Checked(h, key, max, window, now);
      (k in after <==> max <= 0 || |h| <= 10_000 || !dead) && (k in after ==> after[k] == h[k])
  {
  }

  // ------------------------------------------------------------------------
  // Whole traces
  // ------------------------------------------------------------------------

  datatype Call = Call(key: Key, max: int, now: Time)

  predicate InOrder(calls: seq<Call>) {
    forall i, j | 0 <= i < j < |calls| :: calls[i].now <= calls[j].now
  }

  function Table(window: int, calls: seq<Call>): Hits {
    if calls == [] then map[]
    else
      var c := calls[|calls| - 1];
      Checked(Table(window, calls[..|calls| - 1]), c.key, c.max, window, c.now)
  }

  function History(window: int, calls: seq<Call>): Hits {
    if calls == [] then map[]
    else
      var c := calls[|calls| - 1];
      Remembered(History(window, calls[..|calls| - 1]), c.key, c.max, window, c.now)
  }

  lemma {:induction false} TraceAgrees(window: int, calls: seq<Call>, now: Time)
    requires InOrder(calls) && forall i | 0 <= i < |calls| :: calls[i].now <= now
    ensures Agree(Table(window, calls), History(window, calls), now - window as real)
  {
    if calls != [] {
      var init, c := calls[..|calls| - 1], calls[|calls| - 1];
      assert forall i | 0 <= i < |init| :: init[i] == calls[i];
      TraceAgrees(window, init, c.now);
      ghost var h, full := Table(window, init), History(window, init);
      StepAgrees(h, full, c.key, c.max, window, c.now);
      AgreeLater(Checked(h, c.key, c.max, window, c.now), Remembered(full, c.key, c.max, window, c.now),
                 c.now - window as real, now - window as real);
    }
  }

  lemma AgreementAnswers(h: Hits, full: Hits, next: Call, window: int)
    requires Agree(h, full, next.now - window as real)
    ensures Allows(h, next.key, next.max, window, next.now) == Allows(full, next.key, next.max, window, next.now)
  {
    assert AgreeOn(h, full, next.now - window as real, next.key);
    SameAnswer(h, full, next.key, next.max, window, next.now);
  }

  lemma PrefixInOrder(calls: seq<Call>, next: Call)
    requires InOrder(calls + [next])
    ensures InOrder(calls) && forall i | 0 <= i < |calls| :: calls[i].now <= next.now
  {
    var all := calls + [next];
    forall i, j | 0 <= i < j < |calls| ensures calls[i].now <= calls[j].now {
      assert all[i].now <= all[j].now;
    }
    forall i | 0 <= i < |calls| ensures calls[i].now <= next.now {
      assert all[i].now <= all[|calls|].now;
    }
  }

  /** After any trace of calls with non-decreasing times and one window length, the
      limiter answers the next call exactly as one that never forgot a hit. */
  lemma ForgettingIsInvisible(window: int, calls: seq<Call>, next: Call)
    requires InOrder(calls + [next])
    ensures Allows(Table(window, calls), next.key, next.max, window, next.now)
            == Allows(History(window, calls), next.key, next.max, window, next.now)
  {
    PrefixInOrder(calls, next);
    TraceAgrees(window, calls, next.now);
    AgreementAnswers(Table(window, calls), History(window, calls), next, window);
  }

  /** How many of the hits fall in the interval (from, to]. */
  function CountIn(ts: seq<Time>, from: Time, to: Time): nat {
    if ts == [] then 0
    else CountIn(ts[..|ts| - 1], from, to) + if from < ts[|ts| - 1] <= to then 1 else 0
  }

  /** The count leaves nothing out: it is the number of places in the sequence. */
  lemma {:induction false} CountInCounts(ts: seq<Time>, from: Time, to: Time)
    ensures CountIn(ts, from, to) == |set k | 0 <= k < |ts| && from < ts[k] && ts[k] <= to|
  {
    if ts != [] {
      var init, n := ts[..|ts| - 1], |ts| - 1;
      CountInCounts(init, from, to);
      var places := set k | 0 <= k < |init| && from < init[k] && init[k] <= to;
      var all := set k | 0 <= k < |ts| && from < ts[k] && ts[k] <= to;
      assert all == if from < ts[n] && ts[n] <= to then places + {n} else places;
    }
  }

  lemma {:induction false} CountedAreFresh(ts: seq<Time>, from: Time, to: Time, cutoff: Time)
    requires cutoff <= from
    ensures CountIn(ts, from, to) <= |Fresh(ts, cutoff)|
  {
    if ts != [] { CountedAreFresh(ts[..|ts| - 1], from, to, cutoff); }
  }

  lemma {:induction false} HistoryNeverCrowds(window: int, calls: seq<Call>, key: Key, max: nat, from: Time)
    requires max > 0 && forall i | 0 <= i < |calls| :: calls[i].key == key ==> calls[i].max == max
    ensures CountIn(Of(History(window, calls), key), from, from + window as real) <= max
  {
    if calls != [] {
      var init, c := calls[..|calls| - 1], calls[|calls| - 1];
      HistoryNeverCrowds(window, init, key, max, from);
      var before := Of(History(window, init), key);
      var after := Of(History(window, calls), key);
      if after != before {
        assert after == before + [c.now] && after[..|after| - 1] == before;
        if from < c.now <= from + window as real {
          CountedAreFresh(before, from, from + window as real, c.now - window as real);
        }
      }
    }
  }

  /** The accepted hits of the forgetful limiter itself, for one key. */
  function Accepted(window: int, calls: seq<Call>, key: Key): seq<Time> {
    if calls == [] then []
    else
      var init, c := calls[..|calls| - 1], calls[|calls| - 1];
      Accepted(window, init, key)
      + if c.key == key && c.max > 0 && Allows(Table(window, init), key, c.max, window, c.now) then [c.now] else []
  }

  lemma {:induction false} AcceptedIsHistory(window: int, calls: seq<Call>, key: Key)
    requires InOrder(calls)
    ensures Accepted(window, calls, key) == Of(History(window, calls), key)
  {
    if calls != [] {
      var init, c := calls[..|calls| - 1], calls[|calls| - 1];
      AcceptedIsHistory(window, init, key);
      assert init + [c] == calls;
      ForgettingIsInvisible(window, init, c);
    }
  }

  /** Hence the limit itself: no half-open interval one window long holds more than
      `max` accepted hits of a key. */
  lemma AtMostMaxPerWindow(window: int, calls: seq<Call>, key: Key, max: nat, from: Time)
    requires InOrder(calls) && max > 0 && forall i | 0 <= i < |calls| :: calls[i].key == key ==> calls[i].max == max
    ensures CountIn(Accepted(window, calls, key), from, from + window as real) <= max
  {
    AcceptedIsHistory(window, calls, key);
    HistoryNeverCrowds(window, calls, key, max, from);
  }

  lemma {:induction false} FreshAreCounted(ts: seq<Time>, cutoff: Time, now: Time)
    requires forall i | 0 <= i < |ts| :: ts[i] <= now
    ensures |Fresh(ts, cutoff)| == CountIn(ts, cutoff, now)
  {
    if ts != [] {
      var init := ts[..|ts| - 1];
      assert forall i | 0 <= i < |init| :: init[i] == ts[i];
      FreshAreCounted(init, cutoff, now);
    }
  }

  lemma {:induction false} HistoryIsPast(window: int, calls: seq<Call>, key: Key, now: Time)
    requires forall i | 0 <= i < |calls| :: calls[i].now <= now
    ensures forall i | 0 <= i < |Of(History(window, calls), key)| :: Of(History(window, calls), key)[i] <= now
  {
    if calls != [] {
      var init, c := calls[..|calls| - 1], calls[|calls| - 1];
      assert forall i | 0 <= i < |init| :: init[i] == calls[i];
      HistoryIsPast(window, init, key, now);
    }
  }

  /** And exactly the limit: after any such trace a call is refused if and only if the key's
      limit is above zero and that many accepted hits lie within the window before it. */
  lemma RefusedExactlyAtTheLimit(window: int, calls: seq<Call>, next: Call)
    requires InOrder(calls + [next])
    ensures Allows(Table(window, calls), next.key, next.max, window, next.now)
            <==> next.max <= 0 || CountIn(Accepted(window, calls, next.key), next.now - window as real, next.now) < next.max
  {
    PrefixInOrder(calls, next);
    ForgettingIsInvisible(window, calls, next);
    AcceptedIsHistory(window, calls, next.key);
    HistoryIsPast(window, calls, next.key, next.now);
    CountDecides(History(window, calls), next, window);
  }

  lemma CountDecides(h: Hits, next: Call, window: int)
    requires forall i | 0 <= i < |Of(h, next.key)| :: Of(h, next.key)[i] <= next.now
    ensures Allows(h, next.key, next.max, window, next.now)
            <==> next.max <= 0 || CountIn(Of(h, next.key), next.now - window as real, next.now) < next.max
  {
    FreshAreCounted(Of(h, next.key), next.now - window as real, next.now);
  }
}
