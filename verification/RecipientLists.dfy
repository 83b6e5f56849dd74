/**
An invite's recipient list under overlapping erasures: `_scrub_invite_recipients` and
`_expire_invite_recipients` in `assessment_platform/privacy.py`.

The list is one JSON column.  An erasure reads it, computes the list without the addresses it
drops, and writes that whole list when its transaction commits.  Any number of erasures and
purges overlap.  The model follows one invite.
*/
module RecipientLists {
  import opened Base
  import opened Privacy

  /** A transaction that has read the list and not committed. */
  datatype Scrub = Scrub(read: seq<Email>, gone: set<Email>)

  /** `dropped` are the addresses that committed transactions took off the list. */
  datatype State = State(list: seq<Email>, scrubs: map<nat, Scrub>, dropped: set<Email>)

  datatype Event =
    | Read(scrub: nat, gone: set<Email>)
    | Commit(scrub: nat)

  /** The column is assigned only when the list gets shorter. */
  predicate Amends(sc: Scrub) {
    |Without(sc.read, sc.gone)| != |sc.read|
  }

  function Apply(s: State, e: Event): State {
    match e
    case Read(t, gone) => if t in s.scrubs then s else s.(scrubs := s.scrubs[t := Scrub(s.list, gone)])
    case Commit(t) =>
      if t !in s.scrubs then s
      else
        var sc := s.scrubs[t];
        State(if Amends(sc) then Without(sc.read, sc.gone) else s.list, s.scrubs - {t}, s.dropped + sc.gone)
  }

  function Start(list: seq<Email>): State {
    State(list, map[], {})
  }

  function Run(s: State, es: seq<Event>): State {
    if es == [] then s else Apply(Run(s, es[..|es| - 1]), es[|es| - 1])
  }

  // ------------------------------------------------------------------------
  // Lists without addresses
  // ------------------------------------------------------------------------

  lemma {:induction false} WithoutNever(list: seq<Email>)
    ensures Without(list, {}) == list
  {
    WithoutDrops(list, {});
  }

  lemma {:induction false} WithoutTwice(list: seq<Email>, a: set<Email>, b: set<Email>)
    ensures Without(Without(list, a), b) == Without(list, a + b)
  {
    if list != [] { WithoutTwice(list[1..], a, b); }
  }

  lemma {:induction false} WithoutShortens(list: seq<Email>, drop: set<Email>)
    ensures |Without(list, drop)| <= |list|
    ensures |Without(list, drop)| == |list| ==> Without(list, drop) == list
  {
    if list != [] { WithoutShortens(list[1..], drop); }
  }

  /** Two sets take the same addresses off a list exactly when they agree on its members. */
  lemma WithoutAgrees(list: seq<Email>, a: set<Email>, b: set<Email>)
    ensures Without(list, a) == Without(list, b) <==> (forall r | r in list :: r in a <==> r in b)
  {
    if forall r | r in list :: r in a <==> r in b {
      SameWithout(list, a, b);
    } else {
      WithoutDrops(list, a);
      WithoutDrops(list, b);
    }
  }

  lemma {:induction false} SameWithout(list: seq<Email>, a: set<Email>, b: set<Email>)
    requires forall r | r in list :: r in a <==> r in b
    ensures Without(list, a) == Without(list, b)
  {
    if list != [] {
      assert list[0] in list;
      assert forall r | r in list[1..] :: r in list;
      SameWithout(list[1..], a, b);
    }
  }

  // ------------------------------------------------------------------------
  // What was dropped stays dropped, exactly when
  // ------------------------------------------------------------------------

  /** The list is the one sent out, less everything any committed transaction dropped. */
  ghost predicate Honoured(sent: seq<Email>, s: State) {
    s.list == Without(sent, s.dropped)
  }

  /** Every transaction under way read such a list, at some earlier moment. */
  ghost predicate ReadsHonoured(sent: seq<Email>, s: State) {
    forall t | t in s.scrubs :: exists d :: d <= s.dropped && s.scrubs[t].read == Without(sent, d)
  }

  /** The commit writes back an address that was dropped after its transaction read the list. */
  predicate Relists(s: State, e: Event) {
    && e.Commit? && e.scrub in s.scrubs && Amends(s.scrubs[e.scrub])
    && exists r :: r in s.scrubs[e.scrub].read && r in s.dropped && r !in s.scrubs[e.scrub].gone
  }

  /** The condition is exact at every commit. */
  lemma HonouredExactlyUntilARelisting(sent: seq<Email>, s: State, e: Event)
    requires Honoured(sent, s) && ReadsHonoured(sent, s)
    ensures Honoured(sent, Apply(s, e)) <==> !Relists(s, e)
  {
    if e.Commit? && e.scrub in s.scrubs {
      var sc := s.scrubs[e.scrub];
      var d :| d <= s.dropped && sc.read == Without(sent, d);
      WithoutDrops(sent, d);
      if Amends(sc) {
        WithoutTwice(sent, d, sc.gone);
        WithoutAgrees(sent, d + sc.gone, s.dropped + sc.gone);
      } else {
        WithoutShortens(sc.read, sc.gone);
        WithoutDrops(sc.read, sc.gone);
        WithoutAgrees(sent, s.dropped, s.dropped + sc.gone);
      }
    }
  }

  /** A transaction under way keeps the list it read, whatever commits meanwhile. */
  lemma ReadsOnce(s: State, e: Event, t: nat)
    requires t in s.scrubs
    ensures t in Apply(s, e).scrubs ==> Apply(s, e).scrubs[t] == s.scrubs[t]
    ensures t !in Apply(s, e).scrubs <==> e == Commit(t)
  {
  }

  lemma StepKeepsReads(sent: seq<Email>, s: State, e: Event)
    requires Honoured(sent, s) && ReadsHonoured(sent, s)
    ensures ReadsHonoured(sent, Apply(s, e))
  {
    var s' := Apply(s, e);
    forall t | t in s'.scrubs ensures exists d :: d <= s'.dropped && s'.scrubs[t].read == Without(sent, d) {
      if t in s.scrubs {
        var d :| d <= s.dropped && s.scrubs[t].read == Without(sent, d);
        assert d <= s'.dropped;
      } else {
        assert s.dropped <= s'.dropped;
      }
    }
  }

  ghost predicate WithoutRelisting(s: State, es: seq<Event>) {
    es == [] || (WithoutRelisting(s, es[..|es| - 1]) && !Relists(Run(s, es[..|es| - 1]), es[|es| - 1]))
  }

  /** In every interleaving without a relisting, whatever the order of the commits, the list is
      what was sent less all that was dropped. */
  lemma {:induction false} DroppedStaysDropped(sent: seq<Email>, es: seq<Event>)
    requires WithoutRelisting(Start(sent), es)
    ensures Honoured(sent, Run(Start(sent), es)) && ReadsHonoured(sent, Run(Start(sent), es))
    ensures forall r | r in Run(Start(sent), es).dropped :: r !in Run(Start(sent), es).list
  {
    var s := Run(Start(sent), es);
    if es == [] {
      WithoutNever(sent);
    } else {
      var before := Run(Start(sent), es[..|es| - 1]);
      DroppedStaysDropped(sent, es[..|es| - 1]);
      HonouredExactlyUntilARelisting(sent, before, es[|es| - 1]);
      StepKeepsReads(sent, before, es[|es| - 1]);
    }
    WithoutDrops(sent, s.dropped);
  }

  /** With nothing in between, the two steps are the scrub of `Privacy`. */
  lemma UndisturbedScrubIsWhole(s: State, t: nat, inv: Invite, gone: set<Email>)
    requires t !in s.scrubs && s.list == inv.recipients
    ensures Apply(Apply(s, Read(t, gone)), Commit(t)).list == Scrubbed(inv, gone).recipients
  {
    WithoutShortens(s.list, gone);
  }

  /** Two candidates of one invite are erased at once: both erasures commit, and the address
      erased first is on the list again. */
  lemma OverlappingErasuresRelist(ann: Email, bob: Email)
    requires ann != bob
    ensures var s := Run(Start([ann, bob]), [Read(0, {ann}), Read(1, {bob}), Commit(0), Commit(1)]);
      s.list == [ann] && s.dropped == {ann, bob} && s.scrubs == map[]
  {
    var start := Start([ann, bob]);
    var es := [Read(0, {ann}), Read(1, {bob}), Commit(0), Commit(1)];
    WithoutPair(ann, bob);
    assert es[..3] == [Read(0, {ann}), Read(1, {bob}), Commit(0)] && es[..3][..2] == [Read(0, {ann}), Read(1, {bob})];
    assert es[..3][..2][..1] == [Read(0, {ann})];
    assert Run(start, [Read(0, {ann})]) == Apply(start, Read(0, {ann}));
    var s2 := Run(start, [Read(0, {ann}), Read(1, {bob})]);
    assert s2.scrubs == map[0 := Scrub([ann, bob], {ann}), 1 := Scrub([ann, bob], {bob})];
    var s3 := Run(start, es[..3]);
    assert s3.scrubs == map[1 := Scrub([ann, bob], {bob})] && s3.list == [bob];
  }

  lemma WithoutPair(ann: Email, bob: Email)
    requires ann != bob
    ensures Without([ann, bob], {ann}) == [bob] && Without([ann, bob], {bob}) == [ann]
  {
    assert [ann, bob][1..] == [bob];
    assert Without([bob], {ann}) == [bob] && Without([bob], {bob}) == [];
  }
}
