/**
Handing out question variants: `_resolve_slot_variant`, `create_variant_set_invites` and
the guard in `delete_question` of `assessment_platform/api.py`.  Tables are sequences in
insertion order.
*/
module Variants {
  import opened Base

  type Question = nat

  // ------------------------------------------------------------------------
  // Rotation is balanced
  // ------------------------------------------------------------------------

  function CountOf(qs: seq<Question>, q: Question): nat {
    if qs == [] then 0 else CountOf(qs[..|qs| - 1], q) + if qs[|qs| - 1] == q then 1 else 0
  }

  /** The k-th hand-out is the k-th variant, cyclically. */
  predicate Rotates(pool: seq<Question>, handed: seq<Question>) {
    pool != [] && forall k | 0 <= k < |handed| :: handed[k] == pool[k % |pool|]
  }

  /** How many of the first `c` hand-outs go to place `j` of a pool of `n`. */
  function Share(c: nat, n: nat, j: nat): nat requires n > 0 {
    c / n + if j < c % n then 1 else 0
  }

  lemma NextQuotient(c: nat, n: nat)
    requires n > 0
    ensures if c % n + 1 < n then (c + 1) / n == c / n && (c + 1) % n == c % n + 1
            else (c + 1) / n == c / n + 1 && (c + 1) % n == 0
  {
    var q, r := c / n, c % n;
    assert c == q * n + r;
    if r + 1 < n {
      QuotientIs(c + 1, n, q, r + 1);
    } else {
      assert (q + 1) * n == q * n + n;
      QuotientIs(c + 1, n, q + 1, 0);
    }
  }

  lemma QuotientIs(c: nat, n: nat, q: nat, r: nat)
    requires r < n && c == q * n + r
    ensures c / n == q && c % n == r
  {
    var q', r' := c / n, c % n;
    assert c == q' * n + r';
    if q' < q {
      MulKeepsOrder(n, q' + 1, q);
      assert false;
    } else if q < q' {
      MulKeepsOrder(n, q + 1, q');
      assert false;
    }
  }

  lemma NextShare(c: nat, n: nat, j: nat)
    requires j < n
    ensures Share(c + 1, n, j) == Share(c, n, j) + if c % n == j then 1 else 0
  {
    NextQuotient(c, n);
  }

  lemma NextInRotation(pool: seq<Question>, c: nat, j: nat)
    requires Distinct(pool) && j < |pool|
    ensures pool[c % |pool|] == pool[j] <==> c % |pool| == j
  {
    var k := c % |pool|;
    assert 0 <= k < |pool|;
    if k < j { assert pool[k] != pool[j]; } else if j < k { assert pool[j] != pool[k]; }
  }

  lemma {:induction false} RotationCounts(pool: seq<Question>, handed: seq<Question>, j: nat)
    requires Distinct(pool) && Rotates(pool, handed) && j < |pool|
    ensures CountOf(handed, pool[j]) == Share(|handed|, |pool|, j)
  {
    if handed != [] {
      var init := handed[..|handed| - 1];
      RotationCounts(pool, init, j);
      NextShare(|init|, |pool|, j);
      NextInRotation(pool, |init|, j);
      assert handed[|init|] == pool[|init| % |pool|];
    }
  }

  /** However many hand-outs a rotation has made, no two variants' use differs by more than one. */
  lemma RotationIsBalanced(pool: seq<Question>, handed: seq<Question>, i: nat, j: nat)
    requires Distinct(pool) && Rotates(pool, handed) && i < |pool| && j < |pool|
    ensures CountOf(handed, pool[i]) <= CountOf(handed, pool[j]) + 1
  {
    RotationCounts(pool, handed, i);
    RotationCounts(pool, handed, j);
  }

  // ------------------------------------------------------------------------
  // Invites to a variant set
  // ------------------------------------------------------------------------

  /** One recipient, with the variant an override pins them to, if any. */
  datatype Recipient = Recipient(override: Option<Question>)

  /** The variant of each recipient; a pin does not consume a rotation slot. */
  function Dealt(pool: seq<Question>, cursor: nat, rs: seq<Recipient>): seq<Question>
    requires pool != []
    decreases rs
  {
    if rs == [] then []
    else if rs[0].override.Some? then [rs[0].override.value] + Dealt(pool, cursor, rs[1..])
    else [pool[cursor % |pool|]] + Dealt(pool, cursor + 1, rs[1..])
  }

  lemma DealNext(pool: seq<Question>, created: seq<Question>, cursor: nat, rs: seq<Recipient>, k: nat)
    requires pool != [] && k < |rs|
    ensures created + Dealt(pool, cursor, rs[k..]) ==
            if rs[k].override.Some? then created + [rs[k].override.value] + Dealt(pool, cursor, rs[k + 1..])
            else created + [pool[cursor % |pool|]] + Dealt(pool, cursor + 1, rs[k + 1..])
  {
    assert rs[k..][0] == rs[k] && rs[k..][1..] == rs[k + 1..];
  }

  datatype InviteResult = Sent(invites: seq<Question>) | EmptySet | NotInSet

  /** `create_variant_set_invites`: `sent` are the set's invites so far.  A bad pin rejects
      the whole batch. */
  method CreateInvites(pool: seq<Question>, sent: seq<Question>, rs: seq<Recipient>) returns (r: InviteResult)
    ensures r.EmptySet? <==> pool == []
    ensures r.NotInSet? <==> pool != [] && exists i :: 0 <= i < |rs| && rs[i].override.Some? && rs[i].override.value !in pool
    ensures r.Sent? ==> pool != [] && r.invites == sent + Dealt(pool, |sent|, rs)
  {
    if pool == [] { return EmptySet; }
    var cursor: nat := |sent|;
    var created := [];
    for k := 0 to |rs|
      invariant Dealt(pool, |sent|, rs) == created + Dealt(pool, cursor, rs[k..])
      invariant forall i | 0 <= i < k :: rs[i].override.Some? ==> rs[i].override.value in pool
    {
      var override := rs[k].override;
      DealNext(pool, created, cursor, rs, k);
      if override.Some? {
        if override.value !in pool {
          return NotInSet;
        }
        created := created + [override.value];
      } else {
        created := created + [pool[cursor % |pool|]];
        cursor := cursor + 1;
      }
    }
    assert rs[|rs|..] == [];
    return Sent(sent + created);
  }

  lemma {:induction false} DealingRotates(pool: seq<Question>, cursor: nat, rs: seq<Recipient>)
    requires pool != [] && forall i | 0 <= i < |rs| :: rs[i].override.None?
    ensures |Dealt(pool, cursor, rs)| == |rs|
    ensures forall k | 0 <= k < |rs| :: Dealt(pool, cursor, rs)[k] == pool[(cursor + k) % |pool|]
    decreases rs
  {
    if rs != [] {
      DealingRotates(pool, cursor + 1, rs[1..]);
      forall k | 0 <= k < |rs| ensures Dealt(pool, cursor, rs)[k] == pool[(cursor + k) % |pool|] {
        if k > 0 { assert Dealt(pool, cursor, rs)[k] == Dealt(pool, cursor + 1, rs[1..])[k - 1]; }
      }
    }
  }

  /** How many of the first `i` recipients have no pin. */
  function Unpinned(rs: seq<Recipient>, i: nat): nat requires i <= |rs| {
    if i == 0 then 0 else Unpinned(rs, i - 1) + if rs[i - 1].override.None? then 1 else 0
  }

  lemma {:induction false} UnpinnedFromTheFront(rs: seq<Recipient>, i: nat)
    requires 0 < i <= |rs|
    ensures Unpinned(rs, i) == Unpinned(rs[1..], i - 1) + if rs[0].override.None? then 1 else 0
  {
    if i > 1 { UnpinnedFromTheFront(rs, i - 1); }
  }

  /** Recipient by recipient: a pin gives its own question, and the others get the set's
      variants in turn, as many places on as there were unpinned recipients before them. */
  lemma {:induction false} DealtInPlaces(pool: seq<Question>, cursor: nat, rs: seq<Recipient>, i: nat)
    requires pool != [] && i < |rs|
    ensures |Dealt(pool, cursor, rs)| == |rs|
    ensures Dealt(pool, cursor, rs)[i] == if rs[i].override.Some? then rs[i].override.value
                                          else pool[(cursor + Unpinned(rs, i)) % |pool|]
    decreases rs
  {
    var first := if rs[0].override.Some? then 0 else 1;
    if |rs| > 1 { DealtInPlaces(pool, cursor + first, rs[1..], if i == 0 then 0 else i - 1); }
    if i > 0 { UnpinnedFromTheFront(rs, i); }
  }

  function Recipients(batches: seq<seq<Recipient>>): nat {
    if batches == [] then 0 else Recipients(batches[1..]) + |batches[0]|
  }

  lemma {:induction false} RecipientsSnoc(batches: seq<seq<Recipient>>)
    requires batches != []
    ensures Recipients(batches) == Recipients(batches[..|batches| - 1]) + |batches[|batches| - 1]|
  {
    if |batches| > 1 {
      RecipientsSnoc(batches[1..]);
      assert batches[1..][..|batches| - 2] == batches[..|batches| - 1][1..];
    }
  }

  /** The invites of a set after any number of calls without overrides. */
  function Calls(pool: seq<Question>, batches: seq<seq<Recipient>>): seq<Question>
    requires pool != []
  {
    if batches == [] then []
    else
      var sent := Calls(pool, batches[..|batches| - 1]);
      sent + Dealt(pool, |sent|, batches[|batches| - 1])
  }

  lemma RotationGoesOn(pool: seq<Question>, sent: seq<Question>, more: seq<Question>)
    requires Rotates(pool, sent) && forall k | 0 <= k < |more| :: more[k] == pool[(|sent| + k) % |pool|]
    ensures Rotates(pool, sent + more)
  {
    forall k | 0 <= k < |sent + more| ensures (sent + more)[k] == pool[k % |pool|] {
      if k >= |sent| { assert more[k - |sent|] == pool[(|sent| + (k - |sent|)) % |pool|]; }
    }
  }

  lemma {:induction false} EveryoneIsDealt(pool: seq<Question>, batches: seq<seq<Recipient>>)
    requires pool != []
    ensures |Calls(pool, batches)| == Recipients(batches)
  {
    if batches != [] {
      var last := batches[|batches| - 1];
      EveryoneIsDealt(pool, batches[..|batches| - 1]);
      if last != [] { DealtInPlaces(pool, |Calls(pool, batches[..|batches| - 1])|, last, 0); }
      RecipientsSnoc(batches);
    }
  }

  /** Repeated calls keep the whole set evenly used, not each call on its own. */
  lemma {:induction false} RepeatedCallsRotate(pool: seq<Question>, batches: seq<seq<Recipient>>)
    requires pool != []
    requires forall b: seq<Recipient> | b in batches :: forall i | 0 <= i < |b| :: b[i].override.None?
    ensures Rotates(pool, Calls(pool, batches)) && |Calls(pool, batches)| == Recipients(batches)
  {
    EveryoneIsDealt(pool, batches);
    if batches != [] {
      var init, last := batches[..|batches| - 1], batches[|batches| - 1];
      RepeatedCallsRotate(pool, init);
      assert last in batches;
      DealingRotates(pool, |Calls(pool, init)|, last);
      RotationGoesOn(pool, Calls(pool, init), Dealt(pool, |Calls(pool, init)|, last));
    }
  }

  // ------------------------------------------------------------------------
  // Variant slots of an assessment
  // ------------------------------------------------------------------------

  /** A candidate on an invite. */
  type Candidate = (nat, nat)

  type Slot = nat

  datatype Assignment = Assignment(who: Candidate, slot: Slot, question: Question)

  /** `variants` lists each slot's set in label order; a deleted question drops out. */
  datatype State = State(questions: set<Question>, rows: seq<Assignment>)

  type Sets = Slot -> seq<Question>

  datatype Resolution = Assigned(question: Question) | NoVariants | Broken

  function Existing(qs: seq<Question>, questions: set<Question>): seq<Question> {
    if qs == [] then []
    else if qs[0] in questions then [qs[0]] + Existing(qs[1..], questions)
    else Existing(qs[1..], questions)
  }

  /** The first row for this candidate and slot; the unique key makes it the only one. */
  function Find(rows: seq<Assignment>, who: Candidate, slot: Slot): Option<Question> {
    if rows == [] then None
    else if rows[0].who == who && rows[0].slot == slot then Some(rows[0].question)
    else Find(rows[1..], who, slot)
  }

  /** What a slot has handed out, in order. */
  function Handed(rows: seq<Assignment>, slot: Slot): seq<Question> {
    if rows == [] then []
    else
      var init, last := Handed(rows[..|rows| - 1], slot), rows[|rows| - 1];
      if last.slot == slot then init + [last.question] else init
  }

  function Chosen(sets: Sets, s: State, slot: Slot): Option<Question> {
    var pool := Existing(sets(slot), s.questions);
    if pool == [] then None else Some(pool[|Handed(s.rows, slot)| % |pool|])
  }

  /** What the candidate is given.  An assigned row whose question is gone would make the
      insert collide with the row it failed to use. */
  function Resolve(sets: Sets, s: State, who: Candidate, slot: Slot): Resolution {
    var row := Find(s.rows, who, slot);
    if row.Some? then if row.value in s.questions then Assigned(row.value) else Broken
    else match Chosen(sets, s, slot) case Some(q) => Assigned(q) case None => NoVariants
  }

  datatype Event =
    | Ask(who: Candidate, slot: Slot)
    | Delete(question: Question, guarded: bool)   // guarded: submissions, slots or activity refuse it
    | Erase(who: Candidate, tombstone: Candidate)

  predicate IsAssigned(rows: seq<Assignment>, q: Question) {
    exists i :: 0 <= i < |rows| && rows[i].question == q
  }

  function Renamed(rows: seq<Assignment>, who: Candidate, tombstone: Candidate): seq<Assignment> {
    seq(|rows|, i requires 0 <= i < |rows| => if rows[i].who == who then rows[i].(who := tombstone) else rows[i])
  }

  function Apply(sets: Sets, s: State, e: Event): State {
    match e
    case Ask(who, slot) =>
      if Find(s.rows, who, slot).Some? || Chosen(sets, s, slot).None? then s
      else s.(rows := s.rows + [Assignment(who, slot, Chosen(sets, s, slot).value)])
    case Delete(q, guarded) =>
      if guarded || IsAssigned(s.rows, q) then s else s.(questions := s.questions - {q})
    case Erase(who, tombstone) => s.(rows := Renamed(s.rows, who, tombstone))
  }

  function Run(sets: Sets, s: State, es: seq<Event>): State {
    if es == [] then s else Apply(sets, Run(sets, s, es[..|es| - 1]), es[|es| - 1])
  }

  lemma RunSnoc(sets: Sets, s: State, es: seq<Event>, e: Event)
    ensures Run(sets, s, es + [e]) == Apply(sets, Run(sets, s, es), e)
  {
    assert (es + [e])[..|es|] == es;
  }

  /** A question goes exactly when nothing refuses it and nobody was assigned it; an erasure
      puts the tombstone in the candidate's rows and keeps their slots and questions. */
  lemma DeletedOrRenamed(sets: Sets, s: State, q: Question, guarded: bool, who: Candidate, tombstone: Candidate)
    ensures Apply(sets, s, Delete(q, guarded)).rows == s.rows
    ensures Apply(sets, s, Delete(q, guarded)).questions
            == if !guarded && (forall i | 0 <= i < |s.rows| :: s.rows[i].question != q) then s.questions - {q} else s.questions
    ensures var after := Apply(sets, s, Erase(who, tombstone));
      && after.questions == s.questions && |after.rows| == |s.rows|
      && forall i | 0 <= i < |s.rows| ::
           after.rows[i] == Assignment(if s.rows[i].who == who then tombstone else s.rows[i].who, s.rows[i].slot, s.rows[i].question)
  {
  }

  lemma CountAppend(qs: seq<Question>, last: Question, q: Question)
    ensures CountOf(qs + [last], q) == CountOf(qs, q) + if last == q then 1 else 0
  {
    assert (qs + [last])[..|qs|] == qs;
  }

  /** What a slot has handed out is what its rows say: each question as often as they name it. */
  lemma {:induction false} HandedIsTheRows(rows: seq<Assignment>, slot: Slot, q: Question)
    ensures CountOf(Handed(rows, slot), q) == |set i | 0 <= i < |rows| && rows[i].slot == slot && rows[i].question == q|
  {
    if rows != [] {
      var init, n := rows[..|rows| - 1], |rows| - 1;
      HandedIsTheRows(init, slot, q);
      var before := set i | 0 <= i < |init| && init[i].slot == slot && init[i].question == q;
      var all := set i | 0 <= i < |rows| && rows[i].slot == slot && rows[i].question == q;
      if rows[n].slot == slot && rows[n].question == q {
        assert all == before + {n};
      } else {
        assert all == before;
      }
      if rows[n].slot == slot { CountAppend(Handed(init, slot), rows[n].question, q); }
    }
  }

  /** Every assigned variant still exists. */
  ghost predicate Kept(s: State) {
    forall i | 0 <= i < |s.rows| :: s.rows[i].question in s.questions
  }

  lemma {:induction false} ExistingExists(qs: seq<Question>, questions: set<Question>)
    ensures forall i | 0 <= i < |Existing(qs, questions)| :: Existing(qs, questions)[i] in questions
    ensures (forall q | q in qs :: q in questions) ==> Existing(qs, questions) == qs
  {
    if qs != [] {
      ExistingExists(qs[1..], questions);
      assert qs == [qs[0]] + qs[1..];
    }
  }

  lemma StepKeeps(sets: Sets, s: State, e: Event)
    requires Kept(s)
    ensures Kept(Apply(sets, s, e))
  {
    if e.Ask? { ExistingExists(sets(e.slot), s.questions); }
  }

  lemma {:induction false} RunKeeps(sets: Sets, s: State, es: seq<Event>)
    requires Kept(s)
    ensures Kept(Run(sets, s, es))
  {
    if es != [] {
      RunKeeps(sets, s, es[..|es| - 1]);
      StepKeeps(sets, Run(sets, s, es[..|es| - 1]), es[|es| - 1]);
    }
  }

  lemma {:induction false} FindAppend(rows: seq<Assignment>, a: Assignment, who: Candidate, slot: Slot)
    ensures Find(rows + [a], who, slot)
            == if Find(rows, who, slot).Some? then Find(rows, who, slot)
               else if a.who == who && a.slot == slot then Some(a.question) else None
  {
    if rows != [] {
      assert (rows + [a])[1..] == rows[1..] + [a];
      FindAppend(rows[1..], a, who, slot);
    }
  }

  lemma {:induction false} FindIsARow(rows: seq<Assignment>, who: Candidate, slot: Slot)
    requires Find(rows, who, slot).Some?
    ensures exists i :: 0 <= i < |rows| && rows[i].question == Find(rows, who, slot).value
  {
    if rows[0].who != who || rows[0].slot != slot {
      FindIsARow(rows[1..], who, slot);
      var i :| 0 <= i < |rows[1..]| && rows[1..][i].question == Find(rows, who, slot).value;
      assert rows[i + 1].question == Find(rows, who, slot).value;
    }
  }

  lemma {:induction false} RenamingOthers(rows: seq<Assignment>, other: Candidate, tombstone: Candidate, who: Candidate, slot: Slot)
    requires who != other && who != tombstone
    ensures Find(Renamed(rows, other, tombstone), who, slot) == Find(rows, who, slot)
  {
    if rows != [] {
      assert Renamed(rows, other, tombstone)[1..] == Renamed(rows[1..], other, tombstone);
      RenamingOthers(rows[1..], other, tombstone, who, slot);
    }
  }

  /** Once a candidate has a variant for a slot, every later resolution gives the same one,
      whatever is asked, deleted or erased for others in between -- and no resolution ever
      meets a deleted variant. */
  lemma {:induction false} VariantIsFrozen(sets: Sets, s: State, es: seq<Event>, who: Candidate, slot: Slot)
    requires Kept(s) && Find(s.rows, who, slot).Some?
    requires forall e | e in es :: e.Erase? ==> e.who != who && e.tombstone != who
    ensures Find(Run(sets, s, es).rows, who, slot) == Find(s.rows, who, slot)
    ensures Resolve(sets, Run(sets, s, es), who, slot) == Assigned(Find(s.rows, who, slot).value)
    ensures Resolve(sets, s, who, slot) == Assigned(Find(s.rows, who, slot).value)
  {
    FindIsARow(s.rows, who, slot);
    if es != [] {
      var init, e := es[..|es| - 1], es[|es| - 1];
      VariantIsFrozen(sets, s, init, who, slot);
      var mid := Run(sets, s, init);
      assert e in es;
      match e {
        case Ask(w, k) =>
          if Apply(sets, mid, e) != mid { FindAppend(mid.rows, Assignment(w, k, Chosen(sets, mid, k).value), who, slot); }
        case Delete(_, _) =>
        case Erase(other, tombstone) => RenamingOthers(mid.rows, other, tombstone, who, slot);
      }
      RunKeeps(sets, s, es);
      FindIsARow(Run(sets, s, es).rows, who, slot);
    }
  }

  lemma {:induction false} HandedIgnoresNames(rows: seq<Assignment>, who: Candidate, tombstone: Candidate, slot: Slot)
    ensures Handed(Renamed(rows, who, tombstone), slot) == Handed(rows, slot)
  {
    if rows != [] {
      var renamed := Renamed(rows, who, tombstone);
      assert renamed[..|rows| - 1] == Renamed(rows[..|rows| - 1], who, tombstone);
      HandedIgnoresNames(rows[..|rows| - 1], who, tombstone, slot);
    }
  }

  lemma StepRotates(sets: Sets, s: State, e: Event, slot: Slot)
    requires sets(slot) != [] && (forall q | q in sets(slot) :: q in s.questions) && Rotates(sets(slot), Handed(s.rows, slot))
    requires e.Delete? ==> e.question !in sets(slot)
    ensures forall q | q in sets(slot) :: q in Apply(sets, s, e).questions
    ensures Rotates(sets(slot), Handed(Apply(sets, s, e).rows, slot))
  {
    match e
    case Ask(_, k) =>
      var after := Apply(sets, s, e);
      if after != s {
        assert after.rows[..|after.rows| - 1] == s.rows;
        if k == slot { ExistingExists(sets(slot), s.questions); }
      }
    case Delete(_, _) =>
    case Erase(who, tombstone) => HandedIgnoresNames(s.rows, who, tombstone, slot);
  }

  /** With a fixed pool, a slot's hand-outs rotate over every run, erasures included. */
  lemma {:induction false} SlotRotates(sets: Sets, questions: set<Question>, es: seq<Event>, slot: Slot)
    requires sets(slot) != [] && forall q | q in sets(slot) :: q in questions
    requires forall e | e in es :: e.Delete? ==> e.question !in sets(slot)
    ensures forall q | q in sets(slot) :: q in Run(sets, State(questions, []), es).questions
    ensures Rotates(sets(slot), Handed(Run(sets, State(questions, []), es).rows, slot))
  {
    if es != [] {
      var init, e := es[..|es| - 1], es[|es| - 1];
      SlotRotates(sets, questions, init, slot);
      assert e in es;
      StepRotates(sets, Run(sets, State(questions, []), init), e, slot);
    }
  }

  /** So variant use counts for a slot differ by at most one after any number of candidates. */
  lemma SlotIsBalanced(sets: Sets, questions: set<Question>, es: seq<Event>, slot: Slot, i: nat, j: nat)
    requires Distinct(sets(slot)) && i < |sets(slot)| && j < |sets(slot)| && forall q | q in sets(slot) :: q in questions
    requires forall e | e in es :: e.Delete? ==> e.question !in sets(slot)
    ensures var handed := Handed(Run(sets, State(questions, []), es).rows, slot);
      CountOf(handed, sets(slot)[i]) <= CountOf(handed, sets(slot)[j]) + 1
  {
    SlotRotates(sets, questions, es, slot);
    RotationIsBalanced(sets(slot), Handed(Run(sets, State(questions, []), es).rows, slot), i, j);
  }

  /** The assignment table as `_resolve_slot_variant` changes it. */
  class SlotTable {
    var rows: seq<Assignment>

    constructor ()
      ensures rows == []
    {
      rows := [];
    }

    method ResolveSlot(sets: Sets, questions: set<Question>, who: Candidate, slot: Slot) returns (r: Resolution)
      modifies this
      ensures r == Resolve(sets, State(questions, old(rows)), who, slot)
      ensures rows == Apply(sets, State(questions, old(rows)), Ask(who, slot)).rows
      ensures r.Assigned? ==> Find(rows, who, slot) == Some(r.question)
    {
      var existing := Find(rows, who, slot);
      if existing.Some? {
        return if existing.value in questions then Assigned(existing.value) else Broken;
      }
      var pool := Existing(sets(slot), questions);
      if pool == [] { return NoVariants; }
      var chosen := pool[|Handed(rows, slot)| % |pool|];
      FindAppend(rows, Assignment(who, slot, chosen), who, slot);
      rows := rows + [Assignment(who, slot, chosen)];
      return Assigned(chosen);
    }
  }
}
