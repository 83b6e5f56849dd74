/**
Deleting an organisation and an account: `_purge_org`, `_disown` and `_purge_account` in
`assessment_platform/api.py`, over the foreign keys of `assessment_platform/models.py`.
*/
module OrgPurge {
  import opened Base

  datatype Table =
    | AssessmentResult | Submission | CandidateFeedback | CandidateAttempt | CandidateSlotVariant
    | IntegrityEvent | CandidateDraft | Invite | AssessmentQuestion | Assessment | QuestionTestCase
    | Question | VariantSet | OrgInvite | OrgUsage | OrgAsset | Membership | Organization | Interviewer

  /** Foreign-key columns.  `Author` is owner_id, created_by or invited_by. */
  datatype Col =
    | OrgId | QuestionId | AssessmentId | VariantSetId | InviteId | AttemptId | SubmissionId | SlotId | Author | MemberId

  /** A row's identity: its table and primary key. */
  type Ref = (Table, nat)

  /** The foreign keys that are not null; `admin` is the role of a membership. */
  datatype Row = Row(cols: map<Col, nat>, admin: bool)

  type Db = map<Ref, Row>

  function Target(c: Col): Table {
    match c
    case OrgId => Organization
    case QuestionId => Question
    case AssessmentId => Assessment
    case VariantSetId => VariantSet
    case InviteId => Invite
    case AttemptId => CandidateAttempt
    case SubmissionId => Submission
    case SlotId => AssessmentQuestion
    case Author => Interviewer
    case MemberId => Interviewer
  }

  function Required(t: Table): set<Col> {
    match t
    case AssessmentResult => {SubmissionId}
    case Submission => {QuestionId}
    case CandidateFeedback => {OrgId, AttemptId}
    case CandidateAttempt => {InviteId}
    case CandidateSlotVariant => {InviteId, SlotId, QuestionId}
    case IntegrityEvent => {InviteId}
    case CandidateDraft => {InviteId, QuestionId}
    case Invite => {}
    case AssessmentQuestion => {AssessmentId}
    case QuestionTestCase => {QuestionId}
    case Assessment => {OrgId}
    case Question => {OrgId}
    case VariantSet => {OrgId}
    case OrgInvite => {OrgId}
    case OrgUsage => {OrgId}
    case OrgAsset => {OrgId}
    case Membership => {OrgId, MemberId}
    case Organization => {}
    case Interviewer => {}
  }

  function Nullable(t: Table): set<Col> {
    match t
    case Submission => {InviteId}
    case IntegrityEvent => {QuestionId}
    case Invite => {QuestionId, AssessmentId, VariantSetId, Author}
    case AssessmentQuestion => {QuestionId, VariantSetId}
    case Question => {VariantSetId, Author}
    case Assessment => {Author}
    case VariantSet => {Author}
    case OrgInvite => {Author}
    case Membership => {Author}
    case _ => {}
  }

  // ------------------------------------------------------------------------
  // The purge: ordered deletes with subqueries
  // ------------------------------------------------------------------------

  predicate HasValue(db: Db, r: Ref, c: Col, v: nat) {
    r in db && c in db[r].cols && db[r].cols[c] == v
  }

  predicate InOrg(db: Db, t: Table, id: nat, org: nat) {
    HasValue(db, (t, id), OrgId, org)
  }

  /** `question_ids` and `assessment_ids` */
  predicate OfQuestion(db: Db, r: Ref, org: nat) {
    r in db && QuestionId in db[r].cols && InOrg(db, Question, db[r].cols[QuestionId], org)
  }

  predicate OfAssessment(db: Db, r: Ref, org: nat) {
    r in db && AssessmentId in db[r].cols && InOrg(db, Assessment, db[r].cols[AssessmentId], org)
  }

  /** `invite_ids`: reached through the question or the assessment, never through the sender. */
  predicate InviteOf(db: Db, id: nat, org: nat) {
    OfQuestion(db, (Invite, id), org) || OfAssessment(db, (Invite, id), org)
  }

  predicate OfInvite(db: Db, r: Ref, org: nat) {
    r in db && InviteId in db[r].cols && InviteOf(db, db[r].cols[InviteId], org)
  }

  predicate SubmissionOf(db: Db, id: nat, org: nat) {
    OfQuestion(db, (Submission, id), org) || OfInvite(db, (Submission, id), org)
  }

  /** The WHERE clause of each delete, evaluated on the database as it is then. */
  predicate Condemned(db: Db, r: Ref, org: nat) {
    match r.0
    case AssessmentResult => r in db && SubmissionId in db[r].cols && SubmissionOf(db, db[r].cols[SubmissionId], org)
    case Submission => SubmissionOf(db, r.1, org)
    case CandidateFeedback => InOrg(db, r.0, r.1, org)
    case CandidateAttempt => OfInvite(db, r, org)
    case CandidateSlotVariant => OfInvite(db, r, org)
    case IntegrityEvent => OfInvite(db, r, org)
    case CandidateDraft => OfInvite(db, r, org)
    case Invite => InviteOf(db, r.1, org)
    case AssessmentQuestion => OfAssessment(db, r, org)
    case QuestionTestCase => OfQuestion(db, r, org)
    case Organization => r.1 == org
    case Interviewer => false
    case _ => InOrg(db, r.0, r.1, org)
  }

  const DeleteOrder: seq<Table> :=
    [AssessmentResult, Submission, CandidateFeedback, CandidateAttempt, CandidateSlotVariant, IntegrityEvent,
     CandidateDraft, Invite, AssessmentQuestion, Assessment, QuestionTestCase, Question, VariantSet, OrgInvite,
     OrgUsage, OrgAsset, Membership, Organization]

  /** The place of a table in that order. */
  function Rank(t: Table): nat {
    match t
    case AssessmentResult => 0
    case Submission => 1
    case CandidateFeedback => 2
    case CandidateAttempt => 3
    case CandidateSlotVariant => 4
    case IntegrityEvent => 5
    case CandidateDraft => 6
    case Invite => 7
    case AssessmentQuestion => 8
    case Assessment => 9
    case QuestionTestCase => 10
    case Question => 11
    case VariantSet => 12
    case OrgInvite => 13
    case OrgUsage => 14
    case OrgAsset => 15
    case Membership => 16
    case Organization => 17
    case Interviewer => 18
  }

  lemma RankIsPosition(k: nat, t: Table)
    requires k < |DeleteOrder|
    ensures DeleteOrder[k] == t <==> Rank(t) == k
  {
  }

  function DeleteFrom(db: Db, t: Table, org: nat): Db {
    map r | r in db && !(r.0 == t && Condemned(db, r, org)) :: db[r]
  }

  // ------------------------------------------------------------------------
  // What the database must look like
  // ------------------------------------------------------------------------

  predicate RowWellFormed(t: Table, row: Row) {
    && Required(t) <= row.cols.Keys <= Required(t) + Nullable(t)
    && (t == Invite ==> QuestionId in row.cols || AssessmentId in row.cols)
  }

  ghost predicate WellFormed(db: Db) {
    forall r {:trigger RowWellFormed(r.0, db[r])} | r in db :: RowWellFormed(r.0, db[r])
  }

  /** The row a foreign key points at. */
  function Parent(db: Db, r: Ref, c: Col): Ref
    requires r in db && c in db[r].cols
  {
    (Target(c), db[r].cols[c])
  }

  predicate Anchored(db: Db, r: Ref, c: Col) requires r in db && c in db[r].cols {
    Parent(db, r, c) in db
  }

  /** No foreign key dangles. */
  ghost predicate NoDangling(db: Db) {
    forall r, c {:trigger Anchored(db, r, c)} | r in db && c in db[r].cols :: Anchored(db, r, c)
  }

  ghost predicate StaysInside(db: Db, owner: Ref -> nat, r: Ref, c: Col) requires r in db && c in db[r].cols {
    Target(c) != Interviewer ==> owner(Parent(db, r, c)) == owner(r)
  }

  /** Each row belongs to one organisation, and its keys stay inside it. */
  ghost predicate ClosedUnder(db: Db, owner: Ref -> nat) {
    && (forall id | (Organization, id) in db :: owner((Organization, id)) == id)
    && forall r, c {:trigger StaysInside(db, owner, r, c)} | r in db && c in db[r].cols :: StaysInside(db, owner, r, c)
  }

  ghost predicate Sound(db: Db, owner: Ref -> nat) {
    WellFormed(db) && NoDangling(db) && ClosedUnder(db, owner)
  }

  /** The database once the first `k` deletes are done. */
  ghost function Without(db: Db, owner: Ref -> nat, org: nat, k: nat): Db {
    map r | r in db && !(owner(r) == org && Rank(r.0) < k && r.0 != Interviewer) :: db[r]
  }

  /** Children are deleted before the rows they point at. */
  lemma ChildrenFirst(t: Table, c: Col)
    requires c in Required(t) + Nullable(t)
    ensures Rank(t) < Rank(Target(c))
  {
  }

  lemma NeverDangles(db: Db, owner: Ref -> nat, org: nat, k: nat)
    requires Sound(db, owner)
    ensures NoDangling(Without(db, owner, org, k))
  {
    var left := Without(db, owner, org, k);
    forall r, c | r in left && c in left[r].cols ensures Anchored(left, r, c) {
      assert RowWellFormed(r.0, db[r]) && Anchored(db, r, c) && StaysInside(db, owner, r, c);
      ChildrenFirst(r.0, c);
      assert Parent(left, r, c) == Parent(db, r, c);
    }
  }

  // ------------------------------------------------------------------------
  // Every delete hits exactly the organisation's rows
  // ------------------------------------------------------------------------

  /** What the subqueries rely on for one row while the first `k` tables are being emptied:
      the rows it points at in later tables are still there, and every org_id names its owner. */
  ghost predicate RowReady(d: Db, owner: Ref -> nat, k: nat, r: Ref) requires r in d {
    && Required(r.0) <= d[r].cols.Keys
    && (r.0 == Invite ==> QuestionId in d[r].cols || AssessmentId in d[r].cols)
    && (r.0 == Organization ==> owner(r) == r.1)
    && (OrgId in d[r].cols ==> d[r].cols[OrgId] == owner(r))
    && forall c | c in d[r].cols && Target(c) != Interviewer && k <= Rank(Target(c)) ::
         Parent(d, r, c) in d && owner(Parent(d, r, c)) == owner(r)
  }

  ghost predicate Ready(d: Db, owner: Ref -> nat, k: nat) {
    forall r {:trigger RowReady(d, owner, k, r)} | r in d :: RowReady(d, owner, k, r)
  }

  lemma OrgIdNamesOwner(db: Db, owner: Ref -> nat, r: Ref)
    requires NoDangling(db) && ClosedUnder(db, owner) && r in db && OrgId in db[r].cols
    ensures db[r].cols[OrgId] == owner(r)
  {
    assert Anchored(db, r, OrgId) && StaysInside(db, owner, r, OrgId);
    assert Parent(db, r, OrgId) == (Organization, db[r].cols[OrgId]);
  }

  lemma SubqueriesReady(db: Db, owner: Ref -> nat, org: nat, k: nat)
    requires Sound(db, owner)
    ensures Ready(Without(db, owner, org, k), owner, k)
  {
    var d := Without(db, owner, org, k);
    forall r | r in d ensures RowReady(d, owner, k, r) {
      assert RowWellFormed(r.0, db[r]);
      if OrgId in db[r].cols { OrgIdNamesOwner(db, owner, r); }
      if r.0 == Organization { assert r == (Organization, r.1); }
      forall c | c in d[r].cols && Target(c) != Interviewer && k <= Rank(Target(c))
        ensures Anchored(d, r, c) && owner(Parent(d, r, c)) == owner(r)
      {
        assert Anchored(db, r, c) && StaysInside(db, owner, r, c);
        assert Parent(d, r, c) == Parent(db, r, c);
      }
    }
  }

  lemma OfQuestionIsOwner(d: Db, owner: Ref -> nat, org: nat, k: nat, r: Ref)
    requires Ready(d, owner, k) && k <= Rank(Question) && r in d && QuestionId in d[r].cols
    ensures OfQuestion(d, r, org) <==> owner(r) == org
  {
    assert RowReady(d, owner, k, r) && Anchored(d, r, QuestionId);
    assert RowReady(d, owner, k, Parent(d, r, QuestionId));
  }

  lemma OfAssessmentIsOwner(d: Db, owner: Ref -> nat, org: nat, k: nat, r: Ref)
    requires Ready(d, owner, k) && k <= Rank(Assessment) && r in d && AssessmentId in d[r].cols
    ensures OfAssessment(d, r, org) <==> owner(r) == org
  {
    assert RowReady(d, owner, k, r) && Anchored(d, r, AssessmentId);
    assert RowReady(d, owner, k, Parent(d, r, AssessmentId));
  }

  lemma InviteIsOwner(d: Db, owner: Ref -> nat, org: nat, k: nat, id: nat)
    requires Ready(d, owner, k) && k <= Rank(Invite) && (Invite, id) in d
    ensures InviteOf(d, id, org) <==> owner((Invite, id)) == org
  {
    var r: Ref := (Invite, id);
    assert RowReady(d, owner, k, r);
    if QuestionId in d[r].cols { OfQuestionIsOwner(d, owner, org, k, r); }
    if AssessmentId in d[r].cols { OfAssessmentIsOwner(d, owner, org, k, r); }
  }

  lemma OfInviteIsOwner(d: Db, owner: Ref -> nat, org: nat, k: nat, r: Ref)
    requires Ready(d, owner, k) && k <= Rank(Invite) && r in d && InviteId in d[r].cols
    ensures OfInvite(d, r, org) <==> owner(r) == org
  {
    assert RowReady(d, owner, k, r) && Anchored(d, r, InviteId);
    InviteIsOwner(d, owner, org, k, Parent(d, r, InviteId).1);
  }

  lemma SubmissionIsOwner(d: Db, owner: Ref -> nat, org: nat, k: nat, id: nat)
    requires Ready(d, owner, k) && k <= Rank(Submission) && (Submission, id) in d
    ensures SubmissionOf(d, id, org) <==> owner((Submission, id)) == org
  {
    var r: Ref := (Submission, id);
    assert RowReady(d, owner, k, r);
    OfQuestionIsOwner(d, owner, org, k, r);
    if InviteId in d[r].cols { OfInviteIsOwner(d, owner, org, k, r); }
  }

  lemma CondemnedIsOwned(d: Db, owner: Ref -> nat, org: nat, r: Ref)
    requires Ready(d, owner, Rank(r.0)) && r.0 != Interviewer && r in d
    ensures Condemned(d, r, org) <==> owner(r) == org
  {
    var k := Rank(r.0);
    assert RowReady(d, owner, k, r);
    match r.0
    case AssessmentResult =>
      assert Anchored(d, r, SubmissionId);
      SubmissionIsOwner(d, owner, org, k, Parent(d, r, SubmissionId).1);
    case Submission => SubmissionIsOwner(d, owner, org, k, r.1);
    case CandidateAttempt => OfInviteIsOwner(d, owner, org, k, r);
    case CandidateSlotVariant => OfInviteIsOwner(d, owner, org, k, r);
    case IntegrityEvent => OfInviteIsOwner(d, owner, org, k, r);
    case CandidateDraft => OfInviteIsOwner(d, owner, org, k, r);
    case Invite => InviteIsOwner(d, owner, org, k, r.1);
    case AssessmentQuestion => OfAssessmentIsOwner(d, owner, org, k, r);
    case QuestionTestCase => OfQuestionIsOwner(d, owner, org, k, r);
    case _ =>
  }

  lemma DeleteTable(db: Db, owner: Ref -> nat, org: nat, t: Table)
    requires Sound(db, owner) && t != Interviewer
    ensures DeleteFrom(Without(db, owner, org, Rank(t)), t, org) == Without(db, owner, org, Rank(t) + 1)
  {
    var before := Without(db, owner, org, Rank(t));
    assert forall r | r in before && r.0 == t :: Condemned(before, r, org) <==> owner(r) == org by {
      SubqueriesReady(db, owner, org, Rank(t));
      forall r | r in before && r.0 == t ensures Condemned(before, r, org) <==> owner(r) == org {
        CondemnedIsOwned(before, owner, org, r);
      }
    }
    DropsExactly(db, owner, org, t, DeleteFrom(before, t, org));
  }

  lemma DropsExactly(db: Db, owner: Ref -> nat, org: nat, t: Table, after: Db)
    requires t != Interviewer
    requires var before := Without(db, owner, org, Rank(t));
      && (forall r | r in before :: r in after <==> r.0 != t || owner(r) != org)
      && (forall r | r in after :: r in before && after[r] == before[r])
    ensures after == Without(db, owner, org, Rank(t) + 1)
  {
    forall r | r in db ensures r in after <==> r in Without(db, owner, org, Rank(t) + 1) {
      RankIsInjective(t, r.0);
    }
  }

  lemma RankIsInjective(t: Table, u: Table)
    ensures Rank(t) == Rank(u) <==> t == u
  {
  }

  /** The database after the first `k` statements of the purge. */
  function AfterDeletes(db: Db, org: nat, k: nat): Db requires k <= |DeleteOrder| {
    if k == 0 then db else DeleteFrom(AfterDeletes(db, org, k - 1), DeleteOrder[k - 1], org)
  }

  lemma NextDelete(db: Db, owner: Ref -> nat, org: nat, k: nat)
    requires Sound(db, owner) && k < |DeleteOrder|
    ensures DeleteFrom(Without(db, owner, org, k), DeleteOrder[k], org) == Without(db, owner, org, k + 1)
  {
    var t := DeleteOrder[k];
    RankIsPosition(k, t);
    LastRank(t);
    DeleteTable(db, owner, org, t);
  }

  lemma OneMoreDelete(db: Db, org: nat, k: nat)
    requires k < |DeleteOrder|
    ensures AfterDeletes(db, org, k + 1) == DeleteFrom(AfterDeletes(db, org, k), DeleteOrder[k], org)
  {
  }

  lemma NextPrefixIsExact(db: Db, owner: Ref -> nat, org: nat, k: nat)
    requires Sound(db, owner) && k < |DeleteOrder| && AfterDeletes(db, org, k) == Without(db, owner, org, k)
    ensures AfterDeletes(db, org, k + 1) == Without(db, owner, org, k + 1)
  {
    OneMoreDelete(db, org, k);
    NextDelete(db, owner, org, k);
  }

  lemma {:induction false} EveryPrefixIsExact(db: Db, owner: Ref -> nat, org: nat, k: nat)
    requires Sound(db, owner) && k <= |DeleteOrder|
    ensures AfterDeletes(db, org, k) == Without(db, owner, org, k)
  {
    if k == 0 {
      NothingDeletedYet(db, owner, org);
    } else {
      var n: nat := k - 1;
      EveryPrefixIsExact(db, owner, org, n);
      NextPrefixIsExact(db, owner, org, n);
      assert k == n + 1;
    }
  }

  /** After every prefix of the ordered deletes, each with its subqueries evaluated on the
      database of that moment, exactly the organisation's rows of those tables are gone and
      no foreign key dangles. */
  lemma EveryPrefixIsSafe(db: Db, owner: Ref -> nat, org: nat, k: nat)
    requires Sound(db, owner) && k <= |DeleteOrder|
    ensures AfterDeletes(db, org, k) == Without(db, owner, org, k)
    ensures NoDangling(AfterDeletes(db, org, k))
  {
    EveryPrefixIsExact(db, owner, org, k);
    NeverDangles(db, owner, org, k);
  }

  lemma NothingDeletedYet(db: Db, owner: Ref -> nat, org: nat)
    ensures AfterDeletes(db, org, 0) == Without(db, owner, org, 0)
  {
    assert Without(db, owner, org, 0) == db;
  }

  /** At the end no row of the organisation remains and every other row is as it was. */
  lemma PurgeRemovesExactlyTheOrganisation(db: Db, owner: Ref -> nat, org: nat)
    requires Sound(db, owner)
    ensures var left := AfterDeletes(db, org, |DeleteOrder|);
      && (forall r | r in db :: r in left <==> r.0 == Interviewer || owner(r) != org)
      && (forall r | r in left :: r in db && left[r] == db[r])
  {
    EveryPrefixIsSafe(db, owner, org, |DeleteOrder|);
    EveryTableIsPurged(db, owner, org);
  }

  // ------------------------------------------------------------------------
  // The store
  // ------------------------------------------------------------------------

  class Store {
    var rows: Db

    constructor (rows: Db)
      ensures this.rows == rows
    {
      this.rows := rows;
    }

    /** The ordered deletes, one statement after the other. */
    method PurgeOrg(org: nat)
      modifies this
      ensures rows == AfterDeletes(old(rows), org, |DeleteOrder|)
    {
      for k := 0 to |DeleteOrder|
        invariant rows == AfterDeletes(old(rows), org, k)
      {
        rows := DeleteFrom(rows, DeleteOrder[k], org);
      }
    }

    /** `_disown`: one UPDATE per table that names an author. */
    method Disown(person: nat)
      requires WellFormed(rows)
      modifies this
      ensures rows == Disowned(old(rows), person)
    {
      for k := 0 to |AuthoredTables|
        invariant rows == DisownedIn(old(rows), AuthoredTables[..k], person)
      {
        DisownOneMore(old(rows), AuthoredTables[..k], AuthoredTables[k], person);
        rows := DisownTable(rows, AuthoredTables[k], person);
        assert AuthoredTables[..k + 1] == AuthoredTables[..k] + [AuthoredTables[k]];
      }
      assert AuthoredTables[..|AuthoredTables|] == AuthoredTables;
      AllAuthorsCovered(old(rows), person);
    }

    method FindSeat(person: nat) returns (seat: Option<Ref>)
      requires OneSeatEach(rows)
      ensures IsTheSeat(rows, person, seat)
    {
      seat := None;
      if exists m :: m in rows && IsSeat(rows, m, person) {
        var m: Ref :| m in rows && IsSeat(rows, m, person);
        seat := Some(m);
      }
    }

    /** The organisation with its last member, or the seat alone. */
    method Vacate(person: nat, seat: Option<Ref>, ghost owner: Ref -> nat)
      requires Sound(rows, owner) && IsTheSeat(rows, person, seat)
      modifies this
      ensures rows == Vacated(old(rows), owner, seat)
    {
      ghost var before := rows;
      if seat.Some? && !Shared(rows, seat.value) {
        SoleSeatTakesAll(before, owner, person, seat.value);
        PurgeOrg(rows[seat.value].cols[OrgId]);
      } else {
        SharedSeatGoesAlone(before, owner, person, seat);
        rows := Seatless(rows, person);
      }
    }

    /** `_purge_account`: refused exactly for the last admin of an organisation that others
        are still in; otherwise the person is gone, nothing refers to them on either branch,
        and no foreign key dangles.  The organisation goes only with its last member: while
        anyone else has a seat in it, in whatever role, every other row stays and loses at most
        the person's name. */
    method PurgeAccount(person: nat, ghost owner: Ref -> nat) returns (done: bool, seat: Option<Ref>)
      requires Sound(rows, owner) && OneSeatEach(rows)
      modifies this
      ensures IsTheSeat(old(rows), person, seat)
      ensures done <==> !(seat.Some? && Shared(old(rows), seat.value) && LastAdmin(old(rows), seat.value))
      ensures !done ==> rows == old(rows)
      ensures done ==> rows == Forgotten(Vacated(old(rows), owner, seat), person)
      ensures done ==> (Interviewer, person) !in rows && !Mentions(rows, person) && NoDangling(rows)
      ensures !done <==>
                && seat.Some? && (exists n :: Colleague(old(rows), seat.value, n)) && old(rows)[seat.value].admin
                && forall n | Colleague(old(rows), seat.value, n) :: !old(rows)[n].admin
      ensures done && seat.Some? ==> OrgId in old(rows)[seat.value].cols
      ensures done ==> forall r ::
                && (r in rows ==> r in old(rows) && SameButAuthor(old(rows)[r], rows[r]))
                && (r in rows <==> r in old(rows) && r != (Interviewer, person) && seat != Some(r)
                                   && !(seat.Some? && (forall n :: !Colleague(old(rows), seat.value, n))
                                        && r.0 != Interviewer && owner(r) == old(rows)[seat.value].cols[OrgId]))
    {
      seat := FindSeat(person);
      if seat.Some? {
        SharedMeansColleague(rows, person, seat.value);
        LastAdminMeansNoOther(rows, person, seat.value);
        SeatIsOwned(rows, owner, seat.value, person);
      }
      if seat.Some? && Shared(rows, seat.value) && LastAdmin(rows, seat.value) {
        return false, seat;
      }
      VacatedLeavesNoTrace(rows, owner, person, seat);
      forall r: Ref { DeletionSpares(rows, owner, person, seat, r); }
      Vacate(person, seat, owner);
      Disown(person);
      rows := rows - {(Interviewer, person)};
      done := true;
    }
  }

  // ------------------------------------------------------------------------
  // Accounts
  // ------------------------------------------------------------------------

  const AuthoredTables: seq<Table> := [Question, VariantSet, Assessment, Invite, OrgInvite, Membership]

  function WithoutAuthor(row: Row, person: nat): Row {
    if Author in row.cols && row.cols[Author] == person then row.(cols := row.cols - {Author}) else row
  }

  function Disowned(db: Db, person: nat): Db {
    map r | r in db :: WithoutAuthor(db[r], person)
  }

  function DisownedIn(db: Db, tables: seq<Table>, person: nat): Db {
    map r | r in db :: if r.0 in tables then WithoutAuthor(db[r], person) else db[r]
  }

  /** One UPDATE. */
  function DisownTable(db: Db, t: Table, person: nat): Db {
    map r | r in db :: if r.0 == t then WithoutAuthor(db[r], person) else db[r]
  }

  lemma DisownOneMore(db: Db, tables: seq<Table>, t: Table, person: nat)
    ensures DisownTable(DisownedIn(db, tables, person), t, person) == DisownedIn(db, tables + [t], person)
  {
  }

  lemma OnlyTheseHaveAuthors(t: Table)
    ensures Author in Required(t) + Nullable(t) ==> t in AuthoredTables
  {
  }

  lemma AllAuthorsCovered(db: Db, person: nat)
    requires WellFormed(db)
    ensures DisownedIn(db, AuthoredTables, person) == Disowned(db, person)
  {
    forall r | r in db && r.0 !in AuthoredTables ensures WithoutAuthor(db[r], person) == db[r] {
      assert RowWellFormed(r.0, db[r]);
      OnlyTheseHaveAuthors(r.0);
    }
  }

  predicate IsSeat(db: Db, m: Ref, person: nat) {
    m.0 == Membership && HasValue(db, m, MemberId, person)
  }

  /** `uq_membership_interviewer` */
  ghost predicate OneSeatEach(db: Db) {
    forall m, n, person | IsSeat(db, m, person) && IsSeat(db, n, person) :: m == n
  }

  /** Someone else is in the seat's organisation. */
  predicate Shared(db: Db, m: Ref) requires m in db {
    OrgId in db[m].cols && MemberId in db[m].cols
    && exists n :: n in db && n.0 == Membership && HasValue(db, n, OrgId, db[m].cols[OrgId])
                   && MemberId in db[n].cols && db[n].cols[MemberId] != db[m].cols[MemberId]
  }

  predicate LastAdmin(db: Db, m: Ref) requires m in db {
    db[m].admin && OrgId in db[m].cols
    && |set n | n in db && n.0 == Membership && HasValue(db, n, OrgId, db[m].cols[OrgId]) && db[n].admin| <= 1
  }

  /** Another membership of the seat's organisation. */
  ghost predicate Colleague(db: Db, seat: Ref, n: Ref) {
    && seat in db && n in db && n != seat && n.0 == Membership
    && OrgId in db[seat].cols && OrgId in db[n].cols && db[n].cols[OrgId] == db[seat].cols[OrgId]
  }

  /** The rows differ at most in that one of them names no author. */
  ghost predicate SameButAuthor(before: Row, after: Row) {
    && after.admin == before.admin
    && (forall c | c != Author :: (c in after.cols <==> c in before.cols) && (c in before.cols ==> after.cols[c] == before.cols[c]))
    && (Author in after.cols ==> Author in before.cols && after.cols[Author] == before.cols[Author])
  }

  /** Nobody else's membership is the person's. */
  lemma ColleagueIsSomeoneElse(db: Db, person: nat, seat: Ref, n: Ref)
    requires WellFormed(db) && OneSeatEach(db) && IsSeat(db, seat, person) && Colleague(db, seat, n)
    ensures MemberId in db[n].cols && db[n].cols[MemberId] != db[seat].cols[MemberId]
  {
    assert RowWellFormed(n.0, db[n]);
    assert !IsSeat(db, n, person);
  }

  lemma SharedMeansColleague(db: Db, person: nat, seat: Ref)
    requires WellFormed(db) && OneSeatEach(db) && IsSeat(db, seat, person)
    ensures Shared(db, seat) <==> exists n :: Colleague(db, seat, n)
  {
    assert RowWellFormed(seat.0, db[seat]);
    if Shared(db, seat) {
      var n :| n in db && n.0 == Membership && HasValue(db, n, OrgId, db[seat].cols[OrgId])
               && MemberId in db[n].cols && db[n].cols[MemberId] != db[seat].cols[MemberId];
      assert Colleague(db, seat, n);
    }
    if n :| Colleague(db, seat, n) { ColleagueIsSomeoneElse(db, person, seat, n); }
  }

  lemma LastAdminMeansNoOther(db: Db, person: nat, seat: Ref)
    requires WellFormed(db) && IsSeat(db, seat, person)
    ensures LastAdmin(db, seat) <==> db[seat].admin && forall n | Colleague(db, seat, n) :: !db[n].admin
  {
    assert RowWellFormed(seat.0, db[seat]);
    var org := db[seat].cols[OrgId];
    var admins := set n | n in db && n.0 == Membership && HasValue(db, n, OrgId, org) && db[n].admin;
    if db[seat].admin {
      assert seat in admins && |admins| == |admins - {seat}| + 1;
      assert |admins| <= 1 <==> admins - {seat} == {};
      forall n ensures n in admins - {seat} <==> Colleague(db, seat, n) && db[n].admin { }
    }
  }

  /** What an account's deletion leaves, said of the rows themselves. */
  lemma DeletionSpares(db: Db, owner: Ref -> nat, person: nat, seat: Option<Ref>, r: Ref)
    requires Sound(db, owner) && OneSeatEach(db) && IsTheSeat(db, person, seat)
    requires seat.Some? ==> seat.value in db && OrgId in db[seat.value].cols
    ensures var after := Forgotten(Vacated(db, owner, seat), person);
      && (r in after ==> r in db && SameButAuthor(db[r], after[r]))
      && (r in after <==> r in db && r != (Interviewer, person) && seat != Some(r)
                          && !(seat.Some? && (forall n :: !Colleague(db, seat.value, n))
                               && r.0 != Interviewer && owner(r) == db[seat.value].cols[OrgId]))
  {
    if seat.Some? {
      assert IsSeat(db, seat.value, person);
      SharedMeansColleague(db, person, seat.value);
      SeatIsOwned(db, owner, seat.value, person);
    }
  }

  ghost predicate Mentions(db: Db, person: nat) {
    exists r, c :: r in db && c in db[r].cols && Target(c) == Interviewer && db[r].cols[c] == person
  }

  lemma SeatIsOwned(db: Db, owner: Ref -> nat, m: Ref, person: nat)
    requires Sound(db, owner) && IsSeat(db, m, person)
    ensures OrgId in db[m].cols && owner(m) == db[m].cols[OrgId]
  {
    assert RowWellFormed(m.0, db[m]);
    OrgIdNamesOwner(db, owner, m);
  }

  ghost predicate IsTheSeat(db: Db, person: nat, seat: Option<Ref>) {
    forall m :: IsSeat(db, m, person) <==> seat == Some(m)
  }

  /** The rows that go with a seat: the seat and -- when nobody else has one -- everything
      its organisation owns. */
  ghost predicate GoesWithSeat(db: Db, owner: Ref -> nat, seat: Option<Ref>, r: Ref) {
    && seat.Some?
    && (r == seat.value
        || (seat.value in db && !Shared(db, seat.value) && r.0 != Interviewer && owner(r) == owner(seat.value)))
  }

  ghost function Vacated(db: Db, owner: Ref -> nat, seat: Option<Ref>): Db {
    map r | r in db && !GoesWithSeat(db, owner, seat, r) :: db[r]
  }

  function Seatless(db: Db, person: nat): Db {
    map r | r in db && !IsSeat(db, r, person) :: db[r]
  }

  lemma SoleSeatTakesAll(db: Db, owner: Ref -> nat, person: nat, seat: Ref)
    requires Sound(db, owner) && IsSeat(db, seat, person) && !Shared(db, seat)
    ensures OrgId in db[seat].cols
    ensures AfterDeletes(db, db[seat].cols[OrgId], |DeleteOrder|) == Vacated(db, owner, Some(seat))
  {
    SeatIsOwned(db, owner, seat, person);
    var org := db[seat].cols[OrgId];
    forall r: Ref ensures GoesWithSeat(db, owner, Some(seat), r) <==> r.0 != Interviewer && owner(r) == org {
    }
    EveryTableIsPurged(db, owner, org);
    EveryPrefixIsSafe(db, owner, org, |DeleteOrder|);
  }

  lemma EveryTableIsPurged(db: Db, owner: Ref -> nat, org: nat)
    ensures Without(db, owner, org, |DeleteOrder|) == map r | r in db && !(r.0 != Interviewer && owner(r) == org) :: db[r]
  {
    forall t: Table ensures Rank(t) < |DeleteOrder| <==> t != Interviewer { LastRank(t); }
  }

  lemma LastRank(t: Table)
    ensures Rank(t) < |DeleteOrder| <==> t != Interviewer
  {
  }

  lemma SharedSeatGoesAlone(db: Db, owner: Ref -> nat, person: nat, seat: Option<Ref>)
    requires IsTheSeat(db, person, seat) && (seat.Some? ==> seat.value in db && Shared(db, seat.value))
    ensures Seatless(db, person) == Vacated(db, owner, seat)
  {
    forall r | r in db ensures IsSeat(db, r, person) <==> GoesWithSeat(db, owner, seat, r) {
    }
  }

  lemma SeatlessKeepsParents(db: Db, person: nat)
    requires NoDangling(db)
    ensures NoDangling(Seatless(db, person))
  {
    var left := Seatless(db, person);
    forall r, c | r in left && c in left[r].cols ensures Anchored(left, r, c) {
      assert Anchored(db, r, c);
      assert Parent(left, r, c) == Parent(db, r, c) && Target(c) != Membership;
    }
  }

  lemma VacatedNeverDangles(db: Db, owner: Ref -> nat, person: nat, seat: Option<Ref>)
    requires Sound(db, owner) && IsTheSeat(db, person, seat)
    ensures NoDangling(Vacated(db, owner, seat))
  {
    if seat.Some? {
      assert IsSeat(db, seat.value, person);
      if !Shared(db, seat.value) {
        SoleSeatTakesAll(db, owner, person, seat.value);
        EveryPrefixIsSafe(db, owner, db[seat.value].cols[OrgId], |DeleteOrder|);
        return;
      }
    }
    SharedSeatGoesAlone(db, owner, person, seat);
    SeatlessKeepsParents(db, person);
  }

  lemma VacatedLeavesNoTrace(db: Db, owner: Ref -> nat, person: nat, seat: Option<Ref>)
    requires Sound(db, owner) && IsTheSeat(db, person, seat)
    ensures WellFormed(Vacated(db, owner, seat))
    ensures !Mentions(Forgotten(Vacated(db, owner, seat), person), person)
    ensures NoDangling(Forgotten(Vacated(db, owner, seat), person))
  {
    var left := Vacated(db, owner, seat);
    VacatedNeverDangles(db, owner, person, seat);
    forall r | r in left ensures !IsSeat(left, r, person) {
      assert IsSeat(db, r, person) <==> seat == Some(r);
    }
    PartKeepsShape(db, left);
    UnmentionedCanGo(left, person);
  }

  lemma OnlySeatsHaveMembers(t: Table)
    ensures MemberId in Required(t) + Nullable(t) ==> t == Membership
  {
  }

  /** The person's name is taken off every row and their own row is deleted. */
  function Forgotten(db: Db, person: nat): Db {
    Disowned(db, person) - {(Interviewer, person)}
  }

  lemma PartKeepsShape(before: Db, left: Db)
    requires WellFormed(before) && forall r | r in left :: r in before && left[r] == before[r]
    ensures WellFormed(left)
  {
    forall r | r in left ensures RowWellFormed(r.0, left[r]) { assert RowWellFormed(r.0, before[r]); }
  }

  lemma KeptKeyIsAnchored(left: Db, person: nat, r: Ref, c: Col)
    requires r in Forgotten(left, person) && c in Forgotten(left, person)[r].cols
    requires RowWellFormed(r.0, left[r]) && Anchored(left, r, c) && !IsSeat(left, r, person)
    ensures Anchored(Forgotten(left, person), r, c)
    ensures Target(c) == Interviewer ==> Forgotten(left, person)[r].cols[c] != person
  {
    KeptKeyIsSafe(left, person, r, c);
    assert Parent(Forgotten(left, person), r, c) == Parent(left, r, c);
  }

  /** Once no seat is left and no author named, deleting the person's own row is safe. */
  lemma UnmentionedCanGo(left: Db, person: nat)
    requires WellFormed(left) && NoDangling(left)
    requires forall r | r in left :: !IsSeat(left, r, person)
    ensures !Mentions(Forgotten(left, person), person)
    ensures NoDangling(Forgotten(left, person))
  {
    var after := Forgotten(left, person);
    forall r, c | r in after && c in after[r].cols
      ensures Anchored(after, r, c)
      ensures Target(c) == Interviewer ==> after[r].cols[c] != person
    {
      assert RowWellFormed(r.0, left[r]) && Anchored(left, r, c);
      KeptKeyIsAnchored(left, person, r, c);
    }
  }

  lemma KeptKeyIsSafe(left: Db, person: nat, r: Ref, c: Col)
    requires r in left && c in WithoutAuthor(left[r], person).cols && Parent(left, r, c) in left
    requires !IsSeat(left, r, person) && left[r].cols.Keys <= Required(r.0) + Nullable(r.0)
    ensures Target(c) == Interviewer ==> left[r].cols[c] != person
    ensures WithoutAuthor(left[r], person).cols[c] == left[r].cols[c]
  {
    OnlySeatsHaveMembers(r.0);
  }
}
