/**
Candidate erasure and retention: `assessment_platform/privacy.py`.

The candidate tables as maps from primary keys to rows.  Times are seconds.  A minted
tombstone is a parameter, assumed fresh.
*/
module Privacy {
  import opened Base

  type Email = string
  type OrgId = nat
  type InviteId = nat

  // ------------------------------------------------------------------------
  // Addresses
  // ------------------------------------------------------------------------

  function LowerChar(c: char): char {
    if 'A' <= c <= 'Z' then c - 'A' + 'a' else c
  }

  predicate IsSpace(c: char) {
    c in {' ', '\t', '\n', '\r'}
  }

  function Strip(s: string): string {
    if s != [] && IsSpace(s[0]) then Strip(s[1..])
    else if s != [] && IsSpace(s[|s| - 1]) then Strip(s[..|s| - 1])
    else s
  }

  /** `strip().lower()`, on ASCII. */
  function Normalize(e: Email): Email {
    var t := Strip(e);
    seq(|t|, i requires 0 <= i < |t| => LowerChar(t[i]))
  }

  predicate IsNormal(e: Email) {
    Normalize(e) == e
  }

  lemma {:induction false} StripIsBare(s: string)
    ensures Strip(s) == [] || (!IsSpace(Strip(s)[0]) && !IsSpace(Strip(s)[|Strip(s)| - 1]))
  {
    if s != [] && IsSpace(s[0]) { StripIsBare(s[1..]); }
    else if s != [] && IsSpace(s[|s| - 1]) { StripIsBare(s[..|s| - 1]); }
  }

  /** A stored address compares equal to itself however it was typed. */
  lemma NormalizeIsIdempotent(e: Email)
    ensures IsNormal(Normalize(e))
  {
    StripIsBare(e);
    var n := Normalize(e);
    assert forall c :: IsSpace(LowerChar(c)) <==> IsSpace(c);
    assert Strip(n) == n;
    assert forall i | 0 <= i < |n| :: LowerChar(n[i]) == n[i];
  }

  ghost predicate AllSpace(s: string) {
    forall i | 0 <= i < |s| :: s[i] == ' ' || s[i] == '\t' || s[i] == '\n' || s[i] == '\r'
  }

  lemma {:induction false} StripTakesTheMiddle(pre: string, mid: string, post: string)
    requires AllSpace(pre) && AllSpace(post) && (mid == [] || (!AllSpace(mid[..1]) && !AllSpace(mid[|mid| - 1..])))
    ensures Strip(pre + mid + post) == mid
    decreases |pre| + |post|
  {
    var s := pre + mid + post;
    if pre != [] {
      assert s[1..] == pre[1..] + mid + post;
      StripTakesTheMiddle(pre[1..], mid, post);
    } else if post != [] {
      var rest := post[..|post| - 1];
      assert s[..|s| - 1] == pre + mid + rest;
      StripTakesTheMiddle(pre, mid, rest);
      if mid == [] {
        assert s[1..] == pre + mid + post[1..];
        StripTakesTheMiddle(pre, mid, post[1..]);
      } else {
        assert s[0] == mid[..1][0];
      }
    } else {
      assert s == mid;
      if mid != [] { assert mid[0] == mid[..1][0] && mid[|mid| - 1] == mid[|mid| - 1..][0]; }
    }
  }

  /** An address compares by its letters alone: white space around it is dropped, capitals are
      the small letters 32 places on, and every other character stays. */
  lemma NormalizeInLetters(pre: string, mid: string, post: string)
    requires AllSpace(pre) && AllSpace(post) && (mid == [] || (!AllSpace(mid[..1]) && !AllSpace(mid[|mid| - 1..])))
    ensures var n := Normalize(pre + mid + post);
      |n| == |mid| && forall i | 0 <= i < |mid| ::
        n[i] as int == mid[i] as int + if 65 <= mid[i] as int && mid[i] as int <= 90 then 32 else 0
  {
    StripTakesTheMiddle(pre, mid, post);
  }

  const TombstoneDomain := "@erased.invalid"

  /** A minted tombstone; `.invalid` is reserved by section 2 of RFC 2606, so no candidate has one. */
  predicate IsTombstone(e: Email) {
    |e| >= |TombstoneDomain| && e[|e| - |TombstoneDomain|..] == TombstoneDomain
  }

  // ------------------------------------------------------------------------
  // Tables
  // ------------------------------------------------------------------------

  /** Every interviewer-facing field that survives erasure is in `rest`-like columns that
      no operation here touches: `startedAt`, `verdict`, `score`, slots and kinds. */
  datatype Submission = Submission(question: nat, invite: Option<InviteId>, email: Option<Email>, name: string, code: string)
  datatype Result = Result(verdict: string, score: real, reason: string, full: string)
  datatype Attempt = Attempt(invite: InviteId, email: Email, name: Option<string>, startedAt: int, erasedAt: Option<int>)
  datatype SlotRow = SlotRow(invite: InviteId, email: Email, slot: nat, question: nat)
  datatype Signal = Signal(invite: InviteId, email: Email, kind: string)
  datatype Draft = Draft(invite: InviteId, email: Email, question: nat, code: string)

  /** `deliveries` holds each log entry's recipient. */
  datatype Invite = Invite(
    question: Option<nat>,
    assessment: Option<nat>,
    recipients: seq<Email>,
    deliveries: seq<Email>,
    active: bool,
    expiresAt: Option<int>,
    duration: Option<int>,
    createdAt: int)

  datatype Db = Db(
    subs: map<nat, Submission>,
    results: map<nat, Result>,         // by submission
    attempts: map<nat, Attempt>,
    slotRows: map<nat, SlotRow>,
    signals: map<nat, Signal>,
    drafts: map<nat, Draft>,
    feedback: map<nat, nat>,           // feedback row -> attempt
    invites: map<InviteId, Invite>,
    questionOrg: map<nat, OrgId>,
    assessmentOrg: map<nat, OrgId>,
    retention: map<OrgId, Option<int>>)

  const ErasedText := "[erased]"
  const ErasedResult := "{\"erased\": true}"

  /** `org_invite_ids` */
  predicate InviteIn(db: Db, i: InviteId, org: OrgId) {
    && i in db.invites
    && var inv := db.invites[i];
    || (inv.question.Some? && inv.question.value in db.questionOrg && db.questionOrg[inv.question.value] == org)
    || (inv.assessment.Some? && inv.assessment.value in db.assessmentOrg && db.assessmentOrg[inv.assessment.value] == org)
  }

  function OrgInvites(db: Db, org: OrgId): set<InviteId> {
    set i | i in db.invites && InviteIn(db, i, org)
  }

  // ------------------------------------------------------------------------
  // Erasure of one address over a set of invites and submissions
  // ------------------------------------------------------------------------

  function Without(list: seq<Email>, drop: set<Email>): seq<Email> {
    if list == [] then []
    else if list[0] in drop then Without(list[1..], drop)
    else [list[0]] + Without(list[1..], drop)
  }

  function Scrubbed(inv: Invite, drop: set<Email>): Invite {
    inv.(recipients := Without(inv.recipients, drop), deliveries := Without(inv.deliveries, drop))
  }

  function ScrubbedIn(invites: map<InviteId, Invite>, ids: set<InviteId>, e: Email): map<InviteId, Invite> {
    map i | i in invites :: if i in ids then Scrubbed(invites[i], {e}) else invites[i]
  }

  function AmendedIn(invites: map<InviteId, Invite>, ids: set<InviteId>, e: Email): set<InviteId> {
    set i | i in invites && i in ids && (e in invites[i].recipients || e in invites[i].deliveries)
  }

  function ErasedSubmission(s: Submission, tombstone: Email): Submission {
    s.(name := ErasedText, email := Some(tombstone), code := "")
  }

  function ErasedAttempt(a: Attempt, tombstone: Email, now: int): Attempt {
    a.(email := tombstone, name := None, erasedAt := Some(now))
  }

  /** The attempt is the address's sitting on one of these invites. */
  predicate IsSitting(attempts: map<nat, Attempt>, a: nat, ids: set<InviteId>, e: Email) {
    a in attempts && attempts[a].invite in ids && attempts[a].email == e
  }

  // One function per statement of `_erase`: the table it leaves, given the tables its
  // condition reads.

  function BlankedResults(results: map<nat, Result>, subIds: set<nat>): map<nat, Result> {
    map s | s in results :: if s in subIds then results[s].(reason := ErasedText, full := ErasedResult) else results[s]
  }

  function AnonymousSubs(subs: map<nat, Submission>, subIds: set<nat>, tombstone: Email): map<nat, Submission> {
    map s | s in subs :: if s in subIds then ErasedSubmission(subs[s], tombstone) else subs[s]
  }

  function KeptFeedback(feedback: map<nat, nat>, attempts: map<nat, Attempt>, ids: set<InviteId>, e: Email): map<nat, nat> {
    map f | f in feedback && !IsSitting(attempts, feedback[f], ids, e) :: feedback[f]
  }

  function AnonymousAttempts(attempts: map<nat, Attempt>, ids: set<InviteId>, e: Email, tombstone: Email, now: int): map<nat, Attempt> {
    map a | a in attempts :: if IsSitting(attempts, a, ids, e) then ErasedAttempt(attempts[a], tombstone, now) else attempts[a]
  }

  function AnonymousSlotRows(rows: map<nat, SlotRow>, ids: set<InviteId>, e: Email, tombstone: Email): map<nat, SlotRow> {
    map v | v in rows :: if rows[v].invite in ids && rows[v].email == e then rows[v].(email := tombstone) else rows[v]
  }

  function AnonymousSignals(rows: map<nat, Signal>, ids: set<InviteId>, e: Email, tombstone: Email): map<nat, Signal> {
    map v | v in rows :: if rows[v].invite in ids && rows[v].email == e then rows[v].(email := tombstone) else rows[v]
  }

  function KeptDrafts(drafts: map<nat, Draft>, ids: set<InviteId>, e: Email): map<nat, Draft> {
    map d | d in drafts && !(drafts[d].invite in ids && drafts[d].email == e) :: drafts[d]
  }

  /** All of them at once, on the database as it was before the first. */
  function Erase(db: Db, e: Email, ids: set<InviteId>, subIds: set<nat>, tombstone: Email, now: int): Db {
    db.(
      subs := AnonymousSubs(db.subs, subIds, tombstone),
      results := BlankedResults(db.results, subIds),
      attempts := AnonymousAttempts(db.attempts, ids, e, tombstone, now),
      slotRows := AnonymousSlotRows(db.slotRows, ids, e, tombstone),
      signals := AnonymousSignals(db.signals, ids, e, tombstone),
      drafts := KeptDrafts(db.drafts, ids, e),
      feedback := KeptFeedback(db.feedback, db.attempts, ids, e),
      invites := ScrubbedIn(db.invites, ids, e))
  }

  /** Why the feedback goes first: once the attempts carry the tombstone, the condition that
      reaches feedback through them finds nothing. */
  lemma FeedbackMustGoFirst(db: Db, e: Email, ids: set<InviteId>, tombstone: Email, now: int, f: nat)
    requires f in db.feedback && tombstone != e
    ensures f in KeptFeedback(db.feedback, AnonymousAttempts(db.attempts, ids, e, tombstone, now), ids, e)
    ensures f in KeptFeedback(db.feedback, db.attempts, ids, e) <==> !IsSitting(db.attempts, db.feedback[f], ids, e)
  {
  }

  datatype Counts = Counts(
    submissions: nat, results: nat, attempts: nat, slotVariants: nat, signals: nat, drafts: nat, invites: nat, feedback: nat)

  const Untouched := Counts(0, 0, 0, 0, 0, 0, 0, 0)

  // The rows each statement touches.

  function RowsOf<T>(rows: map<nat, T>, ids: set<nat>): set<nat> {
    set s | s in rows && s in ids
  }

  function FeedbackOf(feedback: map<nat, nat>, attempts: map<nat, Attempt>, ids: set<InviteId>, e: Email): set<nat> {
    set f | f in feedback && IsSitting(attempts, feedback[f], ids, e)
  }

  function SittingsOf(attempts: map<nat, Attempt>, ids: set<InviteId>, e: Email): set<nat> {
    set a | a in attempts && IsSitting(attempts, a, ids, e)
  }

  function SlotRowsOf(rows: map<nat, SlotRow>, ids: set<InviteId>, e: Email): set<nat> {
    set v | v in rows && rows[v].invite in ids && rows[v].email == e
  }

  function SignalsOf(rows: map<nat, Signal>, ids: set<InviteId>, e: Email): set<nat> {
    set v | v in rows && rows[v].invite in ids && rows[v].email == e
  }

  function DraftsOf(drafts: map<nat, Draft>, ids: set<InviteId>, e: Email): set<nat> {
    set d | d in drafts && drafts[d].invite in ids && drafts[d].email == e
  }

  /** What the eight statements report. */
  function Touched(db: Db, e: Email, ids: set<InviteId>, subIds: set<nat>): Counts {
    Counts(|RowsOf(db.subs, subIds)|, |RowsOf(db.results, subIds)|, |SittingsOf(db.attempts, ids, e)|,
           |SlotRowsOf(db.slotRows, ids, e)|, |SignalsOf(db.signals, ids, e)|, |DraftsOf(db.drafts, ids, e)|,
           |AmendedIn(db.invites, ids, e)|, |FeedbackOf(db.feedback, db.attempts, ids, e)|)
  }

  // ------------------------------------------------------------------------
  // A data-subject request
  // ------------------------------------------------------------------------

  /** A submission of the organisation: by its question or by its invite. */
  predicate SubmissionIn(db: Db, s: Submission, org: OrgId) {
    || (s.question in db.questionOrg && db.questionOrg[s.question] == org)
    || (s.invite.Some? && InviteIn(db, s.invite.value, org))
  }

  function CandidateSubs(db: Db, org: OrgId, e: Email): set<nat> {
    set s | s in db.subs && db.subs[s].email == Some(e) && SubmissionIn(db, db.subs[s], org)
  }

  function EraseCandidate(db: Db, org: OrgId, e: Email, tombstone: Email, now: int): Db {
    Erase(db, e, OrgInvites(db, org), CandidateSubs(db, org, e), tombstone, now)
  }

  function CandidateCounts(db: Db, org: OrgId, e: Email): Counts {
    Touched(db, e, OrgInvites(db, org), CandidateSubs(db, org, e))
  }

  lemma {:induction false} WithoutDrops(list: seq<Email>, drop: set<Email>)
    ensures forall r :: r in Without(list, drop) <==> r in list && r !in drop
    ensures (forall r | r in list :: r !in drop) ==> Without(list, drop) == list
  {
    if list != [] {
      WithoutDrops(list[1..], drop);
      assert list == [list[0]] + list[1..];
    }
  }

  /** Nothing of the organisation holds the address. */
  ghost predicate Forgotten(db: Db, org: OrgId, e: Email) {
    && (forall s | s in db.subs && SubmissionIn(db, db.subs[s], org) :: db.subs[s].email != Some(e))
    && (forall a | a in db.attempts && InviteIn(db, db.attempts[a].invite, org) :: db.attempts[a].email != e)
    && (forall v | v in db.slotRows && InviteIn(db, db.slotRows[v].invite, org) :: db.slotRows[v].email != e)
    && (forall v | v in db.signals && InviteIn(db, db.signals[v].invite, org) :: db.signals[v].email != e)
    && (forall d | d in db.drafts && InviteIn(db, db.drafts[d].invite, org) :: db.drafts[d].email != e)
    && (forall i | i in db.invites && InviteIn(db, i, org) :: e !in db.invites[i].recipients && e !in db.invites[i].deliveries)
  }

  /** An invite's organisation is not touched by any erasure. */
  lemma EraseKeepsScope(db: Db, e: Email, ids: set<InviteId>, subIds: set<nat>, tombstone: Email, now: int, i: InviteId, org: OrgId)
    ensures InviteIn(Erase(db, e, ids, subIds, tombstone, now), i, org) <==> InviteIn(db, i, org)
  {
  }

  lemma ScrubbedListsForget(invites: map<InviteId, Invite>, ids: set<InviteId>, e: Email)
    ensures forall i | i in ids && i in invites ::
              e !in ScrubbedIn(invites, ids, e)[i].recipients && e !in ScrubbedIn(invites, ids, e)[i].deliveries
  {
    forall i | i in ids && i in invites
      ensures e !in ScrubbedIn(invites, ids, e)[i].recipients && e !in ScrubbedIn(invites, ids, e)[i].deliveries
    {
      WithoutDrops(invites[i].recipients, {e});
      WithoutDrops(invites[i].deliveries, {e});
    }
  }

  lemma ErasedRowsForget(db: Db, e: Email, ids: set<InviteId>, subIds: set<nat>, tombstone: Email, now: int)
    requires tombstone != e
    ensures var db' := Erase(db, e, ids, subIds, tombstone, now);
      && (forall s | s in db'.subs && s in subIds :: db'.subs[s].email == Some(tombstone))
      && (forall a | a in db'.attempts && db'.attempts[a].invite in ids :: db'.attempts[a].email != e)
      && (forall v | v in db'.slotRows && db'.slotRows[v].invite in ids :: db'.slotRows[v].email != e)
      && (forall v | v in db'.signals && db'.signals[v].invite in ids :: db'.signals[v].email != e)
      && (forall d | d in db'.drafts && db'.drafts[d].invite in ids :: db'.drafts[d].email != e)
  {
  }

  /** After the request no submission, attempt, slot variant, signal, draft or invite list
      of that organisation holds the address. */
  lemma ErasedCandidateIsForgotten(db: Db, org: OrgId, e: Email, tombstone: Email, now: int)
    requires tombstone != e
    ensures Forgotten(EraseCandidate(db, org, e, tombstone, now), org, e)
  {
    var db' := EraseCandidate(db, org, e, tombstone, now);
    forall i ensures InviteIn(db', i, org) <==> InviteIn(db, i, org) {
      EraseKeepsScope(db, e, OrgInvites(db, org), CandidateSubs(db, org, e), tombstone, now, i, org);
    }
    ErasedRowsForget(db, e, OrgInvites(db, org), CandidateSubs(db, org, e), tombstone, now);
    ScrubbedListsForget(db.invites, OrgInvites(db, org), e);
  }

  lemma OrgInvitesAre(db: Db, org: OrgId, i: InviteId)
    ensures i in OrgInvites(db, org) <==> InviteIn(db, i, org)
  {
  }

  /** Only the candidate's own rows change, and only the named columns.  Every changed row
      takes the same value in place of the address; verdicts, scores, clock starts and
      questions stay, as does everything of other candidates and organisations. */
  ghost predicate OnlyCandidateTouched(db: Db, db': Db, org: OrgId, e: Email, tombstone: Email, now: int) {
    && db'.subs.Keys == db.subs.Keys && db'.results.Keys == db.results.Keys && db'.attempts.Keys == db.attempts.Keys
    && (forall s | s in db.subs :: db'.subs[s] ==
          if s in CandidateSubs(db, org, e) then ErasedSubmission(db.subs[s], tombstone) else db.subs[s])
    && (forall s | s in db.results :: db'.results[s] ==
          if s in CandidateSubs(db, org, e) then Result(db.results[s].verdict, db.results[s].score, ErasedText, ErasedResult)
          else db.results[s])
    && (forall a | a in db.attempts :: db'.attempts[a] ==
          if db.attempts[a].email == e && InviteIn(db, db.attempts[a].invite, org)
          then ErasedAttempt(db.attempts[a], tombstone, now) else db.attempts[a])
  }

  lemma ErasureTouchesOnlyTheCandidate(db: Db, org: OrgId, e: Email, tombstone: Email, now: int)
    ensures OnlyCandidateTouched(db, EraseCandidate(db, org, e, tombstone, now), org, e, tombstone, now)
  {
    forall a | a in db.attempts
      ensures db.attempts[a].invite in OrgInvites(db, org) <==> InviteIn(db, db.attempts[a].invite, org)
    {
      OrgInvitesAre(db, org, db.attempts[a].invite);
    }
  }

  /** An invite of the organisation loses the address from both its lists and nothing else,
      with every other entry in its place; an invite of another organisation is as it was. */
  lemma ErasureScrubsOnlyTheAddress(db: Db, org: OrgId, e: Email, tombstone: Email, now: int, i: InviteId)
    requires i in db.invites
    ensures var after := EraseCandidate(db, org, e, tombstone, now).invites;
      && after.Keys == db.invites.Keys
      && (!InviteIn(db, i, org) ==> after[i] == db.invites[i])
      && after[i] == db.invites[i].(recipients := after[i].recipients, deliveries := after[i].deliveries)
      && (forall r | r != e :: multiset(after[i].recipients)[r] == multiset(db.invites[i].recipients)[r])
      && (forall r | r != e :: multiset(after[i].deliveries)[r] == multiset(db.invites[i].deliveries)[r])
  {
    OrgInvitesAre(db, org, i);
    forall r | r != e
      ensures multiset(Without(db.invites[i].recipients, {e}))[r] == multiset(db.invites[i].recipients)[r]
      ensures multiset(Without(db.invites[i].deliveries, {e}))[r] == multiset(db.invites[i].deliveries)[r]
    {
      WithoutKeepsCount(db.invites[i].recipients, {e}, r);
      WithoutKeepsCount(db.invites[i].deliveries, {e}, r);
    }
  }

  lemma {:induction false} WithoutKeepsCount(list: seq<Email>, drop: set<Email>, r: Email)
    requires r !in drop
    ensures multiset(Without(list, drop))[r] == multiset(list)[r]
  {
    if list != [] {
      WithoutKeepsCount(list[1..], drop, r);
      assert list == [list[0]] + list[1..];
    }
  }

  /** The rows without a grade: the shared value replaces the address, the slot, question and
      kind stay; drafts and feedback go exactly with the address. */
  lemma ErasureKeepsTraces(db: Db, org: OrgId, e: Email, tombstone: Email, now: int)
    ensures var db' := EraseCandidate(db, org, e, tombstone, now);
      && db'.slotRows.Keys == db.slotRows.Keys && db'.signals.Keys == db.signals.Keys
      && (forall v | v in db.slotRows :: db'.slotRows[v] ==
            if db.slotRows[v].email == e && InviteIn(db, db.slotRows[v].invite, org)
            then db.slotRows[v].(email := tombstone) else db.slotRows[v])
      && (forall v | v in db.signals :: db'.signals[v] ==
            if db.signals[v].email == e && InviteIn(db, db.signals[v].invite, org)
            then db.signals[v].(email := tombstone) else db.signals[v])
      && (forall d | d in db.drafts :: if db.drafts[d].email == e && InviteIn(db, db.drafts[d].invite, org)
            then d !in db'.drafts else d in db'.drafts && db'.drafts[d] == db.drafts[d])
      && (forall f | f in db.feedback :: if IsSitting(db.attempts, db.feedback[f], OrgInvites(db, org), e)
            then f !in db'.feedback else f in db'.feedback && db'.feedback[f] == db.feedback[f])
  {
    assert forall i :: i in OrgInvites(db, org) <==> InviteIn(db, i, org);
  }

  /** The organisation an invite belongs to, said of its columns. */
  ghost predicate PointsInto(db: Db, i: InviteId, org: OrgId) {
    i in db.invites
    && ((exists q :: db.invites[i].question == Some(q) && q in db.questionOrg && db.questionOrg[q] == org)
        || (exists a :: db.invites[i].assessment == Some(a) && a in db.assessmentOrg && db.assessmentOrg[a] == org))
  }

  /** Whose rows a request reaches: an attempt by its invite, a submission by its question as
      well, even one with no invite. */
  lemma RequestReaches(db: Db, org: OrgId, e: Email, tombstone: Email, now: int)
    requires tombstone != e
    ensures var db' := EraseCandidate(db, org, e, tombstone, now);
      && (forall a | a in db.attempts :: a in db'.attempts
            && (db'.attempts[a].email == e <==> db.attempts[a].email == e && !PointsInto(db, db.attempts[a].invite, org)))
      && (forall s | s in db.subs :: s in db'.subs
            && (db'.subs[s].email == Some(e) <==>
                  && db.subs[s].email == Some(e)
                  && !(db.subs[s].question in db.questionOrg && db.questionOrg[db.subs[s].question] == org)
                  && (db.subs[s].invite.None? || !PointsInto(db, db.subs[s].invite.value, org))))
  {
  }

  /** `uq_attempt_invite_candidate` */
  ghost predicate OneAttemptEach(attempts: map<nat, Attempt>) {
    forall a, b | a in attempts && b in attempts && attempts[a].invite == attempts[b].invite
                  && attempts[a].email == attempts[b].email :: a == b
  }

  /** The unique constraints of the candidate tables. */
  ghost predicate UniqueKeys(db: Db) {
    && OneAttemptEach(db.attempts)
    && (forall s, t | s in db.subs && t in db.subs && db.subs[s].invite.Some? && db.subs[s].email.Some?
                      && db.subs[s].invite == db.subs[t].invite && db.subs[s].email == db.subs[t].email
                      && db.subs[s].question == db.subs[t].question :: s == t)
    && (forall v, w | v in db.slotRows && w in db.slotRows && db.slotRows[v].invite == db.slotRows[w].invite
                      && db.slotRows[v].email == db.slotRows[w].email && db.slotRows[v].slot == db.slotRows[w].slot :: v == w)
    && (forall c, d | c in db.drafts && d in db.drafts && db.drafts[c].invite == db.drafts[d].invite
                      && db.drafts[c].email == db.drafts[d].email && db.drafts[c].question == db.drafts[d].question :: c == d)
  }

  /** No row holds this value where an address goes. */
  ghost predicate Fresh(db: Db, t: Email) {
    && (forall s | s in db.subs :: db.subs[s].email != Some(t))
    && (forall a | a in db.attempts :: db.attempts[a].email != t)
    && (forall v | v in db.slotRows :: db.slotRows[v].email != t)
    && (forall v | v in db.signals :: db.signals[v].email != t)
    && (forall d | d in db.drafts :: db.drafts[d].email != t)
  }

  /** A fresh tombstone keeps every unique key satisfied, on erasure of any scope. */
  lemma ErasureKeepsUniqueKeys(db: Db, e: Email, ids: set<InviteId>, subIds: set<nat>, tombstone: Email, now: int)
    requires UniqueKeys(db) && Fresh(db, tombstone)
    requires forall s | s in subIds && s in db.subs :: db.subs[s].email == Some(e)
    ensures UniqueKeys(Erase(db, e, ids, subIds, tombstone, now))
  {
  }

  /** Nothing in the scope holds the address. */
  ghost predicate Untouchable(db: Db, e: Email, ids: set<InviteId>) {
    && (forall a | a in db.attempts && db.attempts[a].invite in ids :: db.attempts[a].email != e)
    && (forall v | v in db.slotRows && db.slotRows[v].invite in ids :: db.slotRows[v].email != e)
    && (forall v | v in db.signals && db.signals[v].invite in ids :: db.signals[v].email != e)
    && (forall d | d in db.drafts && db.drafts[d].invite in ids :: db.drafts[d].email != e)
    && (forall i | i in db.invites && i in ids :: e !in db.invites[i].recipients && e !in db.invites[i].deliveries)
  }

  lemma UntouchableCountsNothing(db: Db, e: Email, ids: set<InviteId>)
    requires Untouchable(db, e, ids)
    ensures Touched(db, e, ids, {}) == Untouched
  {
    assert RowsOf(db.subs, {}) == {} && RowsOf(db.results, {}) == {} && SittingsOf(db.attempts, ids, e) == {};
    assert SlotRowsOf(db.slotRows, ids, e) == {} && SignalsOf(db.signals, ids, e) == {} && DraftsOf(db.drafts, ids, e) == {};
    assert AmendedIn(db.invites, ids, e) == {} && FeedbackOf(db.feedback, db.attempts, ids, e) == {};
  }

  lemma UntouchableStays(db: Db, e: Email, ids: set<InviteId>, tombstone: Email, now: int)
    requires Untouchable(db, e, ids)
    ensures Erase(db, e, ids, {}, tombstone, now) == db
  {
    forall i | i in db.invites && i in ids ensures Scrubbed(db.invites[i], {e}) == db.invites[i] {
      WithoutDrops(db.invites[i].recipients, {e});
      WithoutDrops(db.invites[i].deliveries, {e});
    }
    var db' := Erase(db, e, ids, {}, tombstone, now);
    assert db'.subs == db.subs && db'.results == db.results && db'.attempts == db.attempts;
    assert db'.slotRows == db.slotRows && db'.signals == db.signals && db'.drafts == db.drafts;
    assert db'.feedback == db.feedback && db'.invites == db.invites;
  }

  /** Once forgotten, another request for the same address has nothing to do and says so. */
  lemma RepeatReportsNothing(db: Db, org: OrgId, e: Email, tombstone: Email, now: int)
    requires Forgotten(db, org, e)
    ensures CandidateCounts(db, org, e) == Untouched
    ensures EraseCandidate(db, org, e, tombstone, now) == db
  {
    assert CandidateSubs(db, org, e) == {};
    UntouchableCountsNothing(db, e, OrgInvites(db, org));
    UntouchableStays(db, e, OrgInvites(db, org), tombstone, now);
  }
}
