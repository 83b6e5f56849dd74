/** The retention purge of `assessment_platform/privacy.py`. */
module Retention {
  import opened Base
  import opened Privacy

  /** The unit retention expires: one candidate's sitting on one invite. */
  type Sitting = (InviteId, Email)

  /** The tombstone each erased sitting gets. */
  type Mint = Sitting -> Email

  const Day := 86_400

  /** The organisation of an invite, which points at one question or one assessment. */
  function OrgOf(db: Db, i: InviteId): Option<OrgId> {
    if i !in db.invites then None
    else
      var inv := db.invites[i];
      if inv.question.Some? then
        if inv.question.value in db.questionOrg then Some(db.questionOrg[inv.question.value]) else None
      else if inv.assessment.Some? && inv.assessment.value in db.assessmentOrg
      then Some(db.assessmentOrg[inv.assessment.value]) else None
  }

  ghost predicate OneTarget(db: Db) {
    forall i | i in db.invites :: db.invites[i].question.None? || db.invites[i].assessment.None?
  }

  lemma OrgOfIsScope(db: Db, i: InviteId, org: OrgId)
    requires OneTarget(db)
    ensures InviteIn(db, i, org) <==> OrgOf(db, i) == Some(org)
  {
  }

  /** Older than the window of an organisation in `orgs`; no window, or none above zero, keeps everything. */
  predicate PastWindow(db: Db, orgs: set<OrgId>, i: InviteId, moment: int, now: int) {
    var org := OrgOf(db, i);
    org.Some? && org.value in orgs && org.value in db.retention
    && db.retention[org.value].Some? && db.retention[org.value].value > 0
    && moment < now - db.retention[org.value].value * Day
  }

  predicate ExpiredAttempt(db: Db, orgs: set<OrgId>, a: Attempt, now: int) {
    a.erasedAt.None? && PastWindow(db, orgs, a.invite, a.startedAt, now)
  }

  /** `expired_sittings`, for a set of organisations. */
  function Expired(db: Db, orgs: set<OrgId>, now: int): set<Sitting> {
    set a | a in db.attempts && ExpiredAttempt(db, orgs, db.attempts[a], now) :: (db.attempts[a].invite, db.attempts[a].email)
  }

  // ------------------------------------------------------------------------
  // Erasing sittings one after the other is erasing them together
  // ------------------------------------------------------------------------

  function SittingSubs(db: Db, k: Sitting): set<nat> {
    set s | s in db.subs && db.subs[s].invite == Some(k.0) && db.subs[s].email == Some(k.1)
  }

  /** `erase_sitting` */
  function EraseSitting(db: Db, k: Sitting, tombstone: Email, now: int): Db {
    Erase(db, k.1, {k.0}, SittingSubs(db, k), tombstone, now)
  }

  predicate SubIn(s: Submission, ks: set<Sitting>) {
    s.invite.Some? && s.email.Some? && (s.invite.value, s.email.value) in ks
  }

  function EraseSubs(subs: map<nat, Submission>, ks: set<Sitting>, mint: Mint): map<nat, Submission> {
    map s | s in subs ::
      if SubIn(subs[s], ks) then ErasedSubmission(subs[s], mint((subs[s].invite.value, subs[s].email.value))) else subs[s]
  }

  function EraseResults(results: map<nat, Result>, subs: map<nat, Submission>, ks: set<Sitting>): map<nat, Result> {
    map s | s in results ::
      if s in subs && SubIn(subs[s], ks) then results[s].(reason := ErasedText, full := ErasedResult) else results[s]
  }

  function EraseAttempts(attempts: map<nat, Attempt>, ks: set<Sitting>, mint: Mint, now: int): map<nat, Attempt> {
    map a | a in attempts ::
      if (attempts[a].invite, attempts[a].email) in ks
      then ErasedAttempt(attempts[a], mint((attempts[a].invite, attempts[a].email)), now) else attempts[a]
  }

  function EraseSlotRows(rows: map<nat, SlotRow>, ks: set<Sitting>, mint: Mint): map<nat, SlotRow> {
    map v | v in rows ::
      if (rows[v].invite, rows[v].email) in ks then rows[v].(email := mint((rows[v].invite, rows[v].email))) else rows[v]
  }

  function EraseSignals(rows: map<nat, Signal>, ks: set<Sitting>, mint: Mint): map<nat, Signal> {
    map v | v in rows ::
      if (rows[v].invite, rows[v].email) in ks then rows[v].(email := mint((rows[v].invite, rows[v].email))) else rows[v]
  }

  function EraseDrafts(drafts: map<nat, Draft>, ks: set<Sitting>): map<nat, Draft> {
    map d | d in drafts && (drafts[d].invite, drafts[d].email) !in ks :: drafts[d]
  }

  function EraseFeedback(feedback: map<nat, nat>, attempts: map<nat, Attempt>, ks: set<Sitting>): map<nat, nat> {
    map f | f in feedback && !(feedback[f] in attempts && (attempts[feedback[f]].invite, attempts[feedback[f]].email) in ks)
      :: feedback[f]
  }

  function Addresses(ks: set<Sitting>, i: InviteId): set<Email> {
    set k | k in ks && k.0 == i :: k.1
  }

  function EraseInvites(invites: map<InviteId, Invite>, ks: set<Sitting>): map<InviteId, Invite> {
    map i | i in invites :: Scrubbed(invites[i], Addresses(ks, i))
  }

  function EraseAll(db: Db, ks: set<Sitting>, mint: Mint, now: int): Db {
    db.(
      subs := EraseSubs(db.subs, ks, mint),
      results := EraseResults(db.results, db.subs, ks),
      attempts := EraseAttempts(db.attempts, ks, mint, now),
      slotRows := EraseSlotRows(db.slotRows, ks, mint),
      signals := EraseSignals(db.signals, ks, mint),
      drafts := EraseDrafts(db.drafts, ks),
      feedback := EraseFeedback(db.feedback, db.attempts, ks),
      invites := EraseInvites(db.invites, ks))
  }

  /** No tombstone is one of the addresses being erased. */
  ghost predicate Tombstones(ks: set<Sitting>, mint: Mint) {
    forall j, k | j in ks && k in ks :: mint(j) != k.1
  }

  lemma {:induction false} WithoutTwice(list: seq<Email>, a: set<Email>, b: set<Email>)
    ensures Without(Without(list, a), b) == Without(list, a + b)
  {
    if list != [] {
      WithoutTwice(list[1..], a, b);
      if list[0] !in a { assert ([list[0]] + Without(list[1..], a))[1..] == Without(list[1..], a); }
    }
  }

  lemma ScrubNone(inv: Invite)
    ensures Scrubbed(inv, {}) == inv
  {
    WithoutDrops(inv.recipients, {});
    WithoutDrops(inv.deliveries, {});
  }

  lemma SubsOfOne(db: Db, k: Sitting, mint: Mint, now: int)
    ensures EraseSitting(db, k, mint(k), now).subs == EraseSubs(db.subs, {k}, mint)
  {
    forall s | s in db.subs ensures SubIn(db.subs[s], {k}) <==> s in SittingSubs(db, k) {
    }
  }

  lemma ResultsOfOne(db: Db, k: Sitting, mint: Mint, now: int)
    ensures EraseSitting(db, k, mint(k), now).results == EraseResults(db.results, db.subs, {k})
  {
    forall s | s in db.results ensures (s in db.subs && SubIn(db.subs[s], {k})) <==> s in SittingSubs(db, k) {
    }
  }

  lemma InvitesOfOne(db: Db, k: Sitting, mint: Mint, now: int)
    ensures EraseSitting(db, k, mint(k), now).invites == EraseInvites(db.invites, {k})
  {
    forall i | i in db.invites ensures (if i in {k.0} then Scrubbed(db.invites[i], {k.1}) else db.invites[i])
                                       == Scrubbed(db.invites[i], Addresses({k}, i)) {
      if i == k.0 {
        assert Addresses({k}, i) == {k.1};
      } else {
        assert Addresses({k}, i) == {};
        ScrubNone(db.invites[i]);
      }
    }
  }

  lemma AttemptsOfOne(db: Db, k: Sitting, mint: Mint, now: int)
    ensures EraseSitting(db, k, mint(k), now).attempts == EraseAttempts(db.attempts, {k}, mint, now)
  {
  }

  lemma DraftsOfOne(db: Db, k: Sitting, mint: Mint, now: int)
    ensures EraseSitting(db, k, mint(k), now).drafts == EraseDrafts(db.drafts, {k})
  {
  }

  lemma TracesOfOne(db: Db, k: Sitting, mint: Mint, now: int)
    ensures EraseSitting(db, k, mint(k), now).slotRows == EraseSlotRows(db.slotRows, {k}, mint)
    ensures EraseSitting(db, k, mint(k), now).signals == EraseSignals(db.signals, {k}, mint)
  {
  }

  lemma FeedbackOfOne(db: Db, k: Sitting, mint: Mint, now: int)
    ensures EraseSitting(db, k, mint(k), now).feedback == EraseFeedback(db.feedback, db.attempts, {k})
  {
  }

  lemma EraseSittingIsOne(db: Db, k: Sitting, mint: Mint, now: int)
    ensures EraseSitting(db, k, mint(k), now) == EraseAll(db, {k}, mint, now)
  {
    SubsOfOne(db, k, mint, now);
    ResultsOfOne(db, k, mint, now);
    AttemptsOfOne(db, k, mint, now);
    TracesOfOne(db, k, mint, now);
    DraftsOfOne(db, k, mint, now);
    FeedbackOfOne(db, k, mint, now);
    InvitesOfOne(db, k, mint, now);
  }

  lemma ScrubNobody(invites: map<InviteId, Invite>)
    ensures EraseInvites(invites, {}) == invites
  {
    forall i | i in invites ensures EraseInvites(invites, {})[i] == invites[i] {
      assert Addresses({}, i) == {};
      ScrubNone(invites[i]);
    }
  }

  lemma EraseNone(db: Db, mint: Mint, now: int)
    ensures EraseAll(db, {}, mint, now) == db
  {
    ScrubNobody(db.invites);
    assert EraseSubs(db.subs, {}, mint) == db.subs && EraseResults(db.results, db.subs, {}) == db.results;
    assert EraseAttempts(db.attempts, {}, mint, now) == db.attempts;
    assert EraseFeedback(db.feedback, db.attempts, {}) == db.feedback;
    assert EraseSlotRows(db.slotRows, {}, mint) == db.slotRows && EraseSignals(db.signals, {}, mint) == db.signals;
    assert EraseDrafts(db.drafts, {}) == db.drafts;
  }

  lemma SubsAgain(subs: map<nat, Submission>, results: map<nat, Result>, ks: set<Sitting>, js: set<Sitting>, mint: Mint)
    requires Tombstones(ks + js, mint)
    ensures EraseSubs(EraseSubs(subs, ks, mint), js, mint) == EraseSubs(subs, ks + js, mint)
    ensures EraseResults(EraseResults(results, subs, ks), EraseSubs(subs, ks, mint), js) == EraseResults(results, subs, ks + js)
  {
  }

  lemma AttemptsAgain(attempts: map<nat, Attempt>, feedback: map<nat, nat>, ks: set<Sitting>, js: set<Sitting>, mint: Mint, now: int)
    requires Tombstones(ks + js, mint)
    ensures EraseAttempts(EraseAttempts(attempts, ks, mint, now), js, mint, now) == EraseAttempts(attempts, ks + js, mint, now)
    ensures EraseFeedback(EraseFeedback(feedback, attempts, ks), EraseAttempts(attempts, ks, mint, now), js)
            == EraseFeedback(feedback, attempts, ks + js)
  {
  }

  lemma TracesAgain(rows: map<nat, SlotRow>, signals: map<nat, Signal>, ks: set<Sitting>, js: set<Sitting>, mint: Mint)
    requires Tombstones(ks + js, mint)
    ensures EraseSlotRows(EraseSlotRows(rows, ks, mint), js, mint) == EraseSlotRows(rows, ks + js, mint)
    ensures EraseSignals(EraseSignals(signals, ks, mint), js, mint) == EraseSignals(signals, ks + js, mint)
  {
  }

  lemma InvitesAgain(invites: map<InviteId, Invite>, ks: set<Sitting>, js: set<Sitting>)
    ensures EraseInvites(EraseInvites(invites, ks), js) == EraseInvites(invites, ks + js)
  {
    forall i | i in invites
      ensures Scrubbed(Scrubbed(invites[i], Addresses(ks, i)), Addresses(js, i)) == Scrubbed(invites[i], Addresses(ks + js, i))
    {
      assert Addresses(ks + js, i) == Addresses(ks, i) + Addresses(js, i);
      WithoutTwice(invites[i].recipients, Addresses(ks, i), Addresses(js, i));
      WithoutTwice(invites[i].deliveries, Addresses(ks, i), Addresses(js, i));
    }
  }

  /** Erasing some sittings and then others is erasing them all at once. */
  lemma EraseAgain(db: Db, ks: set<Sitting>, js: set<Sitting>, mint: Mint, now: int)
    requires Tombstones(ks + js, mint)
    ensures EraseAll(EraseAll(db, ks, mint, now), js, mint, now) == EraseAll(db, ks + js, mint, now)
  {
    SubsAgain(db.subs, db.results, ks, js, mint);
    AttemptsAgain(db.attempts, db.feedback, ks, js, mint, now);
    TracesAgain(db.slotRows, db.signals, ks, js, mint);
    InvitesAgain(db.invites, ks, js);
    assert EraseDrafts(EraseDrafts(db.drafts, ks), js) == EraseDrafts(db.drafts, ks + js);
  }

  // ------------------------------------------------------------------------
  // Shedding addresses from old invitations
  // ------------------------------------------------------------------------

  /** The addresses with an un-erased sitting on this invite. */
  function Live(attempts: map<nat, Attempt>, i: InviteId): set<Email> {
    set a | a in attempts && attempts[a].invite == i && attempts[a].erasedAt.None? :: Normalize(attempts[a].email)
  }

  function KeepLive(list: seq<Email>, live: set<Email>): seq<Email> {
    if list == [] then []
    else if Normalize(list[0]) in live then [list[0]] + KeepLive(list[1..], live)
    else KeepLive(list[1..], live)
  }

  function Trimmed(inv: Invite, live: set<Email>): Invite {
    inv.(recipients := KeepLive(inv.recipients, live), deliveries := KeepLive(inv.deliveries, live))
  }

  /** The invitations older than their organisation's window. */
  function Stale(db: Db, orgs: set<OrgId>, now: int): set<InviteId> {
    set i | i in db.invites && PastWindow(db, orgs, i, db.invites[i].createdAt, now)
  }

  function TrimmedIn(invites: map<InviteId, Invite>, attempts: map<nat, Attempt>, ids: set<InviteId>): map<InviteId, Invite> {
    map i | i in invites :: if i in ids then Trimmed(invites[i], Live(attempts, i)) else invites[i]
  }

  /** `_expire_invite_recipients`, for a set of organisations. */
  function Trim(db: Db, orgs: set<OrgId>, now: int): Db {
    db.(invites := map i | i in db.invites ::
          if PastWindow(db, orgs, i, db.invites[i].createdAt, now) then Trimmed(db.invites[i], Live(db.attempts, i))
          else db.invites[i])
  }

  /** `purge_expired`, for a set of organisations. */
  function Purged(db: Db, orgs: set<OrgId>, mint: Mint, now: int): Db {
    Trim(EraseAll(db, Expired(db, orgs, now), mint, now), orgs, now)
  }

  lemma {:induction false} KeepLiveKeeps(list: seq<Email>, live: set<Email>)
    ensures forall r :: r in KeepLive(list, live) <==> r in list && Normalize(r) in live
    ensures (forall r | r in list :: Normalize(r) in live) ==> KeepLive(list, live) == list
  {
    if list != [] {
      KeepLiveKeeps(list[1..], live);
      assert list == [list[0]] + list[1..];
    }
  }

  /** No step of the purge moves an invite to another organisation or re-dates it. */
  ghost predicate SameScope(d: Db, d': Db) {
    && d'.questionOrg == d.questionOrg && d'.assessmentOrg == d.assessmentOrg && d'.retention == d.retention
    && d'.invites.Keys == d.invites.Keys
    && forall i | i in d.invites ::
         && d'.invites[i].question == d.invites[i].question && d'.invites[i].assessment == d.invites[i].assessment
         && d'.invites[i].createdAt == d.invites[i].createdAt
  }

  lemma TrimKeepsScope(db: Db, orgs: set<OrgId>, now: int)
    ensures SameScope(db, Trim(db, orgs, now))
  {
  }

  lemma EraseAllKeepsScope(db: Db, ks: set<Sitting>, mint: Mint, now: int)
    ensures SameScope(db, EraseAll(db, ks, mint, now))
  {
  }

  lemma ScopeKept(db: Db, ks: set<Sitting>, orgs: set<OrgId>, mint: Mint, now: int)
    ensures SameScope(db, EraseAll(db, ks, mint, now))
    ensures SameScope(db, Trim(db, orgs, now))
  {
    EraseAllKeepsScope(db, ks, mint, now);
    TrimKeepsScope(db, orgs, now);
  }

  lemma SameWindow(d: Db, d': Db, orgs: set<OrgId>, i: InviteId, moment: int, now: int)
    requires SameScope(d, d')
    ensures PastWindow(d', orgs, i, moment, now) == PastWindow(d, orgs, i, moment, now)
  {
  }

  lemma SittingsBelong(db: Db, orgs: set<OrgId>, now: int, k: Sitting)
    requires k in Expired(db, orgs, now)
    ensures OrgOf(db, k.0).Some? && OrgOf(db, k.0).value in orgs
  {
  }

  lemma OtherAttemptStays(db: Db, orgs: set<OrgId>, o: OrgId, mint: Mint, now: int, a: nat)
    requires o !in orgs && a in db.attempts
    ensures var after := EraseAttempts(db.attempts, Expired(db, orgs, now), mint, now)[a];
      && (ExpiredAttempt(db, {o}, after, now) <==> ExpiredAttempt(db, {o}, db.attempts[a], now))
      && (ExpiredAttempt(db, {o}, db.attempts[a], now) ==> after == db.attempts[a])
  {
    var key := (db.attempts[a].invite, db.attempts[a].email);
    if key in Expired(db, orgs, now) { SittingsBelong(db, orgs, now, key); }
  }

  lemma SameExpiry(d: Db, d': Db, orgs: set<OrgId>, now: int)
    requires SameScope(d, d') && d'.attempts == d.attempts
    ensures Expired(d', orgs, now) == Expired(d, orgs, now)
  {
    forall a | a in d.attempts ensures ExpiredAttempt(d', orgs, d.attempts[a], now) == ExpiredAttempt(d, orgs, d.attempts[a], now) {
      SameWindow(d, d', orgs, d.attempts[a].invite, d.attempts[a].startedAt, now);
    }
  }

  /** What another organisation's purge does not reach. */
  lemma OthersStillExpire(db: Db, orgs: set<OrgId>, o: OrgId, mint: Mint, now: int)
    requires o !in orgs
    ensures Expired(Purged(db, orgs, mint, now), {o}, now) == Expired(db, {o}, now)
  {
    var ks := Expired(db, orgs, now);
    var y := EraseAll(db, ks, mint, now);
    ScopeKept(db, ks, orgs, mint, now);
    ScopeKept(y, ks, orgs, mint, now);
    var after := db.(attempts := EraseAttempts(db.attempts, ks, mint, now));
    SameExpiry(after, y, {o}, now);
    SameExpiry(y, Trim(y, orgs, now), {o}, now);
    forall a | a in db.attempts
      ensures ExpiredAttempt(db, {o}, after.attempts[a], now) <==> ExpiredAttempt(db, {o}, db.attempts[a], now)
      ensures ExpiredAttempt(db, {o}, db.attempts[a], now) ==> after.attempts[a] == db.attempts[a]
    {
      OtherAttemptStays(db, orgs, o, mint, now, a);
    }
    ExpiryByAttempt(db, after, {o}, now);
  }

  lemma ExpiryByAttempt(d: Db, d': Db, orgs: set<OrgId>, now: int)
    requires d' == d.(attempts := d'.attempts) && d'.attempts.Keys == d.attempts.Keys
    requires forall a | a in d.attempts ::
      && (ExpiredAttempt(d, orgs, d'.attempts[a], now) <==> ExpiredAttempt(d, orgs, d.attempts[a], now))
      && (ExpiredAttempt(d, orgs, d.attempts[a], now) ==> d'.attempts[a] == d.attempts[a])
    ensures Expired(d', orgs, now) == Expired(d, orgs, now)
  {
    forall a: Attempt ensures ExpiredAttempt(d', orgs, a, now) == ExpiredAttempt(d, orgs, a, now) {
    }
  }

  lemma InviteTrimThenErase(y: Db, orgs: set<OrgId>, js: set<Sitting>, mint: Mint, now: int, i: InviteId)
    requires forall k | k in js :: OrgOf(y, k.0).Some? ==> OrgOf(y, k.0).value !in orgs
    requires i in y.invites && PastWindow(y, orgs, i, y.invites[i].createdAt, now)
    ensures Scrubbed(Trimmed(y.invites[i], Live(y.attempts, i)), Addresses(js, i))
            == Trimmed(Scrubbed(y.invites[i], Addresses(js, i)), Live(EraseAttempts(y.attempts, js, mint, now), i))
  {
    assert Addresses(js, i) == {};
    ScrubNone(y.invites[i]);
    ScrubNone(Trimmed(y.invites[i], Live(y.attempts, i)));
    LiveElsewhere(y.attempts, js, mint, now, i);
  }

  lemma TrimThenErase(y: Db, orgs: set<OrgId>, js: set<Sitting>, mint: Mint, now: int)
    requires forall k | k in js :: OrgOf(y, k.0).Some? ==> OrgOf(y, k.0).value !in orgs
    ensures EraseAll(Trim(y, orgs, now), js, mint, now) == Trim(EraseAll(y, js, mint, now), orgs, now)
  {
    var e := EraseAll(y, js, mint, now);
    ScopeKept(y, js, orgs, mint, now);
    forall i | i in y.invites ensures EraseInvites(Trim(y, orgs, now).invites, js)[i] == Trim(e, orgs, now).invites[i] {
      SameWindow(y, e, orgs, i, y.invites[i].createdAt, now);
      if PastWindow(y, orgs, i, y.invites[i].createdAt, now) { InviteTrimThenErase(y, orgs, js, mint, now, i); }
    }
    assert EraseInvites(Trim(y, orgs, now).invites, js) == Trim(e, orgs, now).invites;
  }

  lemma LiveElsewhere(attempts: map<nat, Attempt>, js: set<Sitting>, mint: Mint, now: int, i: InviteId)
    requires forall k | k in js :: k.0 != i
    ensures Live(EraseAttempts(attempts, js, mint, now), i) == Live(attempts, i)
  {
    var after := EraseAttempts(attempts, js, mint, now);
    assert forall a | a in attempts && attempts[a].invite == i :: after[a] == attempts[a];
  }

  lemma TrimTwice(z: Db, orgs: set<OrgId>, o: OrgId, now: int)
    requires o !in orgs
    ensures Trim(Trim(z, orgs, now), {o}, now) == Trim(z, orgs + {o}, now)
  {
    var t := Trim(z, orgs, now);
    TrimKeepsScope(z, orgs, now);
    forall i | i in z.invites ensures Trim(t, {o}, now).invites[i] == Trim(z, orgs + {o}, now).invites[i] {
      SameWindow(z, t, {o}, i, z.invites[i].createdAt, now);
    }
    assert Trim(t, {o}, now).invites == Trim(z, orgs + {o}, now).invites;
  }

  /** One organisation after another is all of them together. */
  lemma PurgeNext(db: Db, orgs: set<OrgId>, o: OrgId, mint: Mint, now: int)
    requires o !in orgs && Tombstones(Expired(db, orgs + {o}, now), mint)
    ensures Purged(Purged(db, orgs, mint, now), {o}, mint, now) == Purged(db, orgs + {o}, mint, now)
    ensures Expired(db, orgs + {o}, now) == Expired(db, orgs, now) + Expired(db, {o}, now)
    ensures Expired(db, orgs, now) !! Expired(db, {o}, now)
  {
    var ks, js := Expired(db, orgs, now), Expired(db, {o}, now);
    assert Expired(db, orgs + {o}, now) == ks + js;
    forall k | k in ks ensures k !in js {
      SittingsBelong(db, orgs, now, k);
      if k in js { SittingsBelong(db, {o}, now, k); }
    }
    OthersStillExpire(db, orgs, o, mint, now);
    var y := EraseAll(db, ks, mint, now);
    ScopeKept(db, ks, orgs, mint, now);
    forall k | k in js ensures OrgOf(y, k.0).Some? ==> OrgOf(y, k.0).value !in orgs { SittingsBelong(db, {o}, now, k); }
    TrimThenErase(y, orgs, js, mint, now);
    EraseAgain(db, ks, js, mint, now);
    TrimTwice(EraseAll(db, ks + js, mint, now), orgs, o, now);
  }

  /** An organisation with no window, or none above zero, is skipped. */
  lemma NoWindowNoPurge(db: Db, o: OrgId, mint: Mint, now: int)
    requires o !in db.retention || db.retention[o].None? || db.retention[o].value <= 0
    ensures Expired(db, {o}, now) == {} && Purged(db, {o}, mint, now) == db
  {
    EraseNone(db, mint, now);
    assert Expired(db, {o}, now) == {};
    assert Trim(db, {o}, now).invites == db.invites;
  }

  lemma PurgeNobody(db: Db, mint: Mint, now: int)
    ensures Expired(db, {}, now) == {} && Purged(db, {}, mint, now) == db
  {
    EraseNone(db, mint, now);
    assert Expired(db, {}, now) == {};
    assert Trim(db, {}, now).invites == db.invites;
  }

  // ------------------------------------------------------------------------
  // What one purge guarantees
  // ------------------------------------------------------------------------

  /** Minted values are fresh and never repeat. */
  ghost predicate FreshMint(db: Db, ks: set<Sitting>, mint: Mint) {
    && (forall k | k in ks :: Fresh(db, mint(k)))
    && (forall j, k | j in ks && k in ks && mint(j) == mint(k) :: j == k)
  }

  lemma FreshMintsAreTombstones(db: Db, orgs: set<OrgId>, mint: Mint, now: int)
    requires FreshMint(db, Expired(db, orgs, now), mint)
    ensures Tombstones(Expired(db, orgs, now), mint)
  {
    forall j, k | j in Expired(db, orgs, now) && k in Expired(db, orgs, now) ensures mint(j) != k.1 {
      assert Fresh(db, mint(j));
    }
  }

  lemma SubsStayUnique(db: Db, ks: set<Sitting>, mint: Mint, now: int)
    requires UniqueKeys(db) && FreshMint(db, ks, mint)
    ensures UniqueKeys(db.(subs := EraseSubs(db.subs, ks, mint)))
  {
  }

  lemma AttemptsStayUnique(db: Db, ks: set<Sitting>, mint: Mint, now: int)
    requires UniqueKeys(db) && FreshMint(db, ks, mint)
    ensures OneAttemptEach(EraseAttempts(db.attempts, ks, mint, now))
  {
  }

  lemma TracesStayUnique(db: Db, ks: set<Sitting>, mint: Mint, now: int)
    requires UniqueKeys(db) && FreshMint(db, ks, mint)
    ensures UniqueKeys(db.(slotRows := EraseSlotRows(db.slotRows, ks, mint)))
    ensures UniqueKeys(db.(drafts := EraseDrafts(db.drafts, ks)))
  {
  }

  /** Fresh tombstones keep every unique key satisfied over a whole purge. */
  lemma PurgeKeepsUniqueKeys(db: Db, orgs: set<OrgId>, mint: Mint, now: int)
    requires UniqueKeys(db) && FreshMint(db, Expired(db, orgs, now), mint)
    ensures UniqueKeys(Purged(db, orgs, mint, now))
  {
    var ks := Expired(db, orgs, now);
    SubsStayUnique(db, ks, mint, now);
    AttemptsStayUnique(db, ks, mint, now);
    TracesStayUnique(db, ks, mint, now);
  }

  /** A purge erases exactly the un-erased sittings older than their organisation's window. */
  lemma PurgeErasesExactlyTheExpired(db: Db, orgs: set<OrgId>, mint: Mint, now: int)
    requires OneAttemptEach(db.attempts)
    ensures var after := Purged(db, orgs, mint, now);
      && after.attempts.Keys == db.attempts.Keys
      && forall a | a in db.attempts ::
           after.attempts[a] == if ExpiredAttempt(db, orgs, db.attempts[a], now)
                                then ErasedAttempt(db.attempts[a], mint((db.attempts[a].invite, db.attempts[a].email)), now)
                                else db.attempts[a]
  {
    forall a | a in db.attempts
      ensures (db.attempts[a].invite, db.attempts[a].email) in Expired(db, orgs, now) <==> ExpiredAttempt(db, orgs, db.attempts[a], now)
    {
    }
  }

  /** The window in numbers.  A sitting of an organisation that keeps `days` days is erased at
      `now` if and only if it had not been erased and began more than that many days of 86 400
      seconds ago; otherwise its row is as it was. */
  lemma WindowIsInDays(db: Db, orgs: set<OrgId>, mint: Mint, now: int, a: nat, org: OrgId, days: int)
    requires OneAttemptEach(db.attempts) && a in db.attempts && OrgOf(db, db.attempts[a].invite) == Some(org)
    requires org in orgs && org in db.retention && db.retention[org] == Some(days)
    ensures a in Purged(db, orgs, mint, now).attempts
    ensures var before, after := db.attempts[a], Purged(db, orgs, mint, now).attempts[a];
      if before.erasedAt.None? && days > 0 && now - before.startedAt > days * 86_400
      then after == Attempt(before.invite, mint((before.invite, before.email)), None, before.startedAt, Some(now))
      else after == before
  {
    PurgeErasesExactlyTheExpired(db, orgs, mint, now);
  }

  /** The sitting of this address on this invite began more than `days` days ago and is not erased yet. */
  ghost predicate Overdue(db: Db, i: InviteId, e: Email, now: int, days: int) {
    exists a :: a in db.attempts && db.attempts[a].invite == i && db.attempts[a].email == e
                && db.attempts[a].erasedAt.None? && now - db.attempts[a].startedAt > days * 86_400
  }

  lemma OverdueIsExpired(db: Db, orgs: set<OrgId>, now: int, i: InviteId, e: Email, org: OrgId, days: int)
    requires OrgOf(db, i) == Some(org) && org in orgs && org in db.retention && db.retention[org] == Some(days) && days > 0
    ensures e in Addresses(Expired(db, orgs, now), i) <==> Overdue(db, i, e, now, days)
  {
    if e in Addresses(Expired(db, orgs, now), i) {
      var a :| a in db.attempts && ExpiredAttempt(db, orgs, db.attempts[a], now)
               && db.attempts[a].invite == i && db.attempts[a].email == e;
    }
    if Overdue(db, i, e, now, days) {
      var a :| a in db.attempts && db.attempts[a].invite == i && db.attempts[a].email == e
               && db.attempts[a].erasedAt.None? && now - db.attempts[a].startedAt > days * 86_400;
      assert ExpiredAttempt(db, orgs, db.attempts[a], now);
      assert (i, e) in Expired(db, orgs, now);
    }
  }

  /** The address still has an un-erased sitting on this invite. */
  ghost predicate StillSits(attempts: map<nat, Attempt>, i: InviteId, e: Email) {
    exists a :: a in attempts && attempts[a].invite == i && attempts[a].email == e && attempts[a].erasedAt.None?
  }

  /** An invitation sent within the window sheds exactly the addresses of the sittings so
      erased; an older one keeps exactly those with a sitting left un-erased.  The same goes
      for its delivery log. */
  lemma InvitesAgeInDays(db: Db, orgs: set<OrgId>, mint: Mint, now: int, i: InviteId, org: OrgId, days: int, r: Email)
    requires OneAttemptEach(db.attempts) && forall a | a in db.attempts :: IsNormal(db.attempts[a].email)
    requires i in db.invites && OrgOf(db, i) == Some(org)
    requires org in orgs && org in db.retention && db.retention[org] == Some(days) && days > 0
    ensures var after := Purged(db, orgs, mint, now);
      var kept := !Overdue(db, i, r, now, days)
                  && (now - db.invites[i].createdAt > days * 86_400 ==> StillSits(after.attempts, i, Normalize(r)));
      && i in after.invites
      && (r in after.invites[i].recipients <==> r in db.invites[i].recipients && kept)
      && (r in after.invites[i].deliveries <==> r in db.invites[i].deliveries && kept)
  {
    var ks := Expired(db, orgs, now);
    var y := EraseAll(db, ks, mint, now);
    ScopeKept(db, ks, orgs, mint, now);
    SameWindow(db, y, orgs, i, db.invites[i].createdAt, now);
    OverdueIsExpired(db, orgs, now, i, r, org, days);
    WithoutDrops(db.invites[i].recipients, Addresses(ks, i));
    WithoutDrops(db.invites[i].deliveries, Addresses(ks, i));
    KeepLiveKeeps(y.invites[i].recipients, Live(y.attempts, i));
    KeepLiveKeeps(y.invites[i].deliveries, Live(y.attempts, i));
    PurgeErasesExactlyTheExpired(db, orgs, mint, now);
    assert forall a | a in y.attempts && y.attempts[a].erasedAt.None? :: y.attempts[a] == db.attempts[a];
    assert Normalize(r) in Live(y.attempts, i) <==> StillSits(y.attempts, i, Normalize(r));
  }

  /** The organisation keeps no window. */
  predicate Unwindowed(db: Db, i: InviteId) {
    var org := OrgOf(db, i);
    org.None? || org.value !in db.retention || db.retention[org.value].None? || db.retention[org.value].value <= 0
  }

  lemma UnwindowedHasNoExpired(db: Db, orgs: set<OrgId>, now: int, i: InviteId)
    requires Unwindowed(db, i)
    ensures Addresses(Expired(db, orgs, now), i) == {}
    ensures forall e: Email :: (i, e) !in Expired(db, orgs, now)
  {
  }

  lemma UnwindowedInviteStays(db: Db, orgs: set<OrgId>, mint: Mint, now: int, i: InviteId)
    requires Unwindowed(db, i) && i in db.invites
    ensures i in Purged(db, orgs, mint, now).invites && Purged(db, orgs, mint, now).invites[i] == db.invites[i]
  {
    var y := EraseAll(db, Expired(db, orgs, now), mint, now);
    UnwindowedHasNoExpired(db, orgs, now, i);
    ScrubNone(db.invites[i]);
    ScopeKept(db, Expired(db, orgs, now), orgs, mint, now);
    SameWindow(db, y, orgs, i, db.invites[i].createdAt, now);
    assert y.invites[i] == db.invites[i];
  }

  /** The rows of one sitting that a purge may reach. */
  ghost predicate SameSitting(db: Db, after: Db, k: Sitting) {
    && (forall a | a in db.attempts && IsSitting(db.attempts, a, {k.0}, k.1) ::
          a in after.attempts && after.attempts[a] == db.attempts[a])
    && (forall s | s in db.subs && SubIn(db.subs[s], {k}) :: s in after.subs && after.subs[s] == db.subs[s])
    && (forall s | s in db.results && s in db.subs && SubIn(db.subs[s], {k}) ::
          s in after.results && after.results[s] == db.results[s])
    && (forall v | v in db.slotRows && (db.slotRows[v].invite, db.slotRows[v].email) == k ::
          v in after.slotRows && after.slotRows[v] == db.slotRows[v])
    && (forall v | v in db.signals && (db.signals[v].invite, db.signals[v].email) == k ::
          v in after.signals && after.signals[v] == db.signals[v])
    && (forall d | d in db.drafts && (db.drafts[d].invite, db.drafts[d].email) == k ::
          d in after.drafts && after.drafts[d] == db.drafts[d])
    && (forall f | f in db.feedback && IsSitting(db.attempts, db.feedback[f], {k.0}, k.1) ::
          f in after.feedback && after.feedback[f] == db.feedback[f])
  }

  /** Nothing holds the address for this sitting, and what was graded is still known. */
  ghost predicate SittingForgotten(db: Db, after: Db, k: Sitting) {
    && (forall a | a in after.attempts :: !IsSitting(after.attempts, a, {k.0}, k.1))
    && (forall s | s in after.subs :: !SubIn(after.subs[s], {k}))
    && (forall s | s in db.subs && SubIn(db.subs[s], {k}) ::
          s in after.subs && after.subs[s].code == "" && after.subs[s].name == ErasedText)
    && (forall s | s in db.results && s in db.subs && SubIn(db.subs[s], {k}) :: s in after.results
          && after.results[s] == Result(db.results[s].verdict, db.results[s].score, ErasedText, ErasedResult))
    && (forall v | v in after.slotRows :: (after.slotRows[v].invite, after.slotRows[v].email) != k)
    && (forall v | v in after.signals :: (after.signals[v].invite, after.signals[v].email) != k)
    && (forall d | d in after.drafts :: (after.drafts[d].invite, after.drafts[d].email) != k)
    && (forall f | f in db.feedback && IsSitting(db.attempts, db.feedback[f], {k.0}, k.1) :: f !in after.feedback)
  }

  lemma ErasingForgets(db: Db, ks: set<Sitting>, mint: Mint, now: int, k: Sitting)
    requires Tombstones(ks, mint) && k in ks
    ensures SittingForgotten(db, EraseAll(db, ks, mint, now), k)
  {
  }

  lemma ErasingSpares(db: Db, ks: set<Sitting>, mint: Mint, now: int, k: Sitting)
    requires k !in ks
    ensures SameSitting(db, EraseAll(db, ks, mint, now), k)
  {
  }

  /** Every row of a sitting, in all seven tables: an expired one is forgotten, with its
      verdicts and scores kept, and any other is as it was. */
  lemma PurgeForgetsOrSpares(db: Db, orgs: set<OrgId>, mint: Mint, now: int, k: Sitting)
    requires FreshMint(db, Expired(db, orgs, now), mint)
    ensures if k in Expired(db, orgs, now) then SittingForgotten(db, Purged(db, orgs, mint, now), k)
            else SameSitting(db, Purged(db, orgs, mint, now), k)
  {
    var ks := Expired(db, orgs, now);
    FreshMintsAreTombstones(db, orgs, mint, now);
    if k in ks {
      ErasingForgets(db, ks, mint, now, k);
    } else {
      ErasingSpares(db, ks, mint, now, k);
    }
  }

  /** Organisations that never chose a window keep every row as it was. */
  lemma NoWindowKeepsEverything(db: Db, orgs: set<OrgId>, mint: Mint, now: int, i: InviteId)
    requires forall org, days | OrgOf(db, i) == Some(org) && org in db.retention && db.retention[org] == Some(days) :: days <= 0
    ensures var after := Purged(db, orgs, mint, now);
      && (i in db.invites ==> i in after.invites && after.invites[i] == db.invites[i])
      && (forall a | a in db.attempts && db.attempts[a].invite == i :: after.attempts[a] == db.attempts[a])
      && (forall s | s in db.subs && db.subs[s].invite == Some(i) :: after.subs[s] == db.subs[s])
      && (forall v | v in db.slotRows && db.slotRows[v].invite == i :: after.slotRows[v] == db.slotRows[v])
      && (forall v | v in db.signals && db.signals[v].invite == i :: after.signals[v] == db.signals[v])
      && (forall d | d in db.drafts && db.drafts[d].invite == i :: d in after.drafts && after.drafts[d] == db.drafts[d])
      && (forall s | s in db.results && s in db.subs && db.subs[s].invite == Some(i) :: after.results[s] == db.results[s])
      && (forall f | f in db.feedback && db.feedback[f] in db.attempts && db.attempts[db.feedback[f]].invite == i ::
            f in after.feedback && after.feedback[f] == db.feedback[f])
  {
    if i in db.invites { UnwindowedInviteStays(db, orgs, mint, now, i); }
    UnwindowedHasNoExpired(db, orgs, now, i);
    UntouchedRows(db, Expired(db, orgs, now), mint, now, i);
    UntouchedGrades(db, Expired(db, orgs, now), mint, now, i);
  }

  lemma UntouchedGrades(db: Db, ks: set<Sitting>, mint: Mint, now: int, i: InviteId)
    requires forall e: Email :: (i, e) !in ks
    ensures var after := EraseAll(db, ks, mint, now);
      && (forall s | s in db.results && s in db.subs && db.subs[s].invite == Some(i) :: after.results[s] == db.results[s])
      && (forall f | f in db.feedback && db.feedback[f] in db.attempts && db.attempts[db.feedback[f]].invite == i ::
            f in after.feedback && after.feedback[f] == db.feedback[f])
  {
  }

  lemma UntouchedRows(db: Db, ks: set<Sitting>, mint: Mint, now: int, i: InviteId)
    requires forall e: Email :: (i, e) !in ks
    ensures var after := EraseAll(db, ks, mint, now);
      && (forall a | a in db.attempts && db.attempts[a].invite == i :: after.attempts[a] == db.attempts[a])
      && (forall s | s in db.subs && db.subs[s].invite == Some(i) :: after.subs[s] == db.subs[s])
      && (forall v | v in db.slotRows && db.slotRows[v].invite == i :: after.slotRows[v] == db.slotRows[v])
      && (forall v | v in db.signals && db.signals[v].invite == i :: after.signals[v] == db.signals[v])
      && (forall d | d in db.drafts && db.drafts[d].invite == i :: d in after.drafts && after.drafts[d] == db.drafts[d])
  {
  }

  /** Nobody with an un-erased sitting loses their place on the invite... */
  lemma LiveAddressesStayListed(db: Db, orgs: set<OrgId>, mint: Mint, now: int, i: InviteId, r: Email)
    requires OneAttemptEach(db.attempts) && forall a | a in db.attempts :: IsNormal(db.attempts[a].email)
    requires i in db.invites && r in db.invites[i].recipients
    requires exists a :: a in db.attempts && db.attempts[a].invite == i && db.attempts[a].email == Normalize(r)
                         && Purged(db, orgs, mint, now).attempts[a].erasedAt.None?
    ensures r in Purged(db, orgs, mint, now).invites[i].recipients
  {
    var ks := Expired(db, orgs, now);
    var y := EraseAll(db, ks, mint, now);
    PurgeErasesExactlyTheExpired(db, orgs, mint, now);
    var a :| a in db.attempts && db.attempts[a].invite == i && db.attempts[a].email == Normalize(r)
             && Purged(db, orgs, mint, now).attempts[a].erasedAt.None?;
    assert r !in Addresses(ks, i);
    WithoutDrops(db.invites[i].recipients, Addresses(ks, i));
    assert y.attempts[a] == db.attempts[a] && IsNormal(db.attempts[a].email);
    assert Normalize(r) in Live(y.attempts, i);
    KeepLiveKeeps(y.invites[i].recipients, Live(y.attempts, i));
  }

  /** ...and an invitation past the window lists nobody else. */
  lemma OldInvitesListOnlyLiveAddresses(db: Db, orgs: set<OrgId>, mint: Mint, now: int, i: InviteId)
    requires i in db.invites && PastWindow(db, orgs, i, db.invites[i].createdAt, now)
    ensures var after := Purged(db, orgs, mint, now);
      i in after.invites && ListsOnly(after.invites[i], db.invites[i], Live(after.attempts, i))
  {
    var ks := Expired(db, orgs, now);
    var y := EraseAll(db, ks, mint, now);
    ScopeKept(db, ks, orgs, mint, now);
    SameWindow(db, y, orgs, i, db.invites[i].createdAt, now);
    ShedListsOnly(db.invites[i], Addresses(ks, i), Live(y.attempts, i));
  }

  ghost predicate ListsOnly(inv: Invite, before: Invite, live: set<Email>) {
    && (forall r | r in inv.recipients :: r in before.recipients && Normalize(r) in live)
    && (forall r | r in inv.deliveries :: r in before.deliveries && Normalize(r) in live)
  }

  lemma ShedListsOnly(inv: Invite, drop: set<Email>, live: set<Email>)
    ensures ListsOnly(Trimmed(Scrubbed(inv, drop), live), inv, live)
  {
    WithoutDrops(inv.recipients, drop);
    WithoutDrops(inv.deliveries, drop);
    KeepLiveKeeps(Without(inv.recipients, drop), live);
    KeepLiveKeeps(Without(inv.deliveries, drop), live);
  }

  lemma ErasedIsNotExpired(db: Db, orgs: set<OrgId>, mint: Mint, now: int, a: nat)
    requires a in db.attempts
    ensures var after := EraseAttempts(db.attempts, Expired(db, orgs, now), mint, now);
      after[a].erasedAt.Some? || (after[a] == db.attempts[a] && !ExpiredAttempt(db, orgs, after[a], now))
  {
  }

  lemma NothingLeftToExpire(db: Db, orgs: set<OrgId>, mint: Mint, now: int)
    ensures Expired(Purged(db, orgs, mint, now), orgs, now) == {}
  {
    var ks := Expired(db, orgs, now);
    var y, after := EraseAll(db, ks, mint, now), Purged(db, orgs, mint, now);
    ScopeKept(db, ks, orgs, mint, now);
    ScopeKept(y, ks, orgs, mint, now);
    forall a | a in after.attempts ensures !ExpiredAttempt(after, orgs, after.attempts[a], now) {
      ErasedIsNotExpired(db, orgs, mint, now, a);
      SameWindow(db, y, orgs, db.attempts[a].invite, db.attempts[a].startedAt, now);
      SameWindow(y, after, orgs, db.attempts[a].invite, db.attempts[a].startedAt, now);
    }
  }

  lemma TrimIsIdempotent(y: Db, orgs: set<OrgId>, now: int)
    ensures Trim(Trim(y, orgs, now), orgs, now) == Trim(y, orgs, now)
  {
    var t := Trim(y, orgs, now);
    TrimKeepsScope(y, orgs, now);
    forall i | i in y.invites ensures Trim(t, orgs, now).invites[i] == t.invites[i] {
      SameWindow(y, t, orgs, i, y.invites[i].createdAt, now);
      if PastWindow(y, orgs, i, y.invites[i].createdAt, now) {
        var live := Live(y.attempts, i);
        KeepLiveKeeps(y.invites[i].recipients, live);
        KeepLiveKeeps(y.invites[i].deliveries, live);
        KeepLiveKeeps(t.invites[i].recipients, live);
        KeepLiveKeeps(t.invites[i].deliveries, live);
      }
    }
    assert Trim(t, orgs, now).invites == t.invites;
  }

  /** A second purge at the same moment finds nothing, whatever it would mint, and changes nothing. */
  lemma SecondPurgeIsIdle(db: Db, orgs: set<OrgId>, mint: Mint, again: Mint, now: int)
    ensures var after := Purged(db, orgs, mint, now);
      Expired(after, orgs, now) == {} && Purged(after, orgs, again, now) == after
  {
    var y := EraseAll(db, Expired(db, orgs, now), mint, now);
    NothingLeftToExpire(db, orgs, mint, now);
    EraseNone(Purged(db, orgs, mint, now), again, now);
    TrimIsIdempotent(y, orgs, now);
  }

  // ------------------------------------------------------------------------
  // The store
  // ------------------------------------------------------------------------

  class CandidateStore {
    var db: Db

    constructor (db: Db)
      ensures this.db == db
    {
      this.db := db;
    }

    /** `_scrub_invite_recipients` */
    method ScrubRecipients(i: InviteId, e: Email) returns (changed: bool)
      requires i in db.invites
      modifies this
      ensures changed <==> e in old(db).invites[i].recipients || e in old(db).invites[i].deliveries
      ensures db == old(db).(invites := old(db).invites[i := Scrubbed(old(db).invites[i], {e})])
    {
      var inv := db.invites[i];
      var scrubbed := Scrubbed(inv, {e});
      WithoutDrops(inv.recipients, {e});
      WithoutDrops(inv.deliveries, {e});
      changed := scrubbed != inv;
      assert db.invites[i := inv] == db.invites;
      if changed { db := db.(invites := db.invites[i := scrubbed]); }
    }

    /** The loop over the invites at the end of `_erase`. */
    method ScrubAll(ids: set<InviteId>, e: Email) returns (amended: nat)
      requires ids <= db.invites.Keys
      modifies this
      ensures db == old(db).(invites := ScrubbedIn(old(db).invites, ids, e))
      ensures amended == |AmendedIn(old(db).invites, ids, e)|
    {
      amended := 0;
      var todo := ids;
      ghost var invites := db.invites;
      assert ScrubbedIn(invites, {}, e) == invites && AmendedIn(invites, {}, e) == {};
      assert ids - todo == {};
      while todo != {}
        invariant todo <= ids && db == old(db).(invites := ScrubbedIn(invites, ids - todo, e))
        invariant amended == |AmendedIn(invites, ids - todo, e)|
        decreases todo
      {
        var i :| i in todo;
        ScrubOneMore(invites, ids - todo, i, e);
        var changed := ScrubRecipients(i, e);
        if changed { amended := amended + 1; }
        assert ids - (todo - {i}) == ids - todo + {i};
        todo := todo - {i};
      }
      assert ids - todo == ids;
    }

    /** `_erase`: seven statements in the source's order, each on the database its
        predecessors left, then the invites one by one.  Together they are the erasure of
        that scope as it was at the start, and each reports the rows it had then. */
    method EraseRows(e: Email, ids: set<InviteId>, subIds: set<nat>, tombstone: Email, now: int) returns (counts: Counts)
      requires ids <= db.invites.Keys
      modifies this
      ensures db == Erase(old(db), e, ids, subIds, tombstone, now)
      ensures counts == Touched(old(db), e, ids, subIds)
    {
      ghost var before := db;
      var results := |RowsOf(db.results, subIds)|;
      db := db.(results := BlankedResults(db.results, subIds));
      var submissions := |RowsOf(db.subs, subIds)|;
      db := db.(subs := AnonymousSubs(db.subs, subIds, tombstone));
      var feedback := |FeedbackOf(db.feedback, db.attempts, ids, e)|;
      db := db.(feedback := KeptFeedback(db.feedback, db.attempts, ids, e));
      var attempts := |SittingsOf(db.attempts, ids, e)|;
      db := db.(attempts := AnonymousAttempts(db.attempts, ids, e, tombstone, now));
      var slotVariants := |SlotRowsOf(db.slotRows, ids, e)|;
      db := db.(slotRows := AnonymousSlotRows(db.slotRows, ids, e, tombstone));
      var signals := |SignalsOf(db.signals, ids, e)|;
      db := db.(signals := AnonymousSignals(db.signals, ids, e, tombstone));
      var drafts := |DraftsOf(db.drafts, ids, e)|;
      db := db.(drafts := KeptDrafts(db.drafts, ids, e));
      assert db.invites == before.invites;
      var amended := ScrubAll(ids, e);
      counts := Counts(submissions, results, attempts, slotVariants, signals, drafts, amended, feedback);
    }

    /** `erase_candidate`: afterwards nothing of the organisation holds the address, nothing
        else has changed, and asking again would report nothing. */
    method EraseCandidateData(org: OrgId, e: Email, tombstone: Email, now: int) returns (counts: Counts)
      requires tombstone != e
      modifies this
      ensures Forgotten(db, org, e) && OnlyCandidateTouched(old(db), db, org, e, tombstone, now)
      ensures counts == CandidateCounts(old(db), org, e) && CandidateCounts(db, org, e) == Untouched
    {
      ErasedCandidateIsForgotten(db, org, e, tombstone, now);
      ErasureTouchesOnlyTheCandidate(db, org, e, tombstone, now);
      RepeatReportsNothing(EraseCandidate(db, org, e, tombstone, now), org, e, tombstone, now);
      counts := EraseRows(e, OrgInvites(db, org), CandidateSubs(db, org, e), tombstone, now);
    }

    /** `erase_sitting` */
    method EraseOneSitting(k: Sitting, tombstone: Email, now: int)
      requires k.0 in db.invites
      modifies this
      ensures db == EraseSitting(old(db), k, tombstone, now)
    {
      var counts := EraseRows(k.1, {k.0}, SittingSubs(db, k), tombstone, now);
    }

    /** The sittings one by one. */
    method EraseSittings(sittings: set<Sitting>, mint: Mint, now: int) returns (erased: nat)
      requires Tombstones(sittings, mint) && forall k | k in sittings :: k.0 in db.invites
      modifies this
      ensures db == EraseAll(old(db), sittings, mint, now)
      ensures erased == |sittings|
    {
      erased := 0;
      ghost var before := db;
      var todo := sittings;
      ghost var gone: set<Sitting> := {};
      EraseNone(before, mint, now);
      while todo != {}
        invariant gone !! todo && sittings == gone + todo && erased == |gone|
        invariant db == EraseAll(before, gone, mint, now)
        invariant db.invites.Keys == before.invites.Keys
        decreases todo
      {
        var k :| k in todo;
        EraseOneMore(before, gone, k, sittings, mint, now, db);
        EraseOneSitting(k, mint(k), now);
        erased, gone, todo := erased + 1, gone + {k}, todo - {k};
      }
      assert gone == sittings;
    }

    /** One organisation: its expired sittings, then its old invitations. */
    method PurgeOrganisation(org: OrgId, mint: Mint, now: int) returns (erased: nat)
      requires Tombstones(Expired(db, {org}, now), mint)
      modifies this
      ensures db == Purged(old(db), {org}, mint, now)
      ensures erased == |Expired(old(db), {org}, now)|
    {
      var sittings := Expired(db, {org}, now);
      ExpiredInvitesExist(db, {org}, now);
      erased := EraseSittings(sittings, mint, now);
      ExpireRecipients(org, now);
    }

    /** `_expire_invite_recipients`: the loop over one organisation's old invitations. */
    method ExpireRecipients(org: OrgId, now: int)
      modifies this
      ensures db == Trim(old(db), {org}, now)
    {
      var stale := Stale(db, {org}, now);
      var todo := stale;
      ghost var invites, attempts := db.invites, db.attempts;
      TrimIsOnStale(db, {org}, now);
      assert TrimmedIn(invites, attempts, {}) == invites && stale - todo == {};
      while todo != {}
        invariant todo <= stale && db == old(db).(invites := TrimmedIn(invites, attempts, stale - todo))
        decreases todo
      {
        var i :| i in todo;
        TrimOneMore(invites, attempts, stale - todo, i);
        var trimmed := Trimmed(db.invites[i], Live(db.attempts, i));
        assert db.invites[i := db.invites[i]] == db.invites;
        if trimmed != db.invites[i] { db := db.(invites := db.invites[i := trimmed]); }
        assert stale - (todo - {i}) == stale - todo + {i};
        todo := todo - {i};
      }
      assert stale - todo == stale;
    }

    /** The loop's guard: an organisation without a window is skipped. */
    method PurgeIfWindowed(org: OrgId, mint: Mint, now: int) returns (erased: nat)
      requires org in db.retention && Tombstones(Expired(db, {org}, now), mint)
      modifies this
      ensures db == Purged(old(db), {org}, mint, now)
      ensures erased == |Expired(old(db), {org}, now)|
    {
      if db.retention[org].Some? && db.retention[org].value > 0 {
        erased := PurgeOrganisation(org, mint, now);
      } else {
        NoWindowNoPurge(db, org, mint, now);
        erased := 0;
      }
    }

    /** One turn of the loop over organisations. */
    method PurgeOneMore(ghost before: Db, ghost done: set<OrgId>, org: OrgId, mint: Mint, now: int) returns (erased: nat)
      requires org in before.retention && org !in done && done <= before.retention.Keys
      requires CleanMint(before, mint, now) && PurgedSoFar(before, done, mint, now, db)
      modifies this
      ensures PurgedSoFar(before, done + {org}, mint, now, db)
      ensures ExpiredCount(before, done + {org}, now) == ExpiredCount(before, done, now) + erased
    {
      NextOrganisation(before, done, org, mint, now, db);
      erased := PurgeIfWindowed(org, mint, now);
    }

    /** `purge_expired`: every organisation that set a window, in any order; returns the
        number of sittings erased. */
    method PurgeExpired(mint: Mint, now: int) returns (erased: nat)
      requires MintsFresh(db, mint, now)
      modifies this
      ensures PurgedSoFar(old(db), old(db).retention.Keys, mint, now, db)
      ensures erased == ExpiredCount(old(db), old(db).retention.Keys, now)
      ensures OneAttemptEach(old(db).attempts) ==>
                forall a, org | a in old(db).attempts && OrgOf(old(db), old(db).attempts[a].invite) == Some(org)
                                && org in old(db).retention && old(db).retention[org].Some? ::
                  && a in db.attempts
                  && var before, days := old(db).attempts[a], old(db).retention[org].value;
                     db.attempts[a] == if before.erasedAt.None? && days > 0 && now - before.startedAt > days * 86_400
                                       then Attempt(before.invite, mint((before.invite, before.email)), None, before.startedAt, Some(now))
                                       else before
    {
      erased := 0;
      ghost var before := db;
      var todo := db.retention.Keys;
      ghost var all, done: set<OrgId> := db.retention.Keys, {};
      PurgeOfNobody(before, mint, now);
      while todo != {}
        invariant done <= all && todo == all - done
        invariant PurgedSoFar(before, done, mint, now, db)
        invariant erased == ExpiredCount(before, done, now)
        decreases todo
      {
        var org :| org in todo;
        var n := PurgeOneMore(before, done, org, mint, now);
        erased := erased + n;
        done, todo := done + {org}, todo - {org};
      }
      assert done == all;
      forall a, org | OneAttemptEach(before.attempts) && a in before.attempts && OrgOf(before, before.attempts[a].invite) == Some(org)
                      && org in before.retention && before.retention[org].Some?
        ensures a in db.attempts
        ensures var old', days := before.attempts[a], before.retention[org].value;
          db.attempts[a] == if old'.erasedAt.None? && days > 0 && now - old'.startedAt > days * 86_400
                            then Attempt(old'.invite, mint((old'.invite, old'.email)), None, old'.startedAt, Some(now))
                            else old'
      {
        WindowIsInDays(before, all, mint, now, a, org, before.retention[org].value);
      }
    }
  }

  ghost predicate CleanMint(db: Db, mint: Mint, now: int) {
    Tombstones(Expired(db, db.retention.Keys, now), mint)
  }

  /** Each sitting this purge will erase gets a tombstone of its own that no row holds yet. */
  ghost predicate MintsFresh(db: Db, mint: Mint, now: int) {
    FreshMint(db, Expired(db, db.retention.Keys, now), mint)
  }

  lemma PurgeOfNobody(db: Db, mint: Mint, now: int)
    requires MintsFresh(db, mint, now)
    ensures CleanMint(db, mint, now)
    ensures PurgedSoFar(db, {}, mint, now, db) && ExpiredCount(db, {}, now) == 0
  {
    FreshMintsAreTombstones(db, db.retention.Keys, mint, now);
    PurgeNobody(db, mint, now);
  }

  /** The database a purge of these organisations leaves, and how many sittings it erased. */
  ghost predicate PurgedSoFar(before: Db, orgs: set<OrgId>, mint: Mint, now: int, db: Db) {
    db == Purged(before, orgs, mint, now)
  }

  function ExpiredCount(db: Db, orgs: set<OrgId>, now: int): nat {
    |Expired(db, orgs, now)|
  }

  lemma TrimOneMore(invites: map<InviteId, Invite>, attempts: map<nat, Attempt>, done: set<InviteId>, i: InviteId)
    requires i in invites && i !in done
    ensures TrimmedIn(invites, attempts, done)[i] == invites[i]
    ensures TrimmedIn(invites, attempts, done)[i := Trimmed(invites[i], Live(attempts, i))] == TrimmedIn(invites, attempts, done + {i})
  {
  }

  lemma TrimIsOnStale(db: Db, orgs: set<OrgId>, now: int)
    ensures Trim(db, orgs, now) == db.(invites := TrimmedIn(db.invites, db.attempts, Stale(db, orgs, now)))
  {
    assert Trim(db, orgs, now).invites == TrimmedIn(db.invites, db.attempts, Stale(db, orgs, now));
  }

  lemma ScrubOneMore(invites: map<InviteId, Invite>, done: set<InviteId>, i: InviteId, e: Email)
    requires i in invites && i !in done
    ensures ScrubbedIn(invites, done, e)[i] == invites[i]
    ensures ScrubbedIn(invites, done, e)[i := Scrubbed(invites[i], {e})] == ScrubbedIn(invites, done + {i}, e)
    ensures |AmendedIn(invites, done + {i}, e)|
            == |AmendedIn(invites, done, e)| + if e in invites[i].recipients || e in invites[i].deliveries then 1 else 0
  {
    if e in invites[i].recipients || e in invites[i].deliveries {
      assert AmendedIn(invites, done + {i}, e) == AmendedIn(invites, done, e) + {i};
    } else {
      assert AmendedIn(invites, done + {i}, e) == AmendedIn(invites, done, e);
    }
  }

  lemma EraseOneMore(before: Db, gone: set<Sitting>, k: Sitting, all: set<Sitting>, mint: Mint, now: int, mid: Db)
    requires Tombstones(all, mint) && gone + {k} <= all && mid == EraseAll(before, gone, mint, now)
    ensures EraseSitting(mid, k, mint(k), now) == EraseAll(before, gone + {k}, mint, now)
    ensures mid.invites.Keys == before.invites.Keys
  {
    EraseSittingIsOne(mid, k, mint, now);
    EraseAgain(before, gone, {k}, mint, now);
  }

  lemma NextOrganisation(before: Db, done: set<OrgId>, org: OrgId, mint: Mint, now: int, mid: Db)
    requires org in before.retention && org !in done && done <= before.retention.Keys
    requires Tombstones(Expired(before, before.retention.Keys, now), mint) && mid == Purged(before, done, mint, now)
    ensures mid.retention == before.retention
    ensures Tombstones(Expired(mid, {org}, now), mint)
    ensures Purged(mid, {org}, mint, now) == Purged(before, done + {org}, mint, now)
    ensures |Expired(before, done + {org}, now)| == |Expired(before, done, now)| + |Expired(mid, {org}, now)|
  {
    FewerTombstones(before, done + {org}, before.retention.Keys, mint, now);
    FewerTombstones(before, {org}, before.retention.Keys, mint, now);
    PurgeNext(before, done, org, mint, now);
    OthersStillExpire(before, done, org, mint, now);
  }

  lemma FewerTombstones(db: Db, some: set<OrgId>, all: set<OrgId>, mint: Mint, now: int)
    requires some <= all && Tombstones(Expired(db, all, now), mint)
    ensures Tombstones(Expired(db, some, now), mint)
  {
    assert forall k | k in Expired(db, some, now) :: k in Expired(db, all, now);
  }

  lemma ExpiredInvitesExist(db: Db, orgs: set<OrgId>, now: int)
    ensures forall k | k in Expired(db, orgs, now) :: k.0 in db.invites
  {
  }
}
