/**
A candidate's access over time: the gates `_load_invite_or_error` and `_check_invited`, the
frozen deadline, and what erasure and retention do to both.

A candidate request passes its gates in one step and writes in later ones, each its own
commit, so requests, erasures, purges and edits interleave freely.  A request that has
passed its gates is in flight until it answers.
*/
module Lifecycle {
  import opened Base
  import opened Privacy
  import opened Retention

  /** `begun` once the request holds its sitting, which a submission needs. */
  datatype Passed = Passed(invite: InviteId, email: Email, begun: bool)

  /** `durations` is the live time limit of each assessment, which an interviewer may edit. */
  datatype State = State(db: Db, clock: int, durations: map<nat, Option<int>>, inFlight: map<nat, Passed>)

  datatype Event =
    | Advance(d: nat)
    | EditDuration(assessment: nat, minutes: Option<int>)
    | SendInvite(newInvite: InviteId, target: nat, to: seq<Email>, expiresAt: Option<int>)
    | Revoke(revoked: InviteId)
    | Gate(newTask: nat, invite: InviteId, typed: Email)
    | Begin(task: nat, row: nat)
    | Submit(task: nat, row: nat, question: nat, code: string)
    | SaveDraft(task: nat, row: nat, question: nat, code: string)
    | SendSignal(task: nat, row: nat, kind: string)
    | ResolveSlot(task: nat, row: nat, slot: nat, question: nat)
    | Answer(answered: nat)
    | EraseRequest(org: OrgId, address: Email, tombstone: Email)
    | RetentionPurge(mint: Mint)

  // ------------------------------------------------------------------------
  // The gates
  // ------------------------------------------------------------------------

  predicate HasAttempt(db: Db, i: InviteId, e: Email) {
    exists a :: a in db.attempts && db.attempts[a].invite == i && db.attempts[a].email == e
  }

  predicate IsExpired(inv: Invite, now: int) {
    inv.expiresAt.Some? && now > inv.expiresAt.value
  }

  /** Expiry bounds when a timed sitting may begin, not how long it lasts. */
  predicate LinkLive(db: Db, now: int, i: InviteId, e: Email) {
    && i in db.invites && db.invites[i].active
    && (IsExpired(db.invites[i], now) ==> db.invites[i].duration.Some? && HasAttempt(db, i, e))
  }

  predicate Invited(invites: map<InviteId, Invite>, i: InviteId, e: Email) {
    i in invites && exists r :: r in invites[i].recipients && Normalize(r) == e
  }

  predicate Admits(db: Db, now: int, i: InviteId, e: Email) {
    LinkLive(db, now, i, e) && Invited(db.invites, i, e)
  }

  /** `_deadline_for`, in seconds. */
  function Deadline(a: Attempt, inv: Invite): Option<int> {
    if inv.duration.None? then None else Some(a.startedAt + 60 * inv.duration.value)
  }

  // ------------------------------------------------------------------------
  // Steps
  // ------------------------------------------------------------------------

  /** Get-or-create under the (invite, candidate) key; an existing clock is never moved. */
  function Started(db: Db, row: nat, i: InviteId, e: Email, now: int): Db {
    if HasAttempt(db, i, e) || row in db.attempts then db
    else db.(attempts := db.attempts[row := Attempt(i, e, None, now, None)])
  }

  /** The unique keys that a second insert loses to. */
  predicate HasSubmission(db: Db, i: InviteId, e: Email, q: nat) {
    exists t :: t in db.subs && db.subs[t].invite == Some(i) && db.subs[t].email == Some(e) && db.subs[t].question == q
  }

  predicate HasDraft(db: Db, i: InviteId, e: Email, q: nat) {
    exists t :: t in db.drafts && db.drafts[t].invite == i && db.drafts[t].email == e && db.drafts[t].question == q
  }

  predicate HasSlotRow(db: Db, i: InviteId, e: Email, slot: nat) {
    exists t :: t in db.slotRows && db.slotRows[t].invite == i && db.slotRows[t].email == e && db.slotRows[t].slot == slot
  }

  function Submitted(db: Db, row: nat, i: InviteId, e: Email, q: nat, code: string): Db {
    if row in db.subs || HasSubmission(db, i, e, q) then db
    else db.(subs := db.subs[row := Submission(q, Some(i), Some(e), "", code)])
  }

  function Drafted(db: Db, row: nat, i: InviteId, e: Email, q: nat, code: string): Db {
    if row in db.drafts then
      if db.drafts[row].invite == i && db.drafts[row].email == e && db.drafts[row].question == q
      then db.(drafts := db.drafts[row := Draft(i, e, q, code)]) else db
    else if HasDraft(db, i, e, q) then db
    else db.(drafts := db.drafts[row := Draft(i, e, q, code)])
  }

  function Signalled(db: Db, row: nat, i: InviteId, e: Email, kind: string): Db {
    if row in db.signals then db else db.(signals := db.signals[row := Signal(i, e, kind)])
  }

  function Resolved(db: Db, row: nat, i: InviteId, e: Email, slot: nat, q: nat): Db {
    if row in db.slotRows || HasSlotRow(db, i, e, slot) then db
    else db.(slotRows := db.slotRows[row := SlotRow(i, e, slot, q)])
  }

  predicate ByCandidate(ev: Event) {
    ev.Begin? || ev.Submit? || ev.SaveDraft? || ev.SendSignal? || ev.ResolveSlot?
  }

  /** One write of a request that passed its gates; the gates are not asked again. */
  function Written(db: Db, now: int, ev: Event, p: Passed): Db requires ByCandidate(ev) {
    match ev
    case Begin(_, row) => Started(db, row, p.invite, p.email, now)
    case Submit(_, row, q, code) => if p.begun then Submitted(db, row, p.invite, p.email, q, code) else db
    case SaveDraft(_, row, q, code) => Drafted(db, row, p.invite, p.email, q, code)
    case SendSignal(_, row, kind) => Signalled(db, row, p.invite, p.email, kind)
    case ResolveSlot(_, row, slot, q) => Resolved(db, row, p.invite, p.email, slot, q)
  }

  function Write(s: State, ev: Event): State requires ByCandidate(ev) {
    if ev.task !in s.inFlight then s
    else
      var p := s.inFlight[ev.task];
      var db := Written(s.db, s.clock, ev, p);
      s.(db := db,
         inFlight := if ev.Begin? then s.inFlight[ev.task := p.(begun := HasAttempt(db, p.invite, p.email))] else s.inFlight)
  }

  function Pass(s: State, t: nat, i: InviteId, typed: Email): State {
    if t !in s.inFlight && Admits(s.db, s.clock, i, Normalize(typed))
    then s.(inFlight := s.inFlight[t := Passed(i, Normalize(typed), false)]) else s
  }

  function Sent(s: State, i: InviteId, target: nat, to: seq<Email>, expiresAt: Option<int>): map<InviteId, Invite> {
    if i in s.db.invites || target !in s.durations then s.db.invites
    else
      var recipients := seq(|to|, k requires 0 <= k < |to| => Normalize(to[k]));
      s.db.invites[i := Invite(None, Some(target), recipients, recipients, true, expiresAt, s.durations[target], s.clock)]
  }

  function Revoked(invites: map<InviteId, Invite>, i: InviteId): map<InviteId, Invite> {
    if i in invites then invites[i := invites[i].(active := false)] else invites
  }

  /** Each tombstone is new, and looks like one. */
  ghost predicate Minted(s: State, ev: Event) {
    match ev
    case EraseRequest(_, _, tombstone) => Fresh(s.db, tombstone) && IsTombstone(tombstone) && IsNormal(tombstone)
    case RetentionPurge(mint) =>
      && MintsFresh(s.db, mint, s.clock)
      && forall k | k in Expired(s.db, s.db.retention.Keys, s.clock) :: IsTombstone(mint(k)) && IsNormal(mint(k))
    case _ => true
  }

  ghost function Erasing(s: State, ev: Event): Db requires ev.EraseRequest? || ev.RetentionPurge? {
    if ev.EraseRequest? then EraseCandidate(s.db, ev.org, ev.address, ev.tombstone, s.clock)
    else Purged(s.db, s.db.retention.Keys, ev.mint, s.clock)
  }

  ghost function Apply(s: State, ev: Event): State {
    match ev
    case Advance(d) => s.(clock := s.clock + d)
    case EditDuration(a, minutes) => s.(durations := s.durations[a := minutes])
    case SendInvite(i, target, to, expiresAt) => s.(db := s.db.(invites := Sent(s, i, target, to, expiresAt)))
    case Revoke(i) => s.(db := s.db.(invites := Revoked(s.db.invites, i)))
    case Gate(t, i, typed) => Pass(s, t, i, typed)
    case Answer(t) => s.(inFlight := s.inFlight - {t})
    case EraseRequest(_, _, _) => if Minted(s, ev) then s.(db := Erasing(s, ev)) else s
    case RetentionPurge(_) => if Minted(s, ev) then s.(db := Erasing(s, ev)) else s
    case _ => Write(s, ev)
  }

  ghost function Run(s: State, es: seq<Event>): State {
    if es == [] then s else Apply(Run(s, es[..|es| - 1]), es[|es| - 1])
  }

  lemma RunSnoc(s: State, es: seq<Event>, ev: Event)
    ensures Run(s, es + [ev]) == Apply(Run(s, es), ev)
  {
    assert (es + [ev])[..|es|] == es;
  }

  // ------------------------------------------------------------------------
  // What every run keeps
  // ------------------------------------------------------------------------

  ghost predicate AllNormal(list: seq<Email>) {
    forall r | r in list :: IsNormal(r)
  }

  predicate SoundAttempt(a: Attempt) {
    IsNormal(a.email) && (a.erasedAt.Some? ==> IsTombstone(a.email))
  }

  ghost predicate NormalInvites(invites: map<InviteId, Invite>) {
    forall i | i in invites :: AllNormal(invites[i].recipients)
  }

  ghost predicate SoundAttempts(attempts: map<nat, Attempt>) {
    OneAttemptEach(attempts) && forall a {:trigger SoundAttempt(attempts[a])} | a in attempts :: SoundAttempt(attempts[a])
  }

  ghost predicate NormalTasks(inFlight: map<nat, Passed>) {
    forall t | t in inFlight :: IsNormal(inFlight[t].email)
  }

  /** Addresses are normalised, a candidate has one sitting per invite, and an erased one
      carries a tombstone. */
  ghost predicate Sound(s: State) {
    NormalInvites(s.db.invites) && SoundAttempts(s.db.attempts) && NormalTasks(s.inFlight)
  }

  lemma SendKeepsSound(s: State, ev: Event)
    requires NormalInvites(s.db.invites) && ev.SendInvite?
    ensures NormalInvites(Sent(s, ev.newInvite, ev.target, ev.to, ev.expiresAt))
  {
    forall k | 0 <= k < |ev.to| ensures IsNormal(Normalize(ev.to[k])) { NormalizeIsIdempotent(ev.to[k]); }
  }

  lemma EraseKeepsInvites(db: Db, org: OrgId, e: Email, tombstone: Email, now: int)
    requires NormalInvites(db.invites)
    ensures NormalInvites(EraseCandidate(db, org, e, tombstone, now).invites)
  {
    var after := EraseCandidate(db, org, e, tombstone, now).invites;
    forall i | i in after ensures AllNormal(after[i].recipients) {
      assert AllNormal(db.invites[i].recipients);
      WithoutDrops(db.invites[i].recipients, {e});
    }
  }

  lemma EraseKeepsAttempts(db: Db, org: OrgId, e: Email, tombstone: Email, now: int)
    requires SoundAttempts(db.attempts) && Fresh(db, tombstone) && IsTombstone(tombstone) && IsNormal(tombstone)
    ensures SoundAttempts(EraseCandidate(db, org, e, tombstone, now).attempts)
  {
    var after := EraseCandidate(db, org, e, tombstone, now).attempts;
    forall a | a in after ensures SoundAttempt(after[a]) { assert SoundAttempt(db.attempts[a]); }
  }

  lemma PurgeKeepsInvites(db: Db, orgs: set<OrgId>, mint: Mint, now: int)
    requires NormalInvites(db.invites)
    ensures NormalInvites(Purged(db, orgs, mint, now).invites)
  {
    var after := Purged(db, orgs, mint, now).invites;
    forall i | i in after ensures AllNormal(after[i].recipients) {
      assert AllNormal(db.invites[i].recipients);
      PurgeOnlyShortens(db, orgs, mint, now, i);
    }
  }

  lemma PurgeKeepsAttempts(s: State, ev: Event)
    requires SoundAttempts(s.db.attempts) && ev.RetentionPurge? && Minted(s, ev)
    ensures SoundAttempts(Purged(s.db, s.db.retention.Keys, ev.mint, s.clock).attempts)
  {
    var db, orgs := s.db, s.db.retention.Keys;
    var after := Purged(db, orgs, ev.mint, s.clock).attempts;
    PurgeErasesExactlyTheExpired(db, orgs, ev.mint, s.clock);
    ExpiredKeys(db, orgs, s.clock);
    forall a | a in after ensures SoundAttempt(after[a]) { assert SoundAttempt(db.attempts[a]); }
    forall a, b | a in after && b in after && after[a].invite == after[b].invite && after[a].email == after[b].email ensures a == b {
    }
  }

  lemma ExpiredKeys(db: Db, orgs: set<OrgId>, now: int)
    ensures forall a | a in db.attempts && ExpiredAttempt(db, orgs, db.attempts[a], now) ::
              (db.attempts[a].invite, db.attempts[a].email) in Expired(db, orgs, now)
  {
  }

  lemma ErasuresKeepSound(s: State, ev: Event)
    requires Sound(s) && (ev.EraseRequest? || ev.RetentionPurge?) && Minted(s, ev)
    ensures Sound(s.(db := Erasing(s, ev)))
  {
    if ev.EraseRequest? {
      EraseKeepsInvites(s.db, ev.org, ev.address, ev.tombstone, s.clock);
      EraseKeepsAttempts(s.db, ev.org, ev.address, ev.tombstone, s.clock);
    } else {
      PurgeKeepsInvites(s.db, s.db.retention.Keys, ev.mint, s.clock);
      PurgeKeepsAttempts(s, ev);
    }
  }

  lemma StartKeepsSound(db: Db, row: nat, i: InviteId, e: Email, now: int)
    requires SoundAttempts(db.attempts) && IsNormal(e)
    ensures SoundAttempts(Started(db, row, i, e, now).attempts)
  {
    if !HasAttempt(db, i, e) && row !in db.attempts {
      assert NoAttemptOf(db.attempts, i, e);
      OneMoreAttempt(db.attempts, row, Attempt(i, e, None, now, None));
    }
  }

  lemma OneMoreAttempt(attempts: map<nat, Attempt>, row: nat, at: Attempt)
    requires SoundAttempts(attempts) && SoundAttempt(at) && row !in attempts && NoAttemptOf(attempts, at.invite, at.email)
    ensures SoundAttempts(attempts[row := at])
  {
    var after := attempts[row := at];
    forall a | a in after ensures SoundAttempt(after[a]) { assert a != row ==> SoundAttempt(attempts[a]); }
  }

  /** Only beginning a sitting touches the attempts, and no write touches an invite. */
  lemma WriteTouches(db: Db, now: int, ev: Event, p: Passed)
    requires ByCandidate(ev)
    ensures Written(db, now, ev, p).invites == db.invites
    ensures Written(db, now, ev, p).attempts ==
            if ev.Begin? then Started(db, ev.row, p.invite, p.email, now).attempts else db.attempts
  {
    if !ev.Begin? { OtherWritesTouch(db, now, ev, p); }
  }

  lemma OtherWritesTouch(db: Db, now: int, ev: Event, p: Passed)
    requires ByCandidate(ev) && !ev.Begin?
    ensures Written(db, now, ev, p).invites == db.invites && Written(db, now, ev, p).attempts == db.attempts
  {
    if ev.SaveDraft? {
      DraftTouches(db, ev.row, p.invite, p.email, ev.question, ev.code);
    } else if ev.Submit? {
      assert Written(db, now, ev, p) == db.(subs := Written(db, now, ev, p).subs);
    }
  }

  lemma DraftTouches(db: Db, row: nat, i: InviteId, e: Email, q: nat, code: string)
    ensures Drafted(db, row, i, e, q, code).invites == db.invites && Drafted(db, row, i, e, q, code).attempts == db.attempts
  {
  }

  lemma WriteKeepsSound(s: State, ev: Event)
    requires Sound(s) && ByCandidate(ev)
    ensures Sound(Write(s, ev))
  {
    if ev.task in s.inFlight {
      var p := s.inFlight[ev.task];
      WriteTouches(s.db, s.clock, ev, p);
      if ev.Begin? { StartKeepsSound(s.db, ev.row, p.invite, p.email, s.clock); }
    }
  }

  lemma StepKeepsSound(s: State, ev: Event)
    requires Sound(s)
    ensures Sound(Apply(s, ev))
  {
    if ByCandidate(ev) {
      WriteKeepsSound(s, ev);
    } else if ev.EraseRequest? || ev.RetentionPurge? {
      if Minted(s, ev) { ErasuresKeepSound(s, ev); }
    } else if ev.SendInvite? {
      SendKeepsSound(s, ev);
    } else if ev.Gate? {
      NormalizeIsIdempotent(ev.typed);
    }
  }

  lemma {:induction false} RunKeepsSound(s: State, es: seq<Event>)
    requires Sound(s)
    ensures Sound(Run(s, es))
  {
    if es != [] {
      RunKeepsSound(s, es[..|es| - 1]);
      StepKeepsSound(Run(s, es[..|es| - 1]), es[|es| - 1]);
    }
  }

  // ------------------------------------------------------------------------
  // Which step catches a request in flight
  // ------------------------------------------------------------------------

  /** The candidate has a sitting here that the purge will not erase. */
  predicate HasLiveSitting(db: Db, now: int, i: InviteId, e: Email) {
    exists a :: a in db.attempts && db.attempts[a].invite == i && db.attempts[a].email == e
                && db.attempts[a].erasedAt.None? && !ExpiredAttempt(db, db.retention.Keys, db.attempts[a], now)
  }

  /** A purge at this moment takes the address off the invite: its sitting has expired, or
      the invite is past its window and nothing live is behind the address. */
  predicate Sheds(db: Db, now: int, i: InviteId, e: Email) {
    || (i, e) in Expired(db, db.retention.Keys, now)
    || (i in db.invites && PastWindow(db, db.retention.Keys, i, db.invites[i].createdAt, now) && !HasLiveSitting(db, now, i, e))
  }

  /** The step is an erasure that reaches the address of this request. */
  ghost predicate Caught(s: State, ev: Event, p: Passed) {
    match ev
    case EraseRequest(org, e, _) => Minted(s, ev) && p.email == e && InviteIn(s.db, p.invite, org)
    case RetentionPurge(_) => Minted(s, ev) && Sheds(s.db, s.clock, p.invite, p.email)
    case _ => false
  }

  lemma InvitedIsListed(invites: map<InviteId, Invite>, i: InviteId, e: Email)
    requires NormalInvites(invites) && i in invites && IsNormal(e)
    ensures Invited(invites, i, e) <==> e in invites[i].recipients
  {
    assert AllNormal(invites[i].recipients);
  }

  lemma RequestUnlistsExactly(db: Db, org: OrgId, e: Email, tombstone: Email, now: int, i: InviteId, r: Email)
    requires i in db.invites
    ensures r in EraseCandidate(db, org, e, tombstone, now).invites[i].recipients
            <==> r in db.invites[i].recipients && !(r == e && InviteIn(db, i, org))
  {
    WithoutDrops(db.invites[i].recipients, {e});
    OrgInvitesAre(db, org, i);
  }

  lemma LiveAfterErasing(db: Db, mint: Mint, now: int, i: InviteId, e: Email)
    requires SoundAttempts(db.attempts) && IsNormal(e)
    ensures var ks := Expired(db, db.retention.Keys, now);
      e in Live(EraseAttempts(db.attempts, ks, mint, now), i) <==> HasLiveSitting(db, now, i, e)
  {
    var ks := Expired(db, db.retention.Keys, now);
    var after := EraseAttempts(db.attempts, ks, mint, now);
    forall a | a in db.attempts ensures IsNormal(db.attempts[a].email) { assert SoundAttempt(db.attempts[a]); }
    forall a | a in db.attempts
      ensures (db.attempts[a].invite, db.attempts[a].email) in ks <==> ExpiredAttempt(db, db.retention.Keys, db.attempts[a], now)
    {
    }
    if HasLiveSitting(db, now, i, e) {
      var a :| a in db.attempts && db.attempts[a].invite == i && db.attempts[a].email == e
               && db.attempts[a].erasedAt.None? && !ExpiredAttempt(db, db.retention.Keys, db.attempts[a], now);
      assert after[a] == db.attempts[a];
    }
  }

  lemma PurgeUnlistsExactly(db: Db, mint: Mint, now: int, i: InviteId, r: Email)
    requires SoundAttempts(db.attempts) && i in db.invites && IsNormal(r)
    ensures r in Purged(db, db.retention.Keys, mint, now).invites[i].recipients
            <==> r in db.invites[i].recipients && !Sheds(db, now, i, r)
  {
    var orgs := db.retention.Keys;
    var ks := Expired(db, orgs, now);
    var y := EraseAll(db, ks, mint, now);
    ScopeKept(db, ks, orgs, mint, now);
    SameWindow(db, y, orgs, i, db.invites[i].createdAt, now);
    WithoutDrops(db.invites[i].recipients, Addresses(ks, i));
    LiveAfterErasing(db, mint, now, i, r);
    KeepLiveKeeps(y.invites[i].recipients, Live(y.attempts, i));
    assert r in Addresses(ks, i) <==> (i, r) in ks by {
      if (i, r) in ks { assert (i, r).0 == i && (i, r).1 == r; }
    }
  }

  /** An erasing step takes an invited request's address off the list exactly when it catches it. */
  lemma CaughtIsUnlisted(s: State, ev: Event, p: Passed)
    requires Sound(s) && IsNormal(p.email) && Invited(s.db.invites, p.invite, p.email)
    requires (ev.EraseRequest? || ev.RetentionPurge?) && Minted(s, ev)
    ensures Invited(Erasing(s, ev).invites, p.invite, p.email) <==> !Caught(s, ev, p)
  {
    ErasuresKeepSound(s, ev);
    InvitedIsListed(s.db.invites, p.invite, p.email);
    ErasingKeepsInvite(s, ev, p.invite);
    InvitedIsListed(Erasing(s, ev).invites, p.invite, p.email);
    if ev.EraseRequest? {
      RequestUnlistsExactly(s.db, ev.org, ev.address, ev.tombstone, s.clock, p.invite, p.email);
    } else {
      PurgeUnlistsExactly(s.db, ev.mint, s.clock, p.invite, p.email);
    }
  }

  lemma ErasingKeepsInvite(s: State, ev: Event, i: InviteId)
    requires i in s.db.invites && (ev.EraseRequest? || ev.RetentionPurge?)
    ensures i in Erasing(s, ev).invites
  {
  }

  // ------------------------------------------------------------------------
  // An un-erased sitting's address stays on its invite
  // ------------------------------------------------------------------------

  ghost predicate Listed(db: Db, a: nat) requires a in db.attempts {
    db.attempts[a].erasedAt.None? ==>
      db.attempts[a].invite in db.invites && db.attempts[a].email in db.invites[db.attempts[a].invite].recipients
  }

  ghost predicate AllListed(db: Db) {
    forall a | a in db.attempts :: Listed(db, a)
  }

  /** Every request in flight would still pass the invitation gate. */
  ghost predicate Vouched(s: State) {
    forall t | t in s.inFlight :: Invited(s.db.invites, s.inFlight[t].invite, s.inFlight[t].email)
  }

  ghost predicate Good(s: State) {
    Sound(s) && AllListed(s.db) && Vouched(s)
  }

  /** No erasure reaches the address of a request between its gate and its answer. */
  ghost predicate Calm(s: State, ev: Event) {
    forall t | t in s.inFlight :: !Caught(s, ev, s.inFlight[t])
  }

  ghost predicate CalmRun(s: State, es: seq<Event>) {
    es == [] || (CalmRun(s, es[..|es| - 1]) && Calm(Run(s, es[..|es| - 1]), es[|es| - 1]))
  }

  lemma OfficeKeepsListed(s: State, ev: Event)
    requires AllListed(s.db) && (ev.SendInvite? || ev.Revoke?)
    ensures AllListed(Apply(s, ev).db)
  {
    forall a | a in s.db.attempts ensures Listed(Apply(s, ev).db, a) { assert Listed(s.db, a); }
  }

  lemma RequestKeepsListed(db: Db, org: OrgId, e: Email, tombstone: Email, now: int, a: nat)
    requires a in db.attempts && Listed(db, a)
    ensures Listed(EraseCandidate(db, org, e, tombstone, now), a)
  {
    var i := db.attempts[a].invite;
    if i in db.invites {
      RequestUnlistsExactly(db, org, e, tombstone, now, i, db.attempts[a].email);
      OrgInvitesAre(db, org, i);
    }
  }

  lemma PurgeKeepsListed(db: Db, mint: Mint, now: int, a: nat)
    requires SoundAttempts(db.attempts) && a in db.attempts && Listed(db, a)
    ensures a in Purged(db, db.retention.Keys, mint, now).attempts && Listed(Purged(db, db.retention.Keys, mint, now), a)
  {
    PurgeErasesExactlyTheExpired(db, db.retention.Keys, mint, now);
    assert SoundAttempt(db.attempts[a]);
    if db.attempts[a].invite in db.invites {
      PurgeUnlistsExactly(db, mint, now, db.attempts[a].invite, db.attempts[a].email);
      if db.attempts[a].erasedAt.None? && !ExpiredAttempt(db, db.retention.Keys, db.attempts[a], now) { ExpiredOnce(db, now, a); }
    }
  }

  lemma ExpiredOnce(db: Db, now: int, a: nat)
    requires OneAttemptEach(db.attempts) && a in db.attempts && db.attempts[a].erasedAt.None?
    requires !ExpiredAttempt(db, db.retention.Keys, db.attempts[a], now)
    ensures !Sheds(db, now, db.attempts[a].invite, db.attempts[a].email)
  {
  }

  lemma ErasuresKeepListed(s: State, ev: Event)
    requires Sound(s) && AllListed(s.db) && (ev.EraseRequest? || ev.RetentionPurge?)
    ensures AllListed(Erasing(s, ev))
  {
    var after := Erasing(s, ev);
    forall a | a in after.attempts ensures Listed(after, a) {
      assert a in s.db.attempts ==> Listed(s.db, a);
      if ev.EraseRequest? {
        RequestKeepsListed(s.db, ev.org, ev.address, ev.tombstone, s.clock, a);
      } else {
        PurgeKeepsListed(s.db, ev.mint, s.clock, a);
      }
    }
  }

  lemma StartKeepsListed(db: Db, row: nat, i: InviteId, e: Email, now: int)
    requires AllListed(db) && i in db.invites && e in db.invites[i].recipients
    ensures AllListed(Started(db, row, i, e, now))
  {
    if !HasAttempt(db, i, e) && row !in db.attempts {
      ListedOneMore(db, row, Attempt(i, e, None, now, None));
    }
  }

  lemma ListedOneMore(db: Db, row: nat, at: Attempt)
    requires AllListed(db) && row !in db.attempts && at.invite in db.invites && at.email in db.invites[at.invite].recipients
    ensures AllListed(db.(attempts := db.attempts[row := at]))
  {
    var after := db.(attempts := db.attempts[row := at]);
    forall a | a in after.attempts ensures Listed(after, a) { assert a != row ==> Listed(db, a); }
  }

  lemma SameSittingsSameListed(db: Db, db': Db)
    requires AllListed(db) && db'.attempts == db.attempts && db'.invites == db.invites
    ensures AllListed(db')
  {
    forall a | a in db'.attempts ensures Listed(db', a) { assert Listed(db, a); }
  }

  lemma WriteKeepsGood(s: State, ev: Event)
    requires Good(s) && ByCandidate(ev) && ev.task in s.inFlight
    ensures Good(Write(s, ev))
  {
    var p := s.inFlight[ev.task];
    var after := Written(s.db, s.clock, ev, p);
    WriteKeepsSound(s, ev);
    WriteTouches(s.db, s.clock, ev, p);
    InvitedIsListed(s.db.invites, p.invite, p.email);
    if ev.Begin? {
      StartKeepsListed(s.db, ev.row, p.invite, p.email, s.clock);
    } else {
      SameSittingsSameListed(s.db, after);
    }
  }

  lemma ErasuresKeepGood(s: State, ev: Event)
    requires Good(s) && (ev.EraseRequest? || ev.RetentionPurge?) && Minted(s, ev) && Calm(s, ev)
    ensures Good(s.(db := Erasing(s, ev)))
  {
    ErasuresKeepSound(s, ev);
    ErasuresKeepListed(s, ev);
    forall t | t in s.inFlight ensures Invited(Erasing(s, ev).invites, s.inFlight[t].invite, s.inFlight[t].email) {
      CaughtIsUnlisted(s, ev, s.inFlight[t]);
    }
  }

  lemma OfficeKeepsVouched(s: State, ev: Event)
    requires Vouched(s) && (ev.SendInvite? || ev.Revoke?)
    ensures Vouched(Apply(s, ev))
  {
  }

  lemma StepKeepsGood(s: State, ev: Event)
    requires Good(s) && Calm(s, ev)
    ensures Good(Apply(s, ev))
  {
    StepKeepsSound(s, ev);
    if ByCandidate(ev) {
      if ev.task in s.inFlight { WriteKeepsGood(s, ev); }
    } else if ev.EraseRequest? || ev.RetentionPurge? {
      if Minted(s, ev) { ErasuresKeepGood(s, ev); }
    } else if ev.SendInvite? || ev.Revoke? {
      OfficeKeepsListed(s, ev);
      OfficeKeepsVouched(s, ev);
    }
  }

  lemma {:induction false} RunKeepsGood(s: State, es: seq<Event>)
    requires Good(s) && CalmRun(s, es)
    ensures Good(Run(s, es))
  {
    if es != [] {
      RunKeepsGood(s, es[..|es| - 1]);
      StepKeepsGood(Run(s, es[..|es| - 1]), es[|es| - 1]);
    }
  }

  /** In every state such a run reaches, a candidate with an un-erased timed sitting is
      admitted, expired link or not, as long as the invite is not revoked. */
  lemma StartedSittingIsAdmitted(s: State, es: seq<Event>, a: nat)
    requires Good(s) && CalmRun(s, es) && a in Run(s, es).db.attempts
    requires var db := Run(s, es).db; var at := db.attempts[a];
      at.erasedAt.None? && at.invite in db.invites && db.invites[at.invite].active && db.invites[at.invite].duration.Some?
    ensures var now := Run(s, es); Admits(now.db, now.clock, now.db.attempts[a].invite, now.db.attempts[a].email)
  {
    RunKeepsGood(s, es);
    var now := Run(s, es);
    assert Listed(now.db, a) && SoundAttempt(now.db.attempts[a]);
    InvitedIsListed(now.db.invites, now.db.attempts[a].invite, now.db.attempts[a].email);
  }

  /** A live sitting whose own candidate the gate turns away. */
  ghost predicate LockedOut(db: Db, a: nat) {
    a in db.attempts && db.attempts[a].erasedAt.None? && !Invited(db.invites, db.attempts[a].invite, db.attempts[a].email)
  }

  /** What catching a request does to its address: off the list, and no sitting behind it. */
  lemma CaughtAddressIsGone(s: State, ev: Event, p: Passed)
    requires Good(s) && Caught(s, ev, p) && IsNormal(p.email) && Invited(s.db.invites, p.invite, p.email) && !IsTombstone(p.email)
    ensures Apply(s, ev) == s.(db := Erasing(s, ev)) && Erasing(s, ev).attempts.Keys == s.db.attempts.Keys
    ensures !Invited(Erasing(s, ev).invites, p.invite, p.email) && NoAttemptOf(Erasing(s, ev).attempts, p.invite, p.email)
  {
    CaughtIsUnlisted(s, ev, p);
    ErasuresKeepSound(s, ev);
    ErasuresKeepListed(s, ev);
    ErasingKeepsInvite(s, ev, p.invite);
    InvitedIsListed(Erasing(s, ev).invites, p.invite, p.email);
    UnlistedHasNoSitting(Erasing(s, ev), p.invite, p.email);
    SameAttemptKeys(s, ev);
  }

  lemma CaughtRequestIsLockedOut(s: State, ev: Event, t: nat, row: nat)
    requires Good(s) && t in s.inFlight && Caught(s, ev, s.inFlight[t]) && !IsTombstone(s.inFlight[t].email)
    requires row !in s.db.attempts
    ensures LockedOut(Apply(Apply(s, ev), Begin(t, row)).db, row)
  {
    CaughtAddressIsGone(s, ev, s.inFlight[t]);
    LateStartIsLockedOut(Apply(s, ev), t, row);
  }

  lemma LateStartIsLockedOut(s: State, t: nat, row: nat)
    requires t in s.inFlight && row !in s.db.attempts && NoAttemptOf(s.db.attempts, s.inFlight[t].invite, s.inFlight[t].email)
    requires !Invited(s.db.invites, s.inFlight[t].invite, s.inFlight[t].email)
    ensures LockedOut(Apply(s, Begin(t, row)).db, row)
  {
    LateStartRecreates(s, t, row);
    WriteLeavesInvites(s, Begin(t, row));
  }

  lemma UnlistedHasNoSitting(db: Db, i: InviteId, e: Email)
    requires SoundAttempts(db.attempts) && AllListed(db) && !IsTombstone(e)
    requires i in db.invites && e !in db.invites[i].recipients
    ensures NoAttemptOf(db.attempts, i, e)
  {
    forall a | a in db.attempts ensures db.attempts[a].invite != i || db.attempts[a].email != e {
      assert SoundAttempt(db.attempts[a]) && Listed(db, a);
    }
  }

  lemma SameAttemptKeys(s: State, ev: Event)
    requires ev.EraseRequest? || ev.RetentionPurge?
    ensures Erasing(s, ev).attempts.Keys == s.db.attempts.Keys
  {
  }

  /** The condition is exact.  From any state such runs reach, a step leaves some request's
      next start in a sitting its candidate cannot get back into if and only if the step
      catches a request in flight. */
  lemma LockedOutExactlyWhenCaught(s: State, ev: Event)
    requires Good(s) && forall t | t in s.inFlight :: !IsTombstone(s.inFlight[t].email)
    ensures !Calm(s, ev) <==>
            exists t, row :: t in s.inFlight && row !in s.db.attempts && LockedOut(Apply(Apply(s, ev), Begin(t, row)).db, row)
  {
    if Calm(s, ev) {
      forall t, row | t in s.inFlight && row !in s.db.attempts ensures !LockedOut(Apply(Apply(s, ev), Begin(t, row)).db, row) {
        NobodyIsLockedOut(s, ev, t, row);
      }
    } else {
      var t :| t in s.inFlight && Caught(s, ev, s.inFlight[t]);
      var row := FreshKey(s.db.attempts.Keys);
      CaughtRequestIsLockedOut(s, ev, t, row);
    }
  }

  lemma NobodyIsLockedOut(s: State, ev: Event, t: nat, a: nat)
    requires Good(s) && Calm(s, ev)
    ensures !LockedOut(Apply(Apply(s, ev), Begin(t, a)).db, a)
  {
    var s2 := Apply(Apply(s, ev), Begin(t, a));
    StepKeepsGood(s, ev);
    StepKeepsGood(Apply(s, ev), Begin(t, a));
    if a in s2.db.attempts && s2.db.attempts[a].erasedAt.None? {
      assert Listed(s2.db, a) && SoundAttempt(s2.db.attempts[a]);
      InvitedIsListed(s2.db.invites, s2.db.attempts[a].invite, s2.db.attempts[a].email);
    }
  }

  // ------------------------------------------------------------------------
  // The two races
  // ------------------------------------------------------------------------

  const Tombstone := TombstoneDomain

  /** One organisation with a one-day window, and an old timed invite to "a" that nobody opened. */
  const OldInvite := Invite(None, Some(0), ["a"], ["a"], true, None, Some(60), 0)
  const OldOffice := State(
    Db(map[], map[], map[], map[], map[], map[], map[], map[0 := OldInvite], map[], map[0 := 0], map[0 := Some(1)]),
    2 * Day, map[0 := Some(60)], map[])

  lemma SmallNamesAreNormal()
    ensures IsNormal("a") && IsNormal(Tombstone) && IsTombstone(Tombstone) && !IsTombstone("a") && Normalize("a") == "a"
  {
    assert Strip("a") == "a";
    assert Strip(Tombstone) == Tombstone;
  }

  /** "a" opens the old link and passes the gates. */
  lemma TheGateAdmits()
    ensures Good(OldOffice) && Good(Apply(OldOffice, Gate(0, 0, "a")))
    ensures Apply(OldOffice, Gate(0, 0, "a")) == OldOffice.(inFlight := map[0 := Passed(0, "a", false)])
  {
    SmallNamesAreNormal();
    assert "a" in OldOffice.db.invites[0].recipients;
    assert AllNormal(OldOffice.db.invites[0].recipients);
    assert Invited(OldOffice.db.invites, 0, "a");
    assert Pass(OldOffice, 0, 0, "a").inFlight == map[0 := Passed(0, "a", false)];
    StepKeepsSound(OldOffice, Gate(0, 0, "a"));
  }

  /** The retention race: the purge commits between the gate and the insert, and the sitting
      that then begins is live and locked out -- what `_expire_invite_recipients` sets out to
      avoid. */
  lemma RetentionRaceLocksOut(mint: Mint)
    ensures LockedOut(Run(OldOffice, [Gate(0, 0, "a"), RetentionPurge(mint), Begin(0, 0)]).db, 0)
  {
    TheGateAdmits();
    SmallNamesAreNormal();
    var s, ev := Apply(OldOffice, Gate(0, 0, "a")), RetentionPurge(mint);
    assert Expired(s.db, s.db.retention.Keys, s.clock) == {};
    assert OrgOf(s.db, 0) == Some(0);
    assert Caught(s, ev, s.inFlight[0]);
    CaughtRequestIsLockedOut(s, ev, 0, 0);
    RunThree(OldOffice, Gate(0, 0, "a"), ev, Begin(0, 0));
  }

  /** The erasure race: the request commits between the gate and the insert, and the erased
      address is back. */
  lemma ErasureRaceRecreates()
    ensures var s := Run(OldOffice, [Gate(0, 0, "a"), EraseRequest(0, "a", Tombstone), Begin(0, 0)]);
      0 in s.db.attempts && s.db.attempts[0] == Attempt(0, "a", None, s.clock, None)
  {
    TheGateAdmits();
    var s, ev := Apply(OldOffice, Gate(0, 0, "a")), EraseRequest(0, "a", Tombstone);
    RequestLeavesTasks(s, ev);
    LateStartRecreates(Apply(s, ev), 0, 0);
    RunThree(OldOffice, Gate(0, 0, "a"), ev, Begin(0, 0));
  }

  lemma RequestLeavesTasks(s: State, ev: Event)
    requires ev.EraseRequest?
    ensures Apply(s, ev).inFlight == s.inFlight && Apply(s, ev).clock == s.clock
    ensures Apply(s, ev).db.attempts.Keys == s.db.attempts.Keys
  {
    SameAttemptKeys(s, ev);
  }

  lemma RunThree(s: State, a: Event, b: Event, c: Event)
    ensures Run(s, [a, b, c]) == Apply(Apply(Apply(s, a), b), c)
  {
    RunSnoc(s, [], a);
    RunSnoc(s, [a], b);
    RunSnoc(s, [a, b], c);
    assert [] + [a] == [a] && [a] + [b] == [a, b] && [a, b] + [c] == [a, b, c];
  }

  // ------------------------------------------------------------------------
  // A sitting's deadline is the one it began with
  // ------------------------------------------------------------------------

  /** The step ends this sitting: a request for that very address in that organisation, or
      a purge it outlived its organisation's window for. */
  ghost predicate Ends(s: State, ev: Event, at: Attempt) {
    || (ev.EraseRequest? && ev.address == at.email && InviteIn(s.db, at.invite, ev.org))
    || (ev.RetentionPurge? && ExpiredAttempt(s.db, s.db.retention.Keys, at, s.clock))
  }

  /** What a step may do to one sitting: nothing, or end it. */
  ghost predicate SittingStep(s: State, ev: Event, a: nat, after: Db) requires a in s.db.attempts {
    && a in after.attempts
    && after.attempts[a].invite == s.db.attempts[a].invite && after.attempts[a].startedAt == s.db.attempts[a].startedAt
    && (after.attempts[a] == s.db.attempts[a] || (after.attempts[a].erasedAt.Some? && Ends(s, ev, s.db.attempts[a])))
  }

  lemma ErasuresEndSittings(s: State, ev: Event, a: nat)
    requires OneAttemptEach(s.db.attempts) && a in s.db.attempts && (ev.EraseRequest? || ev.RetentionPurge?)
    ensures SittingStep(s, ev, a, Erasing(s, ev))
  {
    if ev.EraseRequest? {
      ErasureTouchesOnlyTheCandidate(s.db, ev.org, ev.address, ev.tombstone, s.clock);
    } else {
      PurgeErasesExactlyTheExpired(s.db, s.db.retention.Keys, ev.mint, s.clock);
    }
  }

  lemma WriteLeavesSitting(s: State, ev: Event, a: nat)
    requires ByCandidate(ev) && a in s.db.attempts
    ensures a in Write(s, ev).db.attempts && Write(s, ev).db.attempts[a] == s.db.attempts[a]
  {
    if ev.task in s.inFlight {
      var p := s.inFlight[ev.task];
      WriteTouches(s.db, s.clock, ev, p);
      if ev.Begin? { StartLeavesSitting(s.db, ev.row, p.invite, p.email, s.clock, a); }
    }
  }

  lemma StartLeavesSitting(db: Db, row: nat, i: InviteId, e: Email, now: int, a: nat)
    requires a in db.attempts
    ensures a in Started(db, row, i, e, now).attempts && Started(db, row, i, e, now).attempts[a] == db.attempts[a]
  {
  }

  lemma WaysASittingEnds(s: State, ev: Event, a: nat)
    requires OneAttemptEach(s.db.attempts) && a in s.db.attempts
    ensures SittingStep(s, ev, a, Apply(s, ev).db)
  {
    if ByCandidate(ev) {
      WriteLeavesSitting(s, ev, a);
    } else if ev.EraseRequest? || ev.RetentionPurge? {
      ErasuresEndSittings(s, ev, a);
    }
  }

  /** No new address, no other time limit, no second life. */
  ghost predicate OnlyShrinks(before: Invite, after: Invite) {
    && after.duration == before.duration && after.expiresAt == before.expiresAt
    && forall r | r in after.recipients :: r in before.recipients
  }

  lemma PurgeOnlyShortens(db: Db, orgs: set<OrgId>, mint: Mint, now: int, i: InviteId)
    requires i in db.invites
    ensures var after := Purged(db, orgs, mint, now).invites[i];
      && after == db.invites[i].(recipients := after.recipients, deliveries := after.deliveries)
      && forall r | r in after.recipients :: r in db.invites[i].recipients
  {
    var ks := Expired(db, orgs, now);
    var y := EraseAll(db, ks, mint, now);
    WithoutDrops(db.invites[i].recipients, Addresses(ks, i));
    KeepLiveKeeps(y.invites[i].recipients, Live(y.attempts, i));
  }

  lemma ErasuresShrink(s: State, ev: Event, i: InviteId)
    requires i in s.db.invites && (ev.EraseRequest? || ev.RetentionPurge?)
    ensures var after := Erasing(s, ev).invites;
      i in after && OnlyShrinks(s.db.invites[i], after[i]) && after[i].active == s.db.invites[i].active
  {
    if ev.EraseRequest? {
      WithoutDrops(s.db.invites[i].recipients, {ev.address});
    } else {
      PurgeOnlyShortens(s.db, s.db.retention.Keys, ev.mint, s.clock, i);
    }
  }

  ghost predicate InviteStep(s: State, ev: Event, i: InviteId) requires i in s.db.invites {
    && i in Apply(s, ev).db.invites
    && OnlyShrinks(s.db.invites[i], Apply(s, ev).db.invites[i])
    && Apply(s, ev).db.invites[i].active == (s.db.invites[i].active && ev != Revoke(i))
  }

  lemma WriteLeavesInvites(s: State, ev: Event)
    requires ByCandidate(ev)
    ensures Write(s, ev).db.invites == s.db.invites
  {
    if ev.task in s.inFlight { WriteTouches(s.db, s.clock, ev, s.inFlight[ev.task]); }
  }

  lemma OfficeStep(s: State, ev: Event, i: InviteId)
    requires i in s.db.invites && (ev.SendInvite? || ev.Revoke?)
    ensures InviteStep(s, ev, i)
  {
    if ev.SendInvite? {
      SendLeavesInvite(s, ev, i);
    } else {
      RevokeEndsInvite(s.db.invites, ev.revoked, i);
    }
  }

  lemma SendLeavesInvite(s: State, ev: Event, i: InviteId)
    requires i in s.db.invites && ev.SendInvite?
    ensures var after := Sent(s, ev.newInvite, ev.target, ev.to, ev.expiresAt); i in after && after[i] == s.db.invites[i]
  {
  }

  lemma RevokeEndsInvite(invites: map<InviteId, Invite>, revoked: InviteId, i: InviteId)
    requires i in invites
    ensures i in Revoked(invites, revoked)
    ensures Revoked(invites, revoked)[i] == if revoked == i then invites[i].(active := false) else invites[i]
  {
  }

  /** No step changes an invite's time limit, revives it, or lists a new address on it. */
  lemma WaysAnInviteChanges(s: State, ev: Event, i: InviteId)
    requires i in s.db.invites
    ensures InviteStep(s, ev, i)
  {
    if ByCandidate(ev) {
      WriteLeavesInvites(s, ev);
    } else if ev.EraseRequest? || ev.RetentionPurge? {
      ErasuresShrink(s, ev, i);
    } else if ev.SendInvite? || ev.Revoke? {
      OfficeStep(s, ev, i);
    }
  }

  /** While the sitting is not erased, its identity and its deadline are those it had. */
  ghost predicate Frozen(before: Db, after: Db, a: nat)
    requires a in before.attempts && before.attempts[a].invite in before.invites
  {
    var i := before.attempts[a].invite;
    && a in after.attempts && i in after.invites && after.attempts[a].invite == i
    && after.invites[i].duration == before.invites[i].duration
    && (after.attempts[a].erasedAt.None? ==>
          && after.attempts[a] == before.attempts[a]
          && Deadline(after.attempts[a], after.invites[i]) == Deadline(before.attempts[a], before.invites[i]))
  }

  lemma StepKeepsFrozen(before: Db, s: State, ev: Event, a: nat)
    requires a in before.attempts && before.attempts[a].invite in before.invites
    requires Frozen(before, s.db, a) && OneAttemptEach(s.db.attempts)
    ensures Frozen(before, Apply(s, ev).db, a)
  {
    WaysASittingEnds(s, ev, a);
    WaysAnInviteChanges(s, ev, before.attempts[a].invite);
    FrozenOneMore(before, s, ev, a, Apply(s, ev).db);
  }

  lemma FrozenOneMore(before: Db, s: State, ev: Event, a: nat, after: Db)
    requires a in before.attempts && before.attempts[a].invite in before.invites && Frozen(before, s.db, a)
    requires SittingStep(s, ev, a, after) && before.attempts[a].invite in after.invites
    requires after.invites[before.attempts[a].invite].duration == s.db.invites[before.attempts[a].invite].duration
    ensures Frozen(before, after, a)
  {
  }

  /** Over any run at all of edits, reloads, expiry, purges and erasures, races included. */
  lemma {:induction false} DeadlineIsFrozen(s: State, es: seq<Event>, a: nat)
    requires Sound(s) && a in s.db.attempts && s.db.attempts[a].invite in s.db.invites
    ensures Frozen(s.db, Run(s, es).db, a)
  {
    if es != [] {
      var init := es[..|es| - 1];
      DeadlineIsFrozen(s, init, a);
      RunKeepsSound(s, init);
      StepKeepsFrozen(s.db, Run(s, init), es[|es| - 1], a);
    }
  }

  /** A sitting on an invite of `m` minutes ends `60 * m` seconds after the step that began it,
      and one on an untimed invite never does, as long as it is not erased. */
  lemma DeadlineRunsFromTheStart(s: State, t: nat, row: nat, later: seq<Event>)
    requires Sound(s) && t in s.inFlight && s.inFlight[t].invite in s.db.invites
    requires row !in s.db.attempts && row in Apply(s, Begin(t, row)).db.attempts
    ensures var i, after := s.inFlight[t].invite, Run(Apply(s, Begin(t, row)), later).db;
      && row in after.attempts && i in after.invites
      && (after.attempts[row].erasedAt.None? ==>
            Deadline(after.attempts[row], after.invites[i])
            == match s.db.invites[i].duration case None => None case Some(m) => Some(s.clock + 60 * m))
  {
    BeginStampsTheClock(s, t, row);
    StepKeepsSound(s, Begin(t, row));
    DeadlineIsFrozen(Apply(s, Begin(t, row)), later, row);
  }

  lemma BeginStampsTheClock(s: State, t: nat, row: nat)
    requires t in s.inFlight && row !in s.db.attempts && row in Apply(s, Begin(t, row)).db.attempts
    ensures Apply(s, Begin(t, row)).db.invites == s.db.invites
    ensures Apply(s, Begin(t, row)).db.attempts[row] == Attempt(s.inFlight[t].invite, s.inFlight[t].email, None, s.clock, None)
  {
  }

  // ------------------------------------------------------------------------
  // What the office and the clock do
  // ------------------------------------------------------------------------

  /** An invitation is stored once, open, with the normalised addresses, the assessment's time
      limit as it is now and the moment it was sent. */
  lemma SendStores(s: State, i: InviteId, target: nat, to: seq<Email>, expiresAt: Option<int>)
    ensures var s' := Apply(s, SendInvite(i, target, to, expiresAt));
      if i in s.db.invites || target !in s.durations then s' == s
      else && i in s'.db.invites && s' == s.(db := s.db.(invites := s.db.invites[i := s'.db.invites[i]]))
           && var inv := s'.db.invites[i];
           && inv == Invite(None, Some(target), inv.recipients, inv.recipients, true, expiresAt, s.durations[target], s.clock)
           && |inv.recipients| == |to| && forall k | 0 <= k < |to| :: inv.recipients[k] == Normalize(to[k])
  {
    if i in s.db.invites || target !in s.durations { assert s.db.(invites := s.db.invites) == s.db; }
  }

  /** Time passes by its own event only; an edit touches no invite, an answer ends a request. */
  lemma OfficeMovesNothingElse(s: State, d: nat, target: nat, minutes: Option<int>, t: nat)
    ensures Apply(s, Advance(d)) == State(s.db, s.clock + d, s.durations, s.inFlight)
    ensures Apply(s, EditDuration(target, minutes)) == State(s.db, s.clock, s.durations[target := minutes], s.inFlight)
    ensures Apply(s, Answer(t)) == State(s.db, s.clock, s.durations, s.inFlight - {t})
  {
  }

  /** An erasure request marks the sittings it reaches with the moment it commits. */
  lemma RequestIsDated(s: State, org: OrgId, e: Email, tombstone: Email, a: nat)
    requires Minted(s, EraseRequest(org, e, tombstone)) && a in s.db.attempts
    requires s.db.attempts[a].email == e && InviteIn(s.db, s.db.attempts[a].invite, org)
    ensures var before, after := s.db.attempts[a], Apply(s, EraseRequest(org, e, tombstone)).db.attempts;
      a in after && after[a] == Attempt(before.invite, tombstone, None, before.startedAt, Some(s.clock))
  {
  }

  // ------------------------------------------------------------------------
  // What a request writes
  // ------------------------------------------------------------------------

  ghost predicate Sits(db: Db, i: InviteId, e: Email) {
    exists a :: a in db.attempts && db.attempts[a].invite == i && db.attempts[a].email == e
  }

  /** The sitting is stored unless the candidate has one, and the request holds it if they have
      one now. */
  lemma BeginStores(s: State, t: nat, row: nat)
    requires t in s.inFlight
    ensures var p, s' := s.inFlight[t], Apply(s, Begin(t, row));
      && s'.db == (if Sits(s.db, p.invite, p.email) || row in s.db.attempts then s.db
                   else s.db.(attempts := s.db.attempts[row := Attempt(p.invite, p.email, None, s.clock, None)]))
      && s'.inFlight == s.inFlight[t := Passed(p.invite, p.email, Sits(s'.db, p.invite, p.email))]
  {
    assert s.inFlight[t] == Passed(s.inFlight[t].invite, s.inFlight[t].email, s.inFlight[t].begun);
  }

  /** A submission is stored for a request that holds its sitting, and the first one per
      question only. */
  lemma SubmitStores(s: State, t: nat, row: nat, q: nat, code: string)
    requires t in s.inFlight
    ensures var p, subs := s.inFlight[t], s.db.subs;
      var first := forall r | r in subs :: subs[r].invite != Some(p.invite) || subs[r].email != Some(p.email) || subs[r].question != q;
      Apply(s, Submit(t, row, q, code))
      == if p.begun && row !in subs && first
         then s.(db := s.db.(subs := subs[row := Submission(q, Some(p.invite), Some(p.email), "", code)])) else s
  {
  }

  /** A draft is stored once per question and overwritten after that. */
  lemma DraftStores(s: State, t: nat, row: nat, q: nat, code: string)
    requires t in s.inFlight
    ensures var p, drafts := s.inFlight[t], s.db.drafts;
      var mine := row in drafts && drafts[row].invite == p.invite && drafts[row].email == p.email && drafts[row].question == q;
      var first := forall r | r in drafts :: drafts[r].invite != p.invite || drafts[r].email != p.email || drafts[r].question != q;
      Apply(s, SaveDraft(t, row, q, code))
      == if mine || (row !in drafts && first)
         then s.(db := s.db.(drafts := drafts[row := Draft(p.invite, p.email, q, code)])) else s
  {
  }

  /** Every signal is stored, and a slot's variant once. */
  lemma TraceStores(s: State, t: nat, row: nat, kind: string, slot: nat, q: nat)
    requires t in s.inFlight
    ensures var p, slotRows := s.inFlight[t], s.db.slotRows;
      var first := forall r | r in slotRows :: slotRows[r].invite != p.invite || slotRows[r].email != p.email || slotRows[r].slot != slot;
      && Apply(s, SendSignal(t, row, kind))
         == (if row in s.db.signals then s else s.(db := s.db.(signals := s.db.signals[row := Signal(p.invite, p.email, kind)])))
      && Apply(s, ResolveSlot(t, row, slot, q))
         == (if row !in slotRows && first then s.(db := s.db.(slotRows := slotRows[row := SlotRow(p.invite, p.email, slot, q)])) else s)
  {
  }

  lemma SubmitKeepsUnique(s: State, ev: Event)
    requires UniqueKeys(s.db) && (ev.Begin? || ev.Submit?) && ev.task in s.inFlight
    ensures UniqueKeys(Apply(s, ev).db)
  {
    if ev.Begin? {
      BeginStores(s, ev.task, ev.row);
    } else {
      SubmitStores(s, ev.task, ev.row, ev.question, ev.code);
    }
  }

  lemma DraftKeepsUnique(s: State, ev: Event)
    requires UniqueKeys(s.db) && ev.SaveDraft? && ev.task in s.inFlight
    ensures UniqueKeys(Apply(s, ev).db)
  {
    DraftStores(s, ev.task, ev.row, ev.question, ev.code);
  }

  lemma WriteKeepsUnique(s: State, ev: Event)
    requires UniqueKeys(s.db) && ByCandidate(ev) && ev.task in s.inFlight
    ensures UniqueKeys(Apply(s, ev).db)
  {
    if ev.Begin? || ev.Submit? {
      SubmitKeepsUnique(s, ev);
    } else if ev.SaveDraft? {
      DraftKeepsUnique(s, ev);
    } else if ev.SendSignal? {
      TraceStores(s, ev.task, ev.row, ev.kind, 0, 0);
    } else {
      TraceStores(s, ev.task, ev.row, "", ev.slot, ev.question);
    }
  }

  lemma StepKeepsUnique(s: State, ev: Event)
    requires UniqueKeys(s.db)
    ensures UniqueKeys(Apply(s, ev).db)
  {
    if ByCandidate(ev) {
      if ev.task in s.inFlight { WriteKeepsUnique(s, ev); }
    } else if ev.EraseRequest? && Minted(s, ev) {
      ErasureKeepsUniqueKeys(s.db, ev.address, OrgInvites(s.db, ev.org), CandidateSubs(s.db, ev.org, ev.address), ev.tombstone, s.clock);
    } else if ev.RetentionPurge? && Minted(s, ev) {
      PurgeKeepsUniqueKeys(s.db, s.db.retention.Keys, ev.mint, s.clock);
    }
  }

  /** In every run of requests, races, erasures and purges: one sitting per candidate and
      invite, and per candidate and invite one submission and one draft a question and one
      variant a slot. */
  lemma {:induction false} RunKeepsUniqueKeys(s: State, es: seq<Event>)
    requires UniqueKeys(s.db)
    ensures UniqueKeys(Run(s, es).db)
  {
    if es != [] {
      RunKeepsUniqueKeys(s, es[..|es| - 1]);
      StepKeepsUnique(Run(s, es[..|es| - 1]), es[|es| - 1]);
    }
  }

  // ------------------------------------------------------------------------
  // Who gets in
  // ------------------------------------------------------------------------

  /** A request gets past the gates exactly for a listed address on an active invite that has
      not expired -- or that has, for a timed sitting already begun. */
  lemma GateOpensExactlyFor(s: State, t: nat, i: InviteId, typed: Email)
    requires t !in s.inFlight
    ensures t in Apply(s, Gate(t, i, typed)).inFlight <==>
              && i in s.db.invites && s.db.invites[i].active
              && (exists r :: r in s.db.invites[i].recipients && Normalize(r) == Normalize(typed))
              && (s.db.invites[i].expiresAt.None? || s.clock <= s.db.invites[i].expiresAt.value
                  || (s.db.invites[i].duration.Some?
                      && exists a :: a in s.db.attempts && s.db.attempts[a].invite == i && s.db.attempts[a].email == Normalize(typed)))
  {
  }

  ghost predicate Dead(s: State, i: InviteId) {
    i in s.db.invites && !s.db.invites[i].active
  }

  /** Revocation is for good: whatever happens after it, nobody passes the gates of that invite,
      a sitting under way included. */
  lemma {:induction false} RevokedForGood(s: State, later: seq<Event>, i: InviteId, t: nat, typed: Email)
    requires i in s.db.invites && t !in Run(Apply(s, Revoke(i)), later).inFlight
    ensures Dead(Run(Apply(s, Revoke(i)), later), i)
    ensures t !in Apply(Run(Apply(s, Revoke(i)), later), Gate(t, i, typed)).inFlight
  {
    DeadStaysDead(Apply(s, Revoke(i)), later, i);
    GateOpensExactlyFor(Run(Apply(s, Revoke(i)), later), t, i, typed);
  }

  lemma {:induction false} DeadStaysDead(s: State, es: seq<Event>, i: InviteId)
    requires Dead(s, i)
    ensures Dead(Run(s, es), i)
  {
    if es != [] {
      DeadStaysDead(s, es[..|es| - 1], i);
      WaysAnInviteChanges(Run(s, es[..|es| - 1]), es[|es| - 1], i);
    }
  }

  // ------------------------------------------------------------------------
  // Erasure is for good
  // ------------------------------------------------------------------------

  ghost predicate NoAttemptOf(attempts: map<nat, Attempt>, i: InviteId, e: Email) {
    forall a | a in attempts :: attempts[a].invite != i || attempts[a].email != e
  }

  ghost predicate NoSubmissionOf(subs: map<nat, Submission>, i: InviteId, e: Email) {
    forall t | t in subs :: subs[t].invite != Some(i) || subs[t].email != Some(e)
  }

  ghost predicate NoSlotRowOf(rows: map<nat, SlotRow>, i: InviteId, e: Email) {
    forall v | v in rows :: rows[v].invite != i || rows[v].email != e
  }

  ghost predicate NoSignalOf(rows: map<nat, Signal>, i: InviteId, e: Email) {
    forall v | v in rows :: rows[v].invite != i || rows[v].email != e
  }

  ghost predicate NoDraftOf(drafts: map<nat, Draft>, i: InviteId, e: Email) {
    forall d | d in drafts :: drafts[d].invite != i || drafts[d].email != e
  }

  /** The address is in no row of this invite. */
  ghost predicate NoRowOf(db: Db, i: InviteId, e: Email) {
    && NoAttemptOf(db.attempts, i, e) && NoSubmissionOf(db.subs, i, e) && NoSlotRowOf(db.slotRows, i, e)
    && NoSignalOf(db.signals, i, e) && NoDraftOf(db.drafts, i, e)
  }

  /** And on no list of it. */
  ghost predicate Barred(db: Db, i: InviteId, e: Email) {
    i in db.invites && !Invited(db.invites, i, e) && NoRowOf(db, i, e)
  }

  predicate IsRequestOf(p: Passed, i: InviteId, e: Email) {
    p.invite == i && p.email == e
  }

  ghost predicate NobodyInFlight(s: State, i: InviteId, e: Email) {
    forall t | t in s.inFlight :: !IsRequestOf(s.inFlight[t], i, e)
  }

  lemma EraseKeepsNoRow(db: Db, org: OrgId, address: Email, tombstone: Email, now: int, i: InviteId, e: Email)
    requires NoRowOf(db, i, e) && tombstone != e
    ensures NoRowOf(EraseCandidate(db, org, address, tombstone, now), i, e)
  {
  }

  lemma PurgeKeepsNoRow(db: Db, orgs: set<OrgId>, mint: Mint, now: int, i: InviteId, e: Email)
    requires NoRowOf(db, i, e) && forall k | k in Expired(db, orgs, now) :: mint(k) != e
    ensures NoRowOf(Purged(db, orgs, mint, now), i, e)
  {
  }

  lemma ErasuresKeepBarred(s: State, ev: Event, i: InviteId, e: Email)
    requires Barred(s.db, i, e) && !IsTombstone(e) && (ev.EraseRequest? || ev.RetentionPurge?) && Minted(s, ev)
    ensures Barred(Erasing(s, ev), i, e)
  {
    ErasuresShrink(s, ev, i);
    if ev.EraseRequest? {
      EraseKeepsNoRow(s.db, ev.org, ev.address, ev.tombstone, s.clock, i, e);
    } else {
      PurgeKeepsNoRow(s.db, s.db.retention.Keys, ev.mint, s.clock, i, e);
    }
  }

  lemma StartKeepsNoRow(db: Db, row: nat, who: InviteId, address: Email, now: int, i: InviteId, e: Email)
    requires NoRowOf(db, i, e) && (who != i || address != e)
    ensures NoRowOf(Started(db, row, who, address, now), i, e)
  {
    assert NoAttemptOf(db.attempts[row := Attempt(who, address, None, now, None)], i, e);
  }

  lemma SubmitKeepsNoRow(db: Db, row: nat, who: InviteId, address: Email, q: nat, code: string, i: InviteId, e: Email)
    requires NoRowOf(db, i, e) && (who != i || address != e)
    ensures NoRowOf(Submitted(db, row, who, address, q, code), i, e)
  {
    assert NoSubmissionOf(db.subs[row := Submission(q, Some(who), Some(address), "", code)], i, e);
  }

  lemma DraftKeepsNoRow(db: Db, row: nat, who: InviteId, address: Email, q: nat, code: string, i: InviteId, e: Email)
    requires NoRowOf(db, i, e) && (who != i || address != e)
    ensures NoRowOf(Drafted(db, row, who, address, q, code), i, e)
  {
    var drafts := db.drafts[row := Draft(who, address, q, code)];
    assert NoDraftOf(drafts, i, e);
    var after := Drafted(db, row, who, address, q, code);
    assert after == db || after == db.(drafts := drafts);
  }

  lemma SignalKeepsNoRow(db: Db, row: nat, who: InviteId, address: Email, kind: string, i: InviteId, e: Email)
    requires NoRowOf(db, i, e) && (who != i || address != e)
    ensures NoRowOf(Signalled(db, row, who, address, kind), i, e)
  {
    assert NoSignalOf(db.signals[row := Signal(who, address, kind)], i, e);
  }

  lemma SlotKeepsNoRow(db: Db, row: nat, who: InviteId, address: Email, slot: nat, q: nat, i: InviteId, e: Email)
    requires NoRowOf(db, i, e) && (who != i || address != e)
    ensures NoRowOf(Resolved(db, row, who, address, slot, q), i, e)
  {
    assert NoSlotRowOf(db.slotRows[row := SlotRow(who, address, slot, q)], i, e);
  }

  /** A new or amended row of somebody else. */
  lemma WriteKeepsNoRow(db: Db, now: int, ev: Event, p: Passed, i: InviteId, e: Email)
    requires NoRowOf(db, i, e) && ByCandidate(ev) && !IsRequestOf(p, i, e)
    ensures NoRowOf(Written(db, now, ev, p), i, e)
  {
    match ev
    case Begin(_, row) => StartKeepsNoRow(db, row, p.invite, p.email, now, i, e);
    case Submit(_, row, q, code) => SubmitKeepsNoRow(db, row, p.invite, p.email, q, code, i, e);
    case SaveDraft(_, row, q, code) => DraftKeepsNoRow(db, row, p.invite, p.email, q, code, i, e);
    case SendSignal(_, row, kind) => SignalKeepsNoRow(db, row, p.invite, p.email, kind, i, e);
    case ResolveSlot(_, row, slot, q) => SlotKeepsNoRow(db, row, p.invite, p.email, slot, q, i, e);
  }

  lemma WriteKeepsBarred(s: State, ev: Event, i: InviteId, e: Email)
    requires Barred(s.db, i, e) && NobodyInFlight(s, i, e) && ByCandidate(ev)
    ensures Barred(Write(s, ev).db, i, e) && NobodyInFlight(Write(s, ev), i, e)
  {
    if ev.task in s.inFlight {
      WriteKeepsNoRow(s.db, s.clock, ev, s.inFlight[ev.task], i, e);
      WriteLeavesInvites(s, ev);
    }
  }

  lemma OfficeKeepsBarred(s: State, ev: Event, i: InviteId, e: Email)
    requires Barred(s.db, i, e) && (ev.SendInvite? || ev.Revoke?)
    ensures Barred(Apply(s, ev).db, i, e)
  {
    OfficeStep(s, ev, i);
  }

  lemma StepKeepsBarred(s: State, ev: Event, i: InviteId, e: Email)
    requires Barred(s.db, i, e) && NobodyInFlight(s, i, e) && !IsTombstone(e)
    ensures Barred(Apply(s, ev).db, i, e) && NobodyInFlight(Apply(s, ev), i, e)
  {
    if ByCandidate(ev) {
      WriteKeepsBarred(s, ev, i, e);
    } else if ev.EraseRequest? || ev.RetentionPurge? {
      if Minted(s, ev) { ErasuresKeepBarred(s, ev, i, e); }
    } else if ev.SendInvite? || ev.Revoke? {
      OfficeKeepsBarred(s, ev, i, e);
    }
  }

  lemma {:induction false} BarredForGood(s: State, es: seq<Event>, i: InviteId, e: Email)
    requires Barred(s.db, i, e) && NobodyInFlight(s, i, e) && !IsTombstone(e)
    ensures Barred(Run(s, es).db, i, e) && NobodyInFlight(Run(s, es), i, e)
  {
    if es != [] {
      BarredForGood(s, es[..|es| - 1], i, e);
      StepKeepsBarred(Run(s, es[..|es| - 1]), es[|es| - 1], i, e);
    }
  }

  /** No run from here ever has a row of this address on this invite. */
  ghost predicate NeverAgain(s: State, i: InviteId, e: Email) {
    forall es: seq<Event> :: NoRowOf(Run(s, es).db, i, e)
  }

  /** Exactly: a barred address stays away over every run if and only if no request of it is
      between its gate and its answer. */
  lemma BarredIffNobodyInFlight(s: State, i: InviteId, e: Email)
    requires Barred(s.db, i, e) && !IsTombstone(e)
    ensures NeverAgain(s, i, e) <==> NobodyInFlight(s, i, e)
  {
    if NobodyInFlight(s, i, e) {
      forall es: seq<Event> ensures NoRowOf(Run(s, es).db, i, e) { BarredForGood(s, es, i, e); }
    } else {
      var t :| t in s.inFlight && IsRequestOf(s.inFlight[t], i, e);
      var row := FreshKey(s.db.attempts.Keys);
      LateStartRecreates(s, t, row);
      RunSnoc(s, [], Begin(t, row));
      assert [] + [Begin(t, row)] == [Begin(t, row)];
      assert !NoRowOf(Run(s, [Begin(t, row)]).db, i, e);
    }
  }

  lemma LateStartRecreates(s: State, t: nat, row: nat)
    requires t in s.inFlight && row !in s.db.attempts && NoAttemptOf(s.db.attempts, s.inFlight[t].invite, s.inFlight[t].email)
    ensures var db := Apply(s, Begin(t, row)).db;
      row in db.attempts && db.attempts[row] == Attempt(s.inFlight[t].invite, s.inFlight[t].email, None, s.clock, None)
  {
  }

  /** After an erasure request, on every invite the organisation had, no attempt, submission,
      slot variant, signal or draft of that address exists in any later state of any run --
      if and only if none of its requests there was in flight when the erasure committed. */
  lemma ErasedStaysErased(s: State, org: OrgId, e: Email, tombstone: Email, i: InviteId)
    requires Sound(s) && !IsTombstone(e) && InviteIn(s.db, i, org) && Minted(s, EraseRequest(org, e, tombstone))
    ensures NeverAgain(Apply(s, EraseRequest(org, e, tombstone)), i, e) <==> NobodyInFlight(s, i, e)
  {
    var s1 := Apply(s, EraseRequest(org, e, tombstone));
    RequestBars(s.db, org, e, tombstone, s.clock, i);
    BarredIffNobodyInFlight(s1, i, e);
  }

  lemma RequestBars(db: Db, org: OrgId, e: Email, tombstone: Email, now: int, i: InviteId)
    requires NormalInvites(db.invites) && InviteIn(db, i, org) && tombstone != e
    ensures Barred(EraseCandidate(db, org, e, tombstone, now), i, e)
  {
    ErasedCandidateIsForgotten(db, org, e, tombstone, now);
    var db' := EraseCandidate(db, org, e, tombstone, now);
    EraseKeepsScope(db, e, OrgInvites(db, org), CandidateSubs(db, org, e), tombstone, now, i, org);
    EraseKeepsInvites(db, org, e, tombstone, now);
    assert AllNormal(db'.invites[i].recipients);
  }

  /** The same for a sitting that retention erased. */
  lemma ExpiredStaysErased(s: State, mint: Mint, i: InviteId, e: Email)
    requires Sound(s) && Minted(s, RetentionPurge(mint)) && (i, e) in Expired(s.db, s.db.retention.Keys, s.clock)
    requires !IsTombstone(e) && i in s.db.invites
    ensures NeverAgain(Apply(s, RetentionPurge(mint)), i, e) <==> NobodyInFlight(s, i, e)
  {
    var s1 := Apply(s, RetentionPurge(mint));
    assert s1.db == Purged(s.db, s.db.retention.Keys, mint, s.clock);
    PurgeBars(s, mint, i, e);
    BarredIffNobodyInFlight(s1, i, e);
  }

  lemma ErasedHasNoRow(db: Db, ks: set<Sitting>, mint: Mint, now: int, i: InviteId, e: Email)
    requires (i, e) in ks && forall k | k in ks :: mint(k) != e
    ensures NoRowOf(EraseAll(db, ks, mint, now), i, e)
  {
  }

  lemma TrimKeepsRows(db: Db, orgs: set<OrgId>, now: int, i: InviteId, e: Email)
    requires NoRowOf(db, i, e)
    ensures NoRowOf(Trim(db, orgs, now), i, e)
  {
  }

  lemma PurgeUnlists(db: Db, orgs: set<OrgId>, mint: Mint, now: int, i: InviteId, e: Email)
    requires NormalInvites(db.invites) && (i, e) in Expired(db, orgs, now) && i in db.invites
    ensures i in Purged(db, orgs, mint, now).invites && !Invited(Purged(db, orgs, mint, now).invites, i, e)
  {
    var ks := Expired(db, orgs, now);
    var y := EraseAll(db, ks, mint, now);
    assert e in Addresses(ks, i) && AllNormal(db.invites[i].recipients);
    WithoutDrops(db.invites[i].recipients, Addresses(ks, i));
    KeepLiveKeeps(y.invites[i].recipients, Live(y.attempts, i));
  }

  lemma PurgeBars(s: State, mint: Mint, i: InviteId, e: Email)
    requires Sound(s) && Minted(s, RetentionPurge(mint)) && (i, e) in Expired(s.db, s.db.retention.Keys, s.clock)
    requires !IsTombstone(e) && i in s.db.invites
    ensures Barred(Purged(s.db, s.db.retention.Keys, mint, s.clock), i, e)
  {
    var orgs := s.db.retention.Keys;
    var ks := Expired(s.db, orgs, s.clock);
    PurgeUnlists(s.db, orgs, mint, s.clock, i, e);
    ErasedHasNoRow(s.db, ks, mint, s.clock, i, e);
    TrimKeepsRows(EraseAll(s.db, ks, mint, s.clock), orgs, s.clock, i, e);
  }
}
