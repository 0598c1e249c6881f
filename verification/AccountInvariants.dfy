/** What every account transaction keeps, table by table. */
module AccountInvariants {
  import opened Common
  import opened Accounts

  // ---- the invariant ----

  predicate MembersOk(members: Members, users: Users, creators: map<WorkspaceId, UserId>) {
    forall m :: m in members ==> m.0 in creators && m.1 in users && !users[m.1].closing
  }

  ghost predicate HasOwner(members: Members, w: WorkspaceId) {
    exists u: UserId :: (w, u) in members && members[(w, u)] == Owner
  }

  predicate OneOwner(members: Members, w: WorkspaceId) {
    forall m, n :: m in members && n in members && m.0 == w && n.0 == w && members[m] == Owner && members[n] == Owner ==> m == n
  }

  predicate NoMembers(members: Members, w: WorkspaceId) { forall m :: m in members ==> m.0 != w }

  /** A workspace is either open with exactly one owner, or closing with no members. */
  ghost predicate WorkspaceOk(members: Members, closures: Closures, w: WorkspaceId) {
    if w in closures then NoMembers(members, w) else HasOwner(members, w) && OneOwner(members, w)
  }

  ghost predicate WorkspacesOk(members: Members, creators: map<WorkspaceId, UserId>, closures: Closures) {
    && (forall w :: w in creators ==> WorkspaceOk(members, closures, w))
    && closures.Keys <= creators.Keys
  }

  predicate SessionOk(s: Session, users: Users) {
    s.user in users && (!s.revoked ==> !users[s.user].closing && s.issuedUnder == users[s.user].hash)
  }

  predicate SessionsOk(sessions: Sessions, users: Users) {
    forall d :: d in sessions ==> SessionOk(sessions[d], users)
  }

  predicate TokenOk(t: ActionToken, users: Users) { t.user in users && (!t.used ==> !users[t.user].closing) }

  /** Two unused tokens of one user and purpose are the same token. */
  predicate OneUnused(tokens: Tokens) {
    forall d, e | d in tokens && e in tokens && !tokens[d].used && !tokens[e].used ::
      tokens[d].user == tokens[e].user && tokens[d].purpose == tokens[e].purpose ==> d == e
  }

  predicate TokensOk(tokens: Tokens, users: Users) {
    (forall d :: d in tokens ==> TokenOk(tokens[d], users)) && OneUnused(tokens)
  }

  predicate InvitationOk(i: Invitation, users: Users, creators: map<WorkspaceId, UserId>, closures: Closures) {
    && i.workspace in creators && i.inviter in users && i.role != Owner
    && (!i.used ==> !users[i.inviter].closing && i.workspace !in closures)
  }

  predicate InvitationsOk(invitations: Invitations, users: Users, creators: map<WorkspaceId, UserId>, closures: Closures) {
    forall d :: d in invitations ==> InvitationOk(invitations[d], users, creators, closures)
  }

  /** Two unused invitations of one workspace to one address are the same invitation. */
  predicate OnePending(invitations: Invitations) {
    forall d, e | d in invitations && e in invitations && !invitations[d].used && !invitations[e].used ::
      invitations[d].workspace == invitations[e].workspace && invitations[d].email == invitations[e].email ==> d == e
  }

  predicate Outsider(i: Invitation, users: Users, members: Members) {
    forall m :: m in members && m.0 == i.workspace && m.1 in users ==> users[m.1].email != i.email
  }

  predicate NoneToMember(invitations: Invitations, users: Users, members: Members) {
    forall d :: d in invitations && !invitations[d].used ==> Outsider(invitations[d], users, members)
  }

  /** Somebody whose account is not closing has the address. */
  ghost predicate Registered(users: Users, email: Address) {
    exists v :: v in users && users[v].email == email && !users[v].closing
  }

  /** An unused invitation to the address of a closed account is for somebody who registered it since. */
  ghost predicate FormerOk(invitations: Invitations, users: Users, requests: Requests) {
    forall d, u :: d in invitations && !invitations[d].used && u in requests && requests[u].address == invitations[d].email
      ==> Registered(users, invitations[d].email)
  }

  predicate UniqueEmails(users: Users) {
    forall u, v :: u in users && v in users && users[u].email == users[v].email ==> u == v
  }

  /** A read in flight still has its user's address, and that user is not erased. */
  predicate InFlightOk(inFlight: set<Read>, users: Users, requests: Requests) {
    forall r :: r in inFlight ==>
      && r.user in users && users[r.user].email == r.email
      && (r.user in requests ==> requests[r.user].state != Erased)
  }

  predicate ProofOk(w: WorkspaceId, c: Closure) {
    && c.proof.Some? && c.subscription == Some(c.proof.value.subscription) && c.proof.value.customer == c.customer
    && c.proof.value.workspace == Some(w) && Ended(c.proof.value.status)
  }

  predicate ClosureOk(w: WorkspaceId, c: Closure, users: Users) {
    && c.requestedBy in users && users[c.requestedBy].closing
    && c.attempts <= 5 && (c.state == Pending ==> c.attempts < 5) && (c.state == Scheduled ==> c.attempts == 0)
    && (c.state == Closed && c.subscription.Some? ==> ProofOk(w, c))
  }

  predicate ClosuresOk(closures: Closures, users: Users) {
    forall w :: w in closures ==> ClosureOk(w, closures[w], users)
  }

  predicate AllClosed(closures: Closures, user: UserId) {
    forall w :: w in closures && closures[w].requestedBy == user ==> closures[w].state == Closed
  }

  predicate ReviewDated(q: DeletionRequest) {
    q.policy.Some? && q.erasureAfter == Some(q.requestedAt + q.policy.value.retentionDays * DAY)
  }

  predicate RequestOk(u: UserId, q: DeletionRequest, users: Users, closures: Closures) {
    && u in users && users[u].closing
    && (q.state != Requested ==> ReviewDated(q))
    && (q.state != Erased ==> q.address == users[u].email && q.erasedAt.None?)
    && (q.state == Erased ==>
          && users[u].email == Tombstone(u) && AllClosed(closures, u)
          && q.erasedAt.Some? && q.erasureAfter.Some? && q.erasureAfter.value <= q.erasedAt.value)
  }

  predicate RequestsOk(requests: Requests, users: Users, closures: Closures) {
    && (forall u :: u in requests ==> RequestOk(u, requests[u], users, closures))
    && (forall u :: u in users && users[u].closing ==> u in requests)
  }

  predicate MintedOk(db: Database) {
    db.sessions.Keys <= db.minted && db.tokens.Keys <= db.minted && db.invitations.Keys <= db.minted
  }

  ghost predicate Inv(db: Database) {
    && MembersOk(db.members, db.users, db.creators)
    && WorkspacesOk(db.members, db.creators, db.closures)
    && SessionsOk(db.sessions, db.users)
    && TokensOk(db.tokens, db.users)
    && InvitationsOk(db.invitations, db.users, db.creators, db.closures)
    && OnePending(db.invitations)
    && NoneToMember(db.invitations, db.users, db.members)
    && FormerOk(db.invitations, db.users, db.requests)
    && UniqueEmails(db.users)
    && InFlightOk(db.inFlight, db.users, db.requests)
    && ClosuresOk(db.closures, db.users)
    && RequestsOk(db.requests, db.users, db.closures)
    && db.seats.Keys == db.creators.Keys
    && MintedOk(db)
  }

  // ---- changes that leave everybody's address and standing alone ----

  /** The new table keeps every row's address and standing; it may add rows whose accounts are open. */
  predicate SameStanding(old_: Users, new_: Users) {
    && (forall u :: u in old_ ==> u in new_ && new_[u].email == old_[u].email && new_[u].closing == old_[u].closing)
    && (forall u :: u in new_ && u !in old_ ==> !new_[u].closing)
  }

  lemma RegisteredStays(old_: Users, new_: Users, email: Address)
    requires SameStanding(old_, new_) && Registered(old_, email)
    ensures Registered(new_, email)
  {
    var v :| v in old_ && old_[v].email == email && !old_[v].closing;
    assert v in new_ && new_[v].email == email && !new_[v].closing;
  }

  /** Groups that look only at addresses and standing. */
  lemma StandingKeeps(db: Database, users: Users)
    requires Inv(db) && SameStanding(db.users, users)
    ensures MembersOk(db.members, users, db.creators)
    ensures InvitationsOk(db.invitations, users, db.creators, db.closures)
    ensures NoneToMember(db.invitations, users, db.members)
    ensures FormerOk(db.invitations, users, db.requests)
    ensures InFlightOk(db.inFlight, users, db.requests)
    ensures ClosuresOk(db.closures, users)
    ensures RequestsOk(db.requests, users, db.closures)
  {
    hide WorkspacesOk, SessionsOk, TokensOk, OnePending, UniqueEmails, MintedOk;
    forall d | d in db.invitations ensures InvitationOk(db.invitations[d], users, db.creators, db.closures) {
      assert InvitationOk(db.invitations[d], db.users, db.creators, db.closures);
    }
    forall d | d in db.invitations && !db.invitations[d].used ensures Outsider(db.invitations[d], users, db.members) {
      assert Outsider(db.invitations[d], db.users, db.members);
    }
    forall d, u | d in db.invitations && !db.invitations[d].used && u in db.requests && db.requests[u].address == db.invitations[d].email
      ensures Registered(users, db.invitations[d].email)
    {
      RegisteredStays(db.users, users, db.invitations[d].email);
    }
    forall w | w in db.closures ensures ClosureOk(w, db.closures[w], users) {
      assert ClosureOk(w, db.closures[w], db.users);
    }
    forall u | u in db.requests ensures RequestOk(u, db.requests[u], users, db.closures) {
      assert RequestOk(u, db.requests[u], db.users, db.closures);
    }
  }

  // ---- sessions and tokens ----

  lemma IssueTokenKeeps(tokens: Tokens, users: Users, user: UserId, purpose: Purpose, token: Digest, expires: int)
    requires TokensOk(tokens, users) && token !in tokens && user in users && !users[user].closing
    ensures TokensOk(UseUp(tokens, user, purpose)[token := ActionToken(user, purpose, expires, false)], users)
  {
    var next := UseUp(tokens, user, purpose)[token := ActionToken(user, purpose, expires, false)];
    forall d | d in next ensures TokenOk(next[d], users) {
      if d != token { assert TokenOk(tokens[d], users); }
    }
  }

  lemma TokensStay(tokens: Tokens, old_: Users, new_: Users)
    requires TokensOk(tokens, old_) && SameStanding(old_, new_)
    ensures TokensOk(tokens, new_)
  {
    forall d | d in tokens ensures TokenOk(tokens[d], new_) { assert TokenOk(tokens[d], old_); }
  }

  lemma UsingKeeps(tokens: Tokens, users: Users, token: Digest)
    requires TokensOk(tokens, users) && token in tokens
    ensures TokensOk(tokens[token := tokens[token].(used := true)], users)
  {
    var next := tokens[token := tokens[token].(used := true)];
    forall d | d in next ensures TokenOk(next[d], users) { assert TokenOk(tokens[d], users); }
  }

  lemma RevokingKeeps(sessions: Sessions, users: Users, session: Digest)
    requires SessionsOk(sessions, users) && session in sessions
    ensures SessionsOk(sessions[session := sessions[session].(revoked := true)], users)
  {
    var next := sessions[session := sessions[session].(revoked := true)];
    forall d | d in next ensures SessionOk(next[d], users) { assert SessionOk(sessions[d], users); }
  }

  lemma AddingSessionKeeps(sessions: Sessions, users: Users, session: Digest, row: Session)
    requires SessionsOk(sessions, users) && SessionOk(row, users)
    ensures SessionsOk(sessions[session := row], users)
  {
    var next := sessions[session := row];
    forall d | d in next ensures SessionOk(next[d], users) { if d != session { assert SessionOk(sessions[d], users); } }
  }

  lemma SessionsStay(sessions: Sessions, old_: Users, new_: Users)
    requires SessionsOk(sessions, old_) && SameStanding(old_, new_)
    requires forall u :: u in old_ && u in new_ ==> new_[u].hash == old_[u].hash
    ensures SessionsOk(sessions, new_)
  {
    forall d | d in sessions ensures SessionOk(sessions[d], new_) { assert SessionOk(sessions[d], old_); }
  }

  lemma RevokedUnderNewHash(sessions: Sessions, users: Users, user: UserId, hash: PasswordHash)
    requires SessionsOk(sessions, users) && user in users
    ensures SessionsOk(RevokeAll(sessions, user), users[user := users[user].(hash := hash)])
  {
    var next := RevokeAll(sessions, user);
    forall d | d in next ensures SessionOk(next[d], users[user := users[user].(hash := hash)]) { assert SessionOk(sessions[d], users); }
  }

  lemma IssueKeeps(db: Database, user: UserId, purpose: Purpose, token: Digest)
    requires Inv(db) && user in db.users && !db.users[user].closing
    ensures IssueToken(db, user, purpose, token).Ok? ==> Inv(IssueToken(db, user, purpose, token).value)
  {
    hide MembersOk, WorkspacesOk, SessionsOk, TokensOk, InvitationsOk, OnePending, NoneToMember, FormerOk, InFlightOk, ClosuresOk, RequestsOk, UniqueEmails;
    if token !in db.minted {
      IssueTokenKeeps(db.tokens, db.users, user, purpose, token, db.clock + (if purpose == Reset then 30 else 1440) * MINUTE);
    }
  }

  /** A user is added or marked verified: nobody's address, hash or standing changes. */
  lemma UsersKeep(db: Database, users: Users)
    requires Inv(db) && SameStanding(db.users, users) && UniqueEmails(users)
    requires forall u :: u in db.users && u in users ==> users[u].hash == db.users[u].hash
    ensures Inv(db.(users := users))
  {
    hide MembersOk, WorkspacesOk, SessionsOk, TokensOk, InvitationsOk, OnePending, NoneToMember, FormerOk, InFlightOk, ClosuresOk, RequestsOk;
    StandingKeeps(db, users);
    TokensStay(db.tokens, db.users, users);
    SessionsStay(db.sessions, db.users, users);
  }

  lemma SignupKeeps(db: Database, user: UserId, email: Address, hash: PasswordHash, token: Digest)
    requires Inv(db)
    ensures Signup(db, user, email, hash, token).Ok? ==> Inv(Signup(db, user, email, hash, token).value)
  {
    hide MembersOk, WorkspacesOk, SessionsOk, TokensOk, InvitationsOk, OnePending, NoneToMember, FormerOk, InFlightOk, ClosuresOk, RequestsOk;
    if !AddressTaken(db.users, email) && user !in db.users {
      var users := db.users[user := User(email, hash, false, false)];
      assert UniqueEmails(users) by { assert UniqueEmails(db.users); }
      UsersKeep(db, users);
      IssueKeeps(db.(users := users), user, Verify, token);
    }
  }

  lemma ConsumeKeeps(db: Database, token: Digest, purpose: Purpose)
    requires Inv(db)
    ensures Consume(db, token, purpose).Ok? ==> Inv(Consume(db, token, purpose).value)
  {
    hide MembersOk, WorkspacesOk, SessionsOk, TokensOk, InvitationsOk, OnePending, NoneToMember, FormerOk, InFlightOk, ClosuresOk, RequestsOk, UniqueEmails;
    if Redeemable(db, token, purpose) { UsingKeeps(db.tokens, db.users, token); }
  }

  lemma VerifyEmailKeeps(db: Database, token: Digest)
    requires Inv(db)
    ensures VerifyEmail(db, token).Ok? ==> Inv(VerifyEmail(db, token).value)
  {
    hide MembersOk, WorkspacesOk, SessionsOk, TokensOk, InvitationsOk, OnePending, NoneToMember, FormerOk, InFlightOk, ClosuresOk, RequestsOk;
    ConsumeKeeps(db, token, Verify);
    if Redeemable(db, token, Verify) {
      var user := db.tokens[token].user;
      var users := db.users[user := db.users[user].(verified := true)];
      assert UniqueEmails(users) by { assert UniqueEmails(db.users); }
      UsersKeep(Consume(db, token, Verify).value, users);
    }
  }

  lemma ResetKeeps(db: Database, token: Digest, hash: PasswordHash)
    requires Inv(db)
    ensures ResetPassword(db, token, hash).Ok? ==> Inv(ResetPassword(db, token, hash).value)
  {
    hide MembersOk, WorkspacesOk, SessionsOk, TokensOk, InvitationsOk, OnePending, NoneToMember, FormerOk, InFlightOk, ClosuresOk, RequestsOk;
    ConsumeKeeps(db, token, Reset);
    if Redeemable(db, token, Reset) {
      var user := db.tokens[token].user;
      var users := db.users[user := db.users[user].(hash := hash)];
      var consumed := Consume(db, token, Reset).value;
      assert SameStanding(db.users, users);
      assert UniqueEmails(users) by { assert UniqueEmails(db.users); }
      StandingKeeps(consumed, users);
      TokensStay(consumed.tokens, db.users, users);
      RevokedUnderNewHash(db.sessions, db.users, user, hash);
    }
  }

  lemma NewSessionKeeps(db: Database, user: UserId, hash: PasswordHash, session: Digest, lifetime: nat)
    requires Inv(db) && user in db.users && !db.users[user].closing && db.users[user].hash == hash
    ensures NewSession(db, user, hash, session, lifetime).Ok? ==> Inv(NewSession(db, user, hash, session, lifetime).value)
  {
    hide MembersOk, WorkspacesOk, SessionsOk, TokensOk, InvitationsOk, OnePending, NoneToMember, FormerOk, InFlightOk, ClosuresOk, RequestsOk, UniqueEmails;
    AddingSessionKeeps(db.sessions, db.users, session, Session(user, db.clock + lifetime, false, hash));
  }

  lemma LoginKeeps(db: Database, user: UserId, verifiedHash: PasswordHash, session: Digest, lifetime: nat)
    requires Inv(db)
    ensures Login(db, user, verifiedHash, session, lifetime).Ok? ==> Inv(Login(db, user, verifiedHash, session, lifetime).value)
  {
    hide Inv, NewSession;
    if user in db.users && db.users[user].hash == verifiedHash && !db.users[user].closing {
      NewSessionKeeps(db, user, verifiedHash, session, lifetime);
    }
  }

  lemma RevokeKeeps(db: Database, session: Digest)
    requires Inv(db) && session in db.sessions
    ensures Inv(db.(sessions := db.sessions[session := db.sessions[session].(revoked := true)]))
  {
    hide MembersOk, WorkspacesOk, SessionsOk, TokensOk, InvitationsOk, OnePending, NoneToMember, FormerOk, InFlightOk, ClosuresOk, RequestsOk, UniqueEmails;
    RevokingKeeps(db.sessions, db.users, session);
  }

  lemma RotateKeeps(db: Database, user: UserId, readHash: PasswordHash, oldSession: Digest, session: Digest, lifetime: nat)
    requires Inv(db)
    ensures Rotate(db, user, readHash, oldSession, session, lifetime).Ok? ==> Inv(Rotate(db, user, readHash, oldSession, session, lifetime).value)
  {
    hide Inv, NewSession;
    if user in db.users && db.users[user].hash == readHash && !db.users[user].closing && oldSession in db.sessions {
      RevokeKeeps(db, oldSession);
      NewSessionKeeps(db.(sessions := db.sessions[oldSession := db.sessions[oldSession].(revoked := true)]), user, readHash, session, lifetime);
    }
  }
}
