/** What a caller of an account transaction can rely on once it has succeeded in a reachable state. */
module AccountEffects {
  import opened Common
  import opened Accounts
  import opened AccountInvariants
  import opened AccountSteps
  import opened AccountRuns
  import opened AccountTheorems
  import opened AccountSeats

  // ---- sessions and tokens ----

  /** The session opens the account: unrevoked, issued under the current password, and the user is not leaving. */
  predicate OpenSession(db: Database, session: Digest, user: UserId) {
    && session in db.sessions && user in db.users && db.sessions[session].user == user && !db.sessions[session].revoked
    && db.sessions[session].issuedUnder == db.users[user].hash && !db.users[user].closing
  }

  predicate AllRevoked(db: Database, user: UserId) {
    forall d :: d in db.sessions && db.sessions[d].user == user ==> db.sessions[d].revoked
  }

  lemma LoginOpens(db: Database, user: UserId, hash: PasswordHash, session: Digest, lifetime: nat)
    requires Login(db, user, hash, session, lifetime).Ok?
    ensures var next := Login(db, user, hash, session, lifetime).value;
      && OpenSession(next, session, user) && next.sessions[session].expires == db.clock + lifetime
      && user in next.users && next.users[user].hash == hash
  {
  }

  lemma RotateMoves(db: Database, user: UserId, hash: PasswordHash, oldSession: Digest, session: Digest, lifetime: nat)
    requires Inv(db) && Rotate(db, user, hash, oldSession, session, lifetime).Ok?
    ensures var next := Rotate(db, user, hash, oldSession, session, lifetime).value;
      && OpenSession(next, session, user) && next.sessions[session].expires == db.clock + lifetime
      && oldSession in next.sessions && next.sessions[oldSession].revoked && oldSession != session
  {
    hide MembersOk, WorkspacesOk, SessionsOk, TokensOk, InvitationsOk, OnePending, NoneToMember, FormerOk, UniqueEmails, InFlightOk, ClosuresOk,
      RequestsOk;
    assert oldSession in db.sessions.Keys;
  }

  /** A token is worth one redemption, whoever tries again and when. */
  ghost predicate NeverRedeemable(db: Database, token: Digest) {
    forall p: Purpose, tick: nat :: !Redeemable(Later(db, tick), token, p)
  }

  lemma VerifyingSpends(db: Database, token: Digest)
    requires Inv(db) && VerifyEmail(db, token).Ok?
    ensures var next := VerifyEmail(db, token).value;
      && NeverRedeemable(next, token) && Spent(next.tokens, next.minted, token)
      && token in db.tokens && db.tokens[token].user in next.users && next.users[db.tokens[token].user].verified
  {
    hide MembersOk, WorkspacesOk, SessionsOk, TokensOk, InvitationsOk, OnePending, NoneToMember, FormerOk, UniqueEmails, InFlightOk, ClosuresOk,
      RequestsOk;
    assert token in db.tokens.Keys;
  }

  lemma ResettingLocksOut(db: Database, token: Digest, hash: PasswordHash)
    requires Inv(db) && ResetPassword(db, token, hash).Ok?
    ensures var next := ResetPassword(db, token, hash).value;
      && NeverRedeemable(next, token) && Spent(next.tokens, next.minted, token)
      && token in db.tokens && db.tokens[token].user in next.users && next.users[db.tokens[token].user].hash == hash
      && AllRevoked(next, db.tokens[token].user)
  {
    hide MembersOk, WorkspacesOk, SessionsOk, TokensOk, InvitationsOk, OnePending, NoneToMember, FormerOk, UniqueEmails, InFlightOk, ClosuresOk,
      RequestsOk;
    assert token in db.tokens.Keys;
  }

  /** The user's only unused token of its purpose. */
  predicate SoleToken(tokens: Tokens, token: Digest) {
    && token in tokens && !tokens[token].used
    && forall d | d in tokens && !tokens[d].used && tokens[d].user == tokens[token].user :: tokens[d].purpose == tokens[token].purpose ==> d == token
  }

  lemma IssuedIsSole(db: Database, user: UserId, purpose: Purpose, token: Digest)
    requires IssueToken(db, user, purpose, token).Ok?
    ensures var next := IssueToken(db, user, purpose, token).value;
      SoleToken(next.tokens, token) && next.tokens[token].expires == db.clock + (if purpose == Reset then 30 else 1440) * MINUTE
  {
  }

  /** If this token was issued at all, it is the only usable one and lasts this many minutes. */
  predicate NewestToken(db: Database, token: Digest, minutes: nat) {
    token in db.tokens ==> SoleToken(db.tokens, token) && db.tokens[token].expires == db.clock + minutes * MINUTE
  }

  lemma ForgettingIssues(db: Database, user: UserId, token: Digest)
    requires db.tokens.Keys <= db.minted && token !in db.minted && ForgotPassword(db, user, token).Ok?
    ensures NewestToken(ForgotPassword(db, user, token).value, token, 30)
  {
    hide IssueToken, SoleToken;
    assert token !in db.tokens.Keys;
    if IssueToken(db, user, Reset, token).Ok? { IssuedIsSole(db, user, Reset, token); }
  }

  lemma ResendingIssues(db: Database, user: UserId, token: Digest)
    requires db.tokens.Keys <= db.minted && token !in db.minted && ResendVerification(db, user, token).Ok?
    ensures NewestToken(ResendVerification(db, user, token).value, token, 1440)
  {
    hide IssueToken, SoleToken;
    assert token !in db.tokens.Keys;
    if IssueToken(db, user, Verify, token).Ok? { IssuedIsSole(db, user, Verify, token); }
  }

  lemma InvMinted(db: Database)
    requires Inv(db)
    ensures db.tokens.Keys <= db.minted
  {
    hide MembersOk, WorkspacesOk, SessionsOk, TokensOk, InvitationsOk, OnePending, NoneToMember, FormerOk, UniqueEmails, InFlightOk, ClosuresOk,
      RequestsOk;
  }

  lemma SignupRegisters(db: Database, user: UserId, email: Address, hash: PasswordHash, token: Digest)
    requires Signup(db, user, email, hash, token).Ok?
    ensures AddressTaken(Signup(db, user, email, hash, token).value.users, email)
    ensures var users := Signup(db, user, email, hash, token).value.users; forall u :: u in db.users ==> u in users && users[u] == db.users[u]
  {
    if !AddressTaken(db.users, email) {
      var users := Signup(db, user, email, hash, token).value.users;
      assert users == db.users[user := User(email, hash, false, false)];
      assert users[user].email == email;
    }
  }

  lemma InvSession(db: Database, session: Digest)
    requires Inv(db) && session in db.sessions
    ensures SessionOk(db.sessions[session], db.users)
  {
  }

  // ---- workspaces and members ----

  lemma OwnerIsSole(db: Database, w: WorkspaceId, owner: UserId)
    requires Inv(db) && IsActiveOwner(db, owner, w)
    ensures SoleActiveOwner(db, w, owner)
  {
    hide Inv, SoleActiveOwner;
    OwnedIsOpen(db, owner, w);
    SoleOwner(db, w);
    var o :| SoleActiveOwner(db, w, o);
    SameOwner(db, w, o, owner);
  }

  lemma SameOwner(db: Database, w: WorkspaceId, o: UserId, owner: UserId)
    requires SoleActiveOwner(db, w, o) && IsActiveOwner(db, owner, w)
    ensures o == owner
  {
  }

  lemma CreatingOwns(db: Database, user: UserId, workspace: WorkspaceId, freeSeats: Seats)
    requires Inv(db) && CreateWorkspace(db, user, workspace, freeSeats).Ok?
    ensures var next := CreateWorkspace(db, user, workspace, freeSeats).value;
      && SoleActiveOwner(next, workspace, user) && MembersOf(next.members, workspace) == {(workspace, user)}
      && |CreatedBy(next.creators, user)| == |CreatedBy(db.creators, user)| + 1 <= 5
  {
    hide WorkspacesOk, SessionsOk, TokensOk, InvitationsOk, OnePending, NoneToMember, FormerOk, UniqueEmails, InFlightOk, ClosuresOk, RequestsOk,
      MintedOk;
    var next := CreateWorkspace(db, user, workspace, freeSeats).value;
    assert MembersOf(next.members, workspace) == {(workspace, user)};
    assert CreatedBy(next.creators, user) == CreatedBy(db.creators, user) + {workspace};
    forall u: UserId | (workspace, u) in next.members ensures u == user {
      assert (workspace, u) in MembersOf(next.members, workspace);
    }
  }

  /** The address's only unused invitation to the workspace is this one, and it can still be accepted. */
  predicate SoleInvitation(db: Database, w: WorkspaceId, email: Address, d: Digest) {
    && d in db.invitations && db.invitations[d].workspace == w && db.invitations[d].email == email && db.invitations[d].Live(db.clock)
    && forall e :: e in db.invitations && !db.invitations[e].used && db.invitations[e].workspace == w && db.invitations[e].email == email ==> e == d
  }

  lemma InvitingReserves(db: Database, actor: UserId, w: WorkspaceId, email: Address, role: Role, d: Digest, paid: bool)
    requires Inv(db) && Invite(db, actor, w, email, role, d, paid).Ok?
    ensures var next := Invite(db, actor, w, email, role, d, paid).value;
      Fits(next, w) && SoleInvitation(next, w, email, d) && !MemberAddress(next, w, email) && SoleActiveOwner(next, w, actor)
  {
    hide Inv, Fits, SoleActiveOwner, Suppressed, MembersOf, LiveForOthers;
    InvKeys(db);
    InvitedWithinSeats(db, actor, w, email, role, d, paid);
    OwnerIsSole(db, w, actor);
    OwnersCarryOver(db, Invite(db, actor, w, email, role, d, paid).value, w, actor);
  }

  lemma OwnersCarryOver(db: Database, next: Database, w: WorkspaceId, owner: UserId)
    requires SoleActiveOwner(db, w, owner) && next.members == db.members && next.users == db.users
    ensures SoleActiveOwner(next, w, owner)
  {
  }

  /** An open account with the invited address is a member with the invited role, within the seats, and no invitation to it is left. */
  predicate Joined(db: Database, i: Invitation, user: UserId) {
    && user in db.users && !db.users[user].closing && db.users[user].email == i.email
    && (i.workspace, user) in db.members && db.members[(i.workspace, user)] == i.role != Owner
    && NoPendingFrom(db, i.workspace, i.email)
    && i.workspace in db.seats && |MembersOf(db.members, i.workspace)| <= db.seats[i.workspace]
  }

  lemma AcceptingJoins(db: Database, read: Read, invitation: Digest, paid: bool)
    requires Inv(db) && read in db.inFlight && Accept(db, read, invitation, paid).Ok?
    ensures invitation in db.invitations
    ensures var i := db.invitations[invitation]; var next := Accept(db, read, invitation, paid).value;
      && Joined(next, i, read.user)
      && (Fits(db, i.workspace) ==> Fits(next, i.workspace))
  {
    hide MembersOk, WorkspacesOk, SessionsOk, TokensOk, InvitationsOk, NoneToMember, FormerOk, UniqueEmails, ClosuresOk, RequestsOk, MintedOk;
    var i := db.invitations[invitation];
    var next := Accept(db, read, invitation, paid).value;
    ReaderIsOpen(db, read, invitation);
    InvitedRole(db, invitation);
    if Fits(db, i.workspace) { AcceptFits(db, read, invitation, paid, i.workspace); }
    assert MembersOf(next.members, i.workspace) == MembersOf(db.members, i.workspace) + {(i.workspace, read.user)};
  }

  predicate NoPendingFrom(db: Database, w: WorkspaceId, email: Address) {
    forall d :: d in db.invitations && db.invitations[d].workspace == w && db.invitations[d].email == email ==> db.invitations[d].used
  }

  /** Every other membership stays as it was. */
  ghost predicate OnlyMembershipChanged(a: Members, b: Members, m: (WorkspaceId, UserId)) {
    forall n :: n != m ==> (n in a <==> n in b) && (n in a ==> a[n] == b[n])
  }

  lemma ChangingKeepsOwner(db: Database, actor: UserId, w: WorkspaceId, target: UserId, role: Option<Role>)
    requires Inv(db) && ChangeMember(db, actor, w, target, role).Ok?
    ensures var next := ChangeMember(db, actor, w, target, role).value;
      && SoleActiveOwner(db, w, actor) && SoleActiveOwner(next, w, actor)
      && OnlyMembershipChanged(db.members, next.members, (w, target))
      && (role.None? <==> (w, target) !in next.members) && (role.Some? ==> next.members[(w, target)] == role.value)
  {
    hide Inv;
    OwnerIsSole(db, w, actor);
  }

  lemma TransferringHandsOver(db: Database, actor: UserId, w: WorkspaceId, successor: UserId, passwordOk: bool)
    requires Inv(db) && TransferOwnership(db, actor, w, successor, passwordOk).Ok?
    ensures var next := TransferOwnership(db, actor, w, successor, passwordOk).value;
      && SoleActiveOwner(db, w, actor) && SoleActiveOwner(next, w, successor) && next.users[successor].verified
      && next.members.Keys == db.members.Keys && next.members[(w, actor)] == Admin
  {
    hide Inv;
    OwnerIsSole(db, w, actor);
  }

  // ---- leaving ----

  /** Every workspace the user owned is closing, and nobody is left in it. */
  ghost predicate OwnedAreClosed(db: Database, next: Database, user: UserId) {
    forall w :: IsActiveOwner(db, user, w) ==> w in next.closures && next.closures[w].requestedBy == user && NoMembers(next.members, w)
  }

  lemma LeavingCloses(db: Database, user: UserId, hash: PasswordHash, subscriptions: Subscriptions)
    requires Inv(db) && RequestDeletion(db, user, hash, subscriptions).Ok?
    ensures var next := RequestDeletion(db, user, hash, subscriptions).value;
      && Powerless(next, user) && user in db.users && NoPendingTo(next, db.users[user].email) && OwnedAreClosed(db, next, user)
  {
    hide Inv, Powerless, ClosingBlocked, ClosingSet, RevokeAll, UseAll, WithoutMember;
    var next := RequestDeletion(db, user, hash, subscriptions).value;
    RequestDeletionKeeps(db, user, hash, subscriptions);
    DepartedIsPowerless(next, user);
    forall w | IsActiveOwner(db, user, w) ensures w in next.closures && next.closures[w].requestedBy == user && NoMembers(next.members, w) {
      OwnerCloses(db, user, w);
      ClosedIsEmpty(next, w);
    }
  }

  lemma OwnerCloses(db: Database, user: UserId, w: WorkspaceId)
    requires Inv(db) && IsActiveOwner(db, user, w)
    ensures w in ClosingSet(db, user)
  {
    hide SessionsOk, TokensOk, InvitationsOk, OnePending, NoneToMember, FormerOk, UniqueEmails, InFlightOk, ClosuresOk, RequestsOk, MintedOk,
      ClosingSet;
    assert (w, user) in db.members;
    assert WorkspaceOk(db.members, db.closures, w);
    OwnerMustClose(db, user, w);
  }

  lemma ClosedIsEmpty(db: Database, w: WorkspaceId)
    requires Inv(db) && w in db.closures
    ensures NoMembers(db.members, w)
  {
    hide MembersOk, SessionsOk, TokensOk, InvitationsOk, OnePending, NoneToMember, FormerOk, UniqueEmails, InFlightOk, ClosuresOk, RequestsOk, MintedOk;
    assert w in db.closures.Keys;
    assert WorkspaceOk(db.members, db.closures, w);
  }

  // ---- billing, review and erasure ----

  /** Closing a row: a settled one is left alone, no other row is touched, and a known subscription was read as ended. */
  predicate ClosureHandled(before: Closures, after: Closures, w: WorkspaceId) {
    && w in before && w in after && before.Keys == after.Keys && (forall v :: v in before && v != w ==> after[v] == before[v])
    && after[w].attempts <= 5 && (before[w].state == Closed ==> after[w] == before[w])
    && (after[w].state == Closed && after[w].subscription.Some? ==> ProofOk(w, after[w]))
  }

  lemma BillingHandled(db: Database, w: WorkspaceId, local: Option<Subscription>, p: Provider)
    requires Inv(db) && ClosureDue(db, w)
    ensures var next := CloseBilling(db, w, local, p).value;
      && ClosureHandled(db.closures, next.closures, w) && next.closures[w].availableAt > db.clock
      && (next.closures[w].state == Failed <==> next.closures[w].attempts == 5)
  {
    hide Inv;
    InvClosure(db, w);
    AttemptOk(w, db.closures[w], db.users, local, p, db.clock);
    DelayPositive(db.closures[w].attempts + 1);
  }

  lemma {:induction false} DelayPositive(k: nat)
    ensures Pow2(k) >= 1
  {
    if k > 0 { DelayPositive(k - 1); }
  }

  lemma ReviewHandled(db: Database, w: WorkspaceId, reviewer: bool, retry: bool, reference: bool, local: Option<Subscription>, eventsOpen: bool)
    requires Inv(db) && ReviewClosure(db, w, reviewer, retry, reference, local, eventsOpen).Ok?
    ensures var next := ReviewClosure(db, w, reviewer, retry, reference, local, eventsOpen).value;
      && ClosureHandled(db.closures, next.closures, w)
      && (if retry then db.closures[w].state == Failed && ClosureDue(next, w)
          else next.closures[w].state == Closed && next.closures[w].subscription.None?)
  {
    hide Inv;
    InvClosure(db, w);
  }

  /** The account's billing is closed and the retention of the policy it was reviewed under has run out. */
  predicate MayBeErased(db: Database, user: UserId) {
    && user in db.requests && db.requests[user].policy.Some? && AllClosed(db.closures, user)
    && db.clock >= db.requests[user].requestedAt + db.requests[user].policy.value.retentionDays * DAY
  }

  lemma ReviewingDates(db: Database, user: UserId, policy: Option<Policy>, attested: bool, b: Billing)
    requires Inv(db) && ReviewRequest(db, user, policy, attested, b).Ok?
    ensures var next := ReviewRequest(db, user, policy, attested, b).value;
      && attested && user in db.requests && user in next.requests && ReviewDated(next.requests[user]) && AllClosed(next.closures, user)
      && (db.requests[user].state != Erased ==> next.requests[user].state == Reviewed && next.requests[user].policy == policy)
      && (db.requests[user].state == Erased ==> next == db)
  {
    hide Inv, BillingRefusal;
    InvRequest(db, user);
    if db.requests[user].state != Erased { SettledIsClosed(db.closures, user, b); }
  }

  lemma CheckedMayBeErased(db: Database, user: UserId, policy: Policy, b: Billing, a: Activity)
    requires Inv(db) && user in db.requests && ErasureRefusal(db, user, policy, b, a).None?
    ensures MayBeErased(db, user) && db.requests[user].state == Reviewed && db.requests[user].policy == Some(policy)
  {
    hide Inv, BillingRefusal;
    InvRequest(db, user);
    SettledIsClosed(db.closures, user, b);
  }

  /** No session, token, invitation or membership names the user, and the address and password are gone. */
  predicate Forgotten(db: Database, user: UserId) {
    && user in db.users && db.users[user] == User(Tombstone(user), DISABLED, false, true)
    && (forall d :: d in db.sessions ==> db.sessions[d].user != user)
    && (forall d :: d in db.tokens ==> db.tokens[d].user != user)
    && (forall d :: d in db.invitations ==> db.invitations[d].inviter != user)
    && (forall m :: m in db.members ==> m.1 != user)
    && (forall r :: r in db.inFlight ==> r.user != user)
  }

  /** The account is erased, no earlier than its policy allowed, and its billing is closed. */
  predicate DulyErased(db: Database, user: UserId) {
    && user in db.requests && db.requests[user].state == Erased && AllClosed(db.closures, user)
    && db.requests[user].policy.Some? && db.requests[user].erasedAt.Some?
    && db.requests[user].erasedAt.value >= db.requests[user].requestedAt + db.requests[user].policy.value.retentionDays * DAY
  }

  lemma FulfillingForgets(db: Database, user: UserId, policy: Option<Policy>, b: Billing, a: Activity)
    requires Inv(db) && Fulfil(db, user, policy, b, a).Ok?
    ensures var next := Fulfil(db, user, policy, b, a).value;
      && user in db.users && user in db.requests && DulyErased(next, user)
      && (db.requests[user].state != Erased ==> Forgotten(next, user) && NoAddress(next, db.users[user].email))
      && (db.requests[user].state == Erased ==> next == db)
  {
    hide Inv, ErasureRefusal;
    InvRequest(db, user);
    if db.requests[user].state != Erased {
      CheckedMayBeErased(db, user, policy.value, b, a);
    }
  }

  predicate NoAddress(db: Database, email: Address) { forall d :: d in db.invitations ==> db.invitations[d].email != email }
}
