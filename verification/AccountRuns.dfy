/**
 Every interleaving of account transactions.

 A run is any sequence of steps. Each lets some time pass and then attempts one
 transaction; a refused transaction changes nothing. Arguments stand for whatever a
 request read earlier, and for whatever the billing tables and the provider say.
 */
module AccountRuns {
  import opened Common
  import opened Accounts
  import opened AccountInvariants
  import opened AccountSteps

  datatype Action =
    | SigningUp(user: UserId, email: Address, hash: PasswordHash, token: Digest)
    | Verifying(token: Digest)
    | LoggingIn(user: UserId, verifiedHash: PasswordHash, session: Digest, lifetime: nat)
    | Rotating(user: UserId, readHash: PasswordHash, oldSession: Digest, session: Digest, lifetime: nat)
    | Forgetting(user: UserId, token: Digest)
    | Resending(user: UserId, token: Digest)
    | Resetting(token: Digest, hash: PasswordHash)
    | LoggingOut(session: Digest)
    | Revoking(user: UserId, session: Digest, listed: bool)
    | Authenticating(session: Digest)
    | Waiting
    | Creating(user: UserId, workspace: WorkspaceId, freeSeats: Seats)
    | Replanning(workspace: WorkspaceId, seats: Seats)
    | Inviting(actor: UserId, workspace: WorkspaceId, email: Address, role: Role, invitation: Digest, paid: bool)
    | Accepting(read: Read, invitation: Digest, paid: bool)
    | Changing(actor: UserId, workspace: WorkspaceId, target: UserId, newRole: Option<Role>)
    | Transferring(actor: UserId, workspace: WorkspaceId, successor: UserId, passwordOk: bool)
    | Leaving(user: UserId, readHash: PasswordHash, subscriptions: Subscriptions)
    | ClosingBilling(workspace: WorkspaceId, local: Option<Subscription>, provider: Provider)
    | ReviewingClosure(workspace: WorkspaceId, reviewer: bool, retry: bool, reference: bool, local: Option<Subscription>, eventsOpen: bool)
    | ReviewingRequest(user: UserId, policy: Option<Policy>, attested: bool, billing: Billing)
    | Fulfilling(user: UserId, policy: Option<Policy>, billing: Billing, activity: Activity)

  datatype Step = Step(tick: nat, action: Action)

  predicate IsCredential(a: Action) {
    a.SigningUp? || a.Verifying? || a.LoggingIn? || a.Rotating? || a.Forgetting? || a.Resending? || a.Resetting? || a.LoggingOut? || a.Revoking?
    || a.Authenticating? || a.Waiting?
  }

  predicate IsMembership(a: Action) {
    a.Creating? || a.Replanning? || a.Inviting? || a.Accepting? || a.Changing? || a.Transferring?
  }

  function AttemptedCredential(db: Database, a: Action): (r: Outcome)
    requires IsCredential(a)
    ensures r.Ok? ==> r.value == db.(users := r.value.users, sessions := r.value.sessions, tokens := r.value.tokens,
      inFlight := r.value.inFlight, minted := r.value.minted)
  {
    match a
    case SigningUp(user, email, hash, token) => Signup(db, user, email, hash, token)
    case Verifying(token) => VerifyEmail(db, token)
    case LoggingIn(user, hash, session, lifetime) => Login(db, user, hash, session, lifetime)
    case Rotating(user, hash, oldSession, session, lifetime) => Rotate(db, user, hash, oldSession, session, lifetime)
    case Forgetting(user, token) => ForgotPassword(db, user, token)
    case Resending(user, token) => ResendVerification(db, user, token)
    case Resetting(token, hash) => ResetPassword(db, token, hash)
    case LoggingOut(session) => Logout(db, session)
    case Revoking(user, session, listed) => RevokeSession(db, user, session, listed)
    case Authenticating(session) => Authenticate(db, session)
    case Waiting => Ok(db)
  }

  function AttemptedMembership(db: Database, a: Action): (r: Outcome)
    requires IsMembership(a)
    ensures r.Ok? ==> r.value == db.(creators := r.value.creators, seats := r.value.seats, members := r.value.members,
      invitations := r.value.invitations, minted := r.value.minted)
  {
    match a
    case Creating(user, workspace, freeSeats) => CreateWorkspace(db, user, workspace, freeSeats)
    case Replanning(workspace, seats) => ChangePlan(db, workspace, seats)
    case Inviting(actor, workspace, email, role, invitation, paid) => Invite(db, actor, workspace, email, role, invitation, paid)
    case Accepting(read, invitation, paid) =>
      if read in db.inFlight then Accept(db, read, invitation, paid) else Err(SessionExpired)
    case Changing(actor, workspace, target, role) => ChangeMember(db, actor, workspace, target, role)
    case Transferring(actor, workspace, successor, passwordOk) => TransferOwnership(db, actor, workspace, successor, passwordOk)
  }

  ghost function AttemptedOffboarding(db: Database, a: Action): (r: Outcome)
    requires !IsCredential(a) && !IsMembership(a)
    ensures r.Ok? ==> r.value == db.(users := r.value.users, members := r.value.members, sessions := r.value.sessions, tokens := r.value.tokens,
      invitations := r.value.invitations, closures := r.value.closures, requests := r.value.requests, inFlight := r.value.inFlight)
  {
    match a
    case Leaving(user, hash, subscriptions) => RequestDeletion(db, user, hash, subscriptions)
    case ClosingBilling(workspace, local, provider) => CloseBilling(db, workspace, local, provider)
    case ReviewingClosure(workspace, reviewer, retry, reference, local, eventsOpen) =>
      ReviewClosure(db, workspace, reviewer, retry, reference, local, eventsOpen)
    case ReviewingRequest(user, policy, attested, billing) => ReviewRequest(db, user, policy, attested, billing)
    case Fulfilling(user, policy, billing, activity) => Fulfil(db, user, policy, billing, activity)
  }

  ghost function Attempted(db: Database, a: Action): Outcome {
    if IsCredential(a) then AttemptedCredential(db, a)
    else if IsMembership(a) then AttemptedMembership(db, a)
    else AttemptedOffboarding(db, a)
  }

  ghost function Apply(db: Database, a: Action): Database {
    var r := Attempted(db, a);
    if r.Ok? then r.value else db
  }

  function Later(db: Database, tick: nat): Database { db.(clock := db.clock + tick) }

  ghost function Next(db: Database, s: Step): Database { Apply(Later(db, s.tick), s.action) }

  ghost function Run(db: Database, steps: seq<Step>): Database
    decreases |steps|
  {
    if steps == [] then db else Run(Next(db, steps[0]), steps[1..])
  }

  lemma {:induction false} RunAppend(db: Database, first: seq<Step>, second: seq<Step>)
    ensures Run(db, first + second) == Run(Run(db, first), second)
    decreases |first|
  {
    if first == [] {
      assert first + second == second;
    } else {
      assert (first + second)[1..] == first[1..] + second;
      RunAppend(Next(db, first[0]), first[1..], second);
    }
  }

  // ---- the invariant holds in every reachable state ----

  lemma LaterKeeps(db: Database, tick: nat)
    requires Inv(db)
    ensures Inv(Later(db, tick))
  {
    hide MembersOk, WorkspacesOk, SessionsOk, TokensOk, InvitationsOk, OnePending, NoneToMember, FormerOk, UniqueEmails, InFlightOk, ClosuresOk,
      RequestsOk;
  }

  lemma TokenActionKeeps(db: Database, user: UserId, token: Digest)
    requires Inv(db)
    ensures ForgotPassword(db, user, token).Ok? ==> Inv(ForgotPassword(db, user, token).value)
    ensures ResendVerification(db, user, token).Ok? ==> Inv(ResendVerification(db, user, token).value)
  {
    hide Inv, IssueToken;
    if user in db.users && !db.users[user].closing {
      IssueKeeps(db, user, Reset, token);
      IssueKeeps(db, user, Verify, token);
    }
  }

  lemma EndSessionKeeps(db: Database, user: UserId, session: Digest, listed: bool)
    requires Inv(db)
    ensures Logout(db, session).Ok? ==> Inv(Logout(db, session).value)
    ensures RevokeSession(db, user, session, listed).Ok? ==> Inv(RevokeSession(db, user, session, listed).value)
  {
    hide Inv;
    if session in db.sessions { RevokeKeeps(db, session); }
  }

  lemma CredentialKeeps(db: Database, a: Action)
    requires Inv(db) && IsCredential(a) && AttemptedCredential(db, a).Ok?
    ensures Inv(AttemptedCredential(db, a).value)
  {
    hide Inv, Signup, VerifyEmail, Login, Rotate, ForgotPassword, ResendVerification, ResetPassword, Logout, RevokeSession, Authenticate;
    match a
    case SigningUp(user, email, hash, token) => SignupKeeps(db, user, email, hash, token);
    case Verifying(token) => VerifyEmailKeeps(db, token);
    case LoggingIn(user, hash, session, lifetime) => LoginKeeps(db, user, hash, session, lifetime);
    case Rotating(user, hash, oldSession, session, lifetime) => RotateKeeps(db, user, hash, oldSession, session, lifetime);
    case Forgetting(user, token) => TokenActionKeeps(db, user, token);
    case Resending(user, token) => TokenActionKeeps(db, user, token);
    case Resetting(token, hash) => ResetKeeps(db, token, hash);
    case LoggingOut(session) => EndSessionKeeps(db, 0, session, true);
    case Revoking(user, session, listed) => EndSessionKeeps(db, user, session, listed);
    case Authenticating(session) => AuthenticateKeeps(db, session);
    case Waiting =>
  }

  lemma MembershipKeeps(db: Database, a: Action)
    requires Inv(db) && IsMembership(a) && AttemptedMembership(db, a).Ok?
    ensures Inv(AttemptedMembership(db, a).value)
  {
    hide Inv, CreateWorkspace, ChangePlan, Invite, Accept, ChangeMember, TransferOwnership;
    match a
    case Creating(user, workspace, freeSeats) => CreateWorkspaceKeeps(db, user, workspace, freeSeats);
    case Replanning(workspace, seats) => ChangePlanKeeps(db, workspace, seats);
    case Inviting(actor, workspace, email, role, invitation, paid) => InviteKeeps(db, actor, workspace, email, role, invitation, paid);
    case Accepting(read, invitation, paid) => AcceptKeeps(db, read, invitation, paid);
    case Changing(actor, workspace, target, role) => ChangeMemberKeeps(db, actor, workspace, target, role);
    case Transferring(actor, workspace, successor, passwordOk) => TransferKeeps(db, actor, workspace, successor, passwordOk);
  }

  lemma OffboardingKeeps(db: Database, a: Action)
    requires Inv(db) && !IsCredential(a) && !IsMembership(a) && AttemptedOffboarding(db, a).Ok?
    ensures Inv(AttemptedOffboarding(db, a).value)
  {
    hide Inv, RequestDeletion, CloseBilling, ReviewClosure, ReviewRequest, Fulfil;
    match a
    case Leaving(user, hash, subscriptions) => RequestDeletionKeeps(db, user, hash, subscriptions);
    case ClosingBilling(workspace, local, provider) => CloseBillingKeeps(db, workspace, local, provider);
    case ReviewingClosure(workspace, reviewer, retry, reference, local, eventsOpen) =>
      ReviewClosureKeeps(db, workspace, reviewer, retry, reference, local, eventsOpen);
    case ReviewingRequest(user, policy, attested, billing) => ReviewRequestKeeps(db, user, policy, attested, billing);
    case Fulfilling(user, policy, billing, activity) => FulfilKeeps(db, user, policy, billing, activity);
  }

  lemma ApplyKeeps(db: Database, a: Action)
    requires Inv(db)
    ensures Inv(Apply(db, a))
  {
    hide Inv, AttemptedCredential, AttemptedMembership, AttemptedOffboarding;
    if Attempted(db, a).Ok? {
      if IsCredential(a) { CredentialKeeps(db, a); }
      else if IsMembership(a) { MembershipKeeps(db, a); }
      else { OffboardingKeeps(db, a); }
    }
  }

  lemma NextKeeps(db: Database, s: Step)
    requires Inv(db)
    ensures Inv(Next(db, s))
  {
    hide Inv, Apply, Later;
    LaterKeeps(db, s.tick);
    ApplyKeeps(Later(db, s.tick), s.action);
  }

  lemma {:induction false} RunKeeps(db: Database, steps: seq<Step>)
    requires Inv(db)
    ensures Inv(Run(db, steps))
    decreases |steps|
  {
    hide Inv, Next;
    if steps != [] {
      NextKeeps(db, steps[0]);
      RunKeeps(Next(db, steps[0]), steps[1..]);
    }
  }

  lemma EmptyOk()
    ensures Inv(EMPTY)
  {
  }

  /** The invariant holds after every run from the empty database. */
  lemma Reachable(steps: seq<Step>)
    ensures Inv(Run(EMPTY, steps))
  {
    hide Run, Inv;
    EmptyOk();
    RunKeeps(EMPTY, steps);
  }

  // ---- what never goes back ----

  predicate UsersEvolve(a: Users, b: Users) { forall u :: u in a ==> u in b && (a[u].closing ==> b[u].closing) }

  predicate ClosureEvolves(a: Closure, b: Closure) {
    && a.requestedBy == b.requestedBy && a.customer == b.customer && a.subscription == b.subscription
    && (a.state == Closed ==> b == a)
  }

  predicate ClosuresEvolve(a: Closures, b: Closures) { forall w :: w in a ==> w in b && ClosureEvolves(a[w], b[w]) }

  function Rank(s: RequestState): nat { match s case Requested => 0 case Reviewed => 1 case Erased => 2 }

  predicate RequestEvolves(a: DeletionRequest, b: DeletionRequest) {
    a.address == b.address && a.requestedAt == b.requestedAt && Rank(a.state) <= Rank(b.state) && (a.state == Erased ==> b == a)
  }

  predicate RequestsEvolve(a: Requests, b: Requests) { forall u :: u in a ==> u in b && RequestEvolves(a[u], b[u]) }

  /** The token was issued once and cannot be redeemed any more. */
  predicate Spent(tokens: Tokens, minted: set<Digest>, token: Digest) { token in minted && (token in tokens ==> tokens[token].used) }

  ghost predicate TokensEvolve(a: Tokens, minted: set<Digest>, b: Tokens, minted': set<Digest>) {
    minted <= minted' && forall d :: Spent(a, minted, d) ==> Spent(b, minted', d)
  }

  ghost predicate Spends(a: Database, b: Database) { TokensEvolve(a.tokens, a.minted, b.tokens, b.minted) }

  ghost predicate Evolves(a: Database, b: Database) {
    UsersEvolve(a.users, b.users) && ClosuresEvolve(a.closures, b.closures) && RequestsEvolve(a.requests, b.requests) && Spends(a, b)
  }

  lemma EvolvesThrough(a: Database, b: Database, c: Database)
    requires Evolves(a, b) && Evolves(b, c)
    ensures Evolves(a, c)
  {
    forall w | w in a.closures ensures w in c.closures && ClosureEvolves(a.closures[w], c.closures[w]) {
      assert ClosureEvolves(a.closures[w], b.closures[w]) && ClosureEvolves(b.closures[w], c.closures[w]);
    }
    forall u | u in a.requests ensures u in c.requests && RequestEvolves(a.requests[u], c.requests[u]) {
      assert RequestEvolves(a.requests[u], b.requests[u]) && RequestEvolves(b.requests[u], c.requests[u]);
    }
    forall d | Spent(a.tokens, a.minted, d) ensures Spent(c.tokens, c.minted, d) { assert Spent(b.tokens, b.minted, d); }
  }

  lemma MembershipFrames(db: Database, a: Action)
    requires IsMembership(a) && AttemptedMembership(db, a).Ok?
    ensures var next := AttemptedMembership(db, a).value;
      && (!a.Inviting? && !a.Accepting? ==> next.invitations == db.invitations)
      && (a.Replanning? || a.Inviting? ==> next.members == db.members)
      && (!a.Creating? && !a.Replanning? ==> next.seats == db.seats)
  {
    hide CreateWorkspace, ChangePlan, Invite, Accept, ChangeMember, TransferOwnership;
  }

  lemma OffboardingFrames(db: Database, a: Action)
    requires !IsCredential(a) && !IsMembership(a) && AttemptedOffboarding(db, a).Ok?
    ensures var next := AttemptedOffboarding(db, a).value;
      && (a.ReviewingRequest? || a.Fulfilling? ==> next.closures == db.closures)
      && (a.ClosingBilling? || a.ReviewingClosure? ==> next.requests == db.requests)
      && (!a.Leaving? && !a.Fulfilling? ==> next.invitations == db.invitations && next.members == db.members)
  {
    hide RequestDeletion, CloseBilling, ReviewClosure, ReviewRequest, Fulfil;
  }

  /** Few kinds of transaction write closures, requests or invitations. */
  lemma Frames(db: Database, a: Action)
    ensures !a.Leaving? && !a.ClosingBilling? && !a.ReviewingClosure? ==> Apply(db, a).closures == db.closures
    ensures !a.Leaving? && !a.ReviewingRequest? && !a.Fulfilling? ==> Apply(db, a).requests == db.requests
    ensures !a.Inviting? && !a.Accepting? && !a.Leaving? && !a.Fulfilling? ==> Apply(db, a).invitations == db.invitations
  {
    hide AttemptedCredential, AttemptedMembership, AttemptedOffboarding;
    if Attempted(db, a).Ok? {
      if IsMembership(a) { MembershipFrames(db, a); } else if !IsCredential(a) { OffboardingFrames(db, a); }
    }
  }

  lemma CredentialUsers(db: Database, a: Action)
    requires IsCredential(a) && AttemptedCredential(db, a).Ok?
    ensures UsersEvolve(db.users, AttemptedCredential(db, a).value.users)
  {
    hide IssueToken, Redeemable, Login, Rotate, ForgotPassword, ResendVerification, Logout, RevokeSession, Authenticate, RevokeAll, UseUp;
  }

  lemma OffboardingUsers(db: Database, a: Action)
    requires !IsCredential(a) && !IsMembership(a) && AttemptedOffboarding(db, a).Ok?
    ensures UsersEvolve(db.users, AttemptedOffboarding(db, a).value.users)
  {
    hide CloseBilling, ReviewClosure, ReviewRequest, ErasureRefusal, ClosingBlocked, WithoutMember, ClosingSet, WithdrawInvitations, RevokeAll, UseAll;
  }

  lemma ApplyUsers(db: Database, a: Action)
    ensures UsersEvolve(db.users, Apply(db, a).users)
  {
    hide AttemptedCredential, AttemptedMembership, AttemptedOffboarding;
    if Attempted(db, a).Ok? {
      if IsCredential(a) { CredentialUsers(db, a); } else if !IsMembership(a) { OffboardingUsers(db, a); }
    }
  }

  lemma ApplyClosures(db: Database, a: Action)
    ensures ClosuresEvolve(db.closures, Apply(db, a).closures)
  {
    hide RequestDeletion, CloseBilling, ReviewClosure, ClosuresEvolve;
    ClosuresStay(db.closures);
    if a.Leaving? {
      LeavingClosures(db, a.user, a.readHash, a.subscriptions);
    } else if a.ClosingBilling? {
      BillingClosures(db, a.workspace, a.local, a.provider);
    } else if a.ReviewingClosure? {
      ReviewClosures(db, a.workspace, a.reviewer, a.retry, a.reference, a.local, a.eventsOpen);
    } else {
      hide Apply;
      Frames(db, a);
    }
  }

  lemma ClosuresStay(closures: Closures)
    ensures ClosuresEvolve(closures, closures)
  {
  }

  lemma LeavingClosures(db: Database, user: UserId, hash: PasswordHash, subscriptions: Subscriptions)
    ensures var r := RequestDeletion(db, user, hash, subscriptions); r.Ok? ==> ClosuresEvolve(db.closures, r.value.closures)
  {
    hide ClosingSet, WithdrawInvitations, RevokeAll, UseAll, WithoutMember, OtherActive, CheckoutOpen;
    if RequestDeletion(db, user, hash, subscriptions).Ok? {
      forall w | w in ClosingSet(db, user) ensures w !in db.closures {
        assert w !in ClosingBlocked(db, user, subscriptions);
      }
    }
  }

  lemma BillingClosures(db: Database, workspace: WorkspaceId, local: Option<Subscription>, provider: Provider)
    ensures var r := CloseBilling(db, workspace, local, provider); r.Ok? ==> ClosuresEvolve(db.closures, r.value.closures)
  {
    hide AttemptClosure;
  }

  lemma ReviewClosures(
    db: Database, workspace: WorkspaceId, reviewer: bool, retry: bool, reference: bool, local: Option<Subscription>, eventsOpen: bool)
    ensures var r := ReviewClosure(db, workspace, reviewer, retry, reference, local, eventsOpen);
      r.Ok? ==> ClosuresEvolve(db.closures, r.value.closures)
  {
  }

  /** A request row moves one state at a time, and a new one starts as requested. */
  predicate RequestsStep(a: Requests, b: Requests) {
    && (forall u :: u in a && u in b ==> Rank(b[u].state) <= Rank(a[u].state) + 1)
    && (forall u :: u in b && u !in a ==> b[u].state == Requested)
  }

  predicate RequestsMove(a: Requests, b: Requests) { RequestsEvolve(a, b) && RequestsStep(a, b) }

  lemma RequestsStay(requests: Requests)
    ensures RequestsMove(requests, requests)
  {
  }

  lemma RowMoves(requests: Requests, u: UserId, q: DeletionRequest)
    requires u in requests && RequestEvolves(requests[u], q) && Rank(q.state) <= Rank(requests[u].state) + 1
    ensures RequestsMove(requests, requests[u := q])
  {
  }

  lemma LeavingRequests(db: Database, user: UserId, hash: PasswordHash, subscriptions: Subscriptions)
    ensures var r := RequestDeletion(db, user, hash, subscriptions); r.Ok? ==> RequestsMove(db.requests, r.value.requests)
  {
    hide ClosingBlocked, ClosingSet, WithdrawInvitations, RevokeAll, UseAll, WithoutMember;
  }

  lemma ReviewRequests(db: Database, user: UserId, policy: Option<Policy>, attested: bool, b: Billing)
    ensures var r := ReviewRequest(db, user, policy, attested, b); r.Ok? ==> RequestsMove(db.requests, r.value.requests)
  {
    hide BillingRefusal, RequestsMove;
    RequestsStay(db.requests);
    var r := ReviewRequest(db, user, policy, attested, b);
    if r.Ok? && db.requests[user].state != Erased { RowMoves(db.requests, user, r.value.requests[user]); }
  }

  lemma FulfillingRequests(db: Database, user: UserId, policy: Option<Policy>, b: Billing, a: Activity)
    ensures var r := Fulfil(db, user, policy, b, a); r.Ok? ==> RequestsMove(db.requests, r.value.requests)
  {
    hide BillingRefusal, WithoutMember;
  }

  lemma ApplyRequests(db: Database, a: Action)
    ensures RequestsMove(db.requests, Apply(db, a).requests)
  {
    hide RequestDeletion, ReviewRequest, Fulfil, RequestsMove;
    RequestsStay(db.requests);
    if a.Leaving? {
      LeavingRequests(db, a.user, a.readHash, a.subscriptions);
    } else if a.ReviewingRequest? {
      ReviewRequests(db, a.user, a.policy, a.attested, a.billing);
    } else if a.Fulfilling? {
      FulfillingRequests(db, a.user, a.policy, a.billing, a.activity);
    } else {
      hide Apply;
      Frames(db, a);
    }
  }

  lemma MintingSpends(tokens: Tokens, minted: set<Digest>, minted': set<Digest>)
    requires minted <= minted' && tokens.Keys <= minted
    ensures TokensEvolve(tokens, minted, tokens, minted')
  {
  }

  lemma ConsumeSpends(db: Database, token: Digest, purpose: Purpose)
    ensures var r := Consume(db, token, purpose); r.Ok? ==> Spends(db, r.value)
  {
  }

  lemma IssueSpends(db: Database, user: UserId, purpose: Purpose, token: Digest)
    ensures var r := IssueToken(db, user, purpose, token); r.Ok? ==> Spends(db, r.value)
  {
  }

  lemma SignupSpends(db: Database, user: UserId, email: Address, hash: PasswordHash, token: Digest)
    requires db.tokens.Keys <= db.minted
    ensures var r := Signup(db, user, email, hash, token); r.Ok? ==> Spends(db, r.value)
  {
    hide IssueToken, TokensEvolve;
    MintingSpends(db.tokens, db.minted, db.minted);
    IssueSpends(db.(users := db.users[user := User(email, hash, false, false)]), user, Verify, token);
  }

  lemma RedeemingSpends(db: Database, token: Digest, hash: PasswordHash)
    ensures var r := VerifyEmail(db, token); r.Ok? ==> Spends(db, r.value)
    ensures var r := ResetPassword(db, token, hash); r.Ok? ==> Spends(db, r.value)
  {
    hide TokensEvolve;
    ConsumeSpends(db, token, Verify);
    ConsumeSpends(db, token, Reset);
  }

  lemma RequestingSpends(db: Database, user: UserId, token: Digest)
    requires db.tokens.Keys <= db.minted
    ensures var r := ForgotPassword(db, user, token); r.Ok? ==> Spends(db, r.value)
    ensures var r := ResendVerification(db, user, token); r.Ok? ==> Spends(db, r.value)
  {
    hide IssueToken, TokensEvolve;
    MintingSpends(db.tokens, db.minted, db.minted);
    IssueSpends(db, user, Reset, token);
    IssueSpends(db, user, Verify, token);
  }

  lemma CredentialSpends(db: Database, a: Action)
    requires db.tokens.Keys <= db.minted && IsCredential(a)
    ensures var r := AttemptedCredential(db, a); r.Ok? ==> Spends(db, r.value)
  {
    hide Signup, VerifyEmail, Login, Rotate, ForgotPassword, ResendVerification, ResetPassword, Logout, RevokeSession, Authenticate, TokensEvolve;
    MintingSpends(db.tokens, db.minted, db.minted);
    match a
    case SigningUp(user, email, hash, token) => SignupSpends(db, user, email, hash, token);
    case Verifying(token) => RedeemingSpends(db, token, 0);
    case Resetting(token, hash) => RedeemingSpends(db, token, hash);
    case Forgetting(user, token) => RequestingSpends(db, user, token);
    case Resending(user, token) => RequestingSpends(db, user, token);
    case LoggingIn(user, hash, session, lifetime) => LoginMints(db, user, hash, session, lifetime);
    case Rotating(user, hash, oldSession, session, lifetime) => RotateMints(db, user, hash, oldSession, session, lifetime);
    case _ =>
  }

  lemma ApplyTokens(db: Database, a: Action)
    requires db.tokens.Keys <= db.minted
    ensures Spends(db, Apply(db, a))
  {
    hide AttemptedCredential, CreateWorkspace, ChangePlan, Invite, Accept, ChangeMember, TransferOwnership, RequestDeletion, CloseBilling,
      ReviewClosure, ReviewRequest, Fulfil, TokensEvolve;
    MintingSpends(db.tokens, db.minted, db.minted);
    if IsCredential(a) {
      CredentialSpends(db, a);
    } else if a.Leaving? {
      LeavingTokens(db, a.user, a.readHash, a.subscriptions);
    } else if a.Fulfilling? {
      FulfillingTokens(db, a.user, a.policy, a.billing, a.activity);
    } else if a.Inviting? {
      InviteMints(db, a.actor, a.workspace, a.email, a.role, a.invitation, a.paid);
    }
  }

  lemma LoginMints(db: Database, user: UserId, hash: PasswordHash, session: Digest, lifetime: nat)
    requires db.tokens.Keys <= db.minted
    ensures var r := Login(db, user, hash, session, lifetime); r.Ok? ==> Spends(db, r.value)
  {
    hide TokensEvolve;
    if Login(db, user, hash, session, lifetime).Ok? { MintingSpends(db.tokens, db.minted, Login(db, user, hash, session, lifetime).value.minted); }
  }

  lemma RotateMints(db: Database, user: UserId, hash: PasswordHash, oldSession: Digest, session: Digest, lifetime: nat)
    requires db.tokens.Keys <= db.minted
    ensures var r := Rotate(db, user, hash, oldSession, session, lifetime); r.Ok? ==> Spends(db, r.value)
  {
    hide TokensEvolve;
    if Rotate(db, user, hash, oldSession, session, lifetime).Ok? { MintingSpends(db.tokens, db.minted, Rotate(db, user, hash, oldSession, session, lifetime).value.minted); }
  }

  lemma InviteMints(db: Database, actor: UserId, workspace: WorkspaceId, email: Address, role: Role, invitation: Digest, paid: bool)
    requires db.tokens.Keys <= db.minted
    ensures var r := Invite(db, actor, workspace, email, role, invitation, paid); r.Ok? ==> Spends(db, r.value)
  {
    hide TokensEvolve;
    if Invite(db, actor, workspace, email, role, invitation, paid).Ok? { MintingSpends(db.tokens, db.minted, Invite(db, actor, workspace, email, role, invitation, paid).value.minted); }
  }

  lemma LeavingTokens(db: Database, user: UserId, hash: PasswordHash, subscriptions: Subscriptions)
    ensures var r := RequestDeletion(db, user, hash, subscriptions); r.Ok? ==> Spends(db, r.value)
  {
    hide ClosingBlocked, ClosingSet, WithdrawInvitations, RevokeAll, WithoutMember;
  }

  lemma FulfillingTokens(db: Database, user: UserId, policy: Option<Policy>, b: Billing, a: Activity)
    ensures var r := Fulfil(db, user, policy, b, a); r.Ok? ==> Spends(db, r.value)
  {
    hide ErasureRefusal, WithoutMember;
  }

  lemma NextEvolves(db: Database, s: Step)
    requires Inv(db)
    ensures Evolves(db, Next(db, s))
  {
    hide Apply, UsersEvolve, ClosuresEvolve, RequestsEvolve, TokensEvolve, MembersOk, WorkspacesOk, SessionsOk, TokensOk, InvitationsOk, OnePending, NoneToMember,
      FormerOk, UniqueEmails, InFlightOk, ClosuresOk, RequestsOk;
    var db' := Later(db, s.tick);
    ApplyUsers(db', s.action);
    ApplyClosures(db', s.action);
    ApplyRequests(db', s.action);
    ApplyTokens(db', s.action);
  }

  lemma {:induction false} RunEvolves(db: Database, steps: seq<Step>)
    requires Inv(db)
    ensures Evolves(db, Run(db, steps))
    decreases |steps|
  {
    hide Inv, Next;
    if steps == [] {
    } else {
      hide Evolves;
      NextKeeps(db, steps[0]);
      NextEvolves(db, steps[0]);
      RunEvolves(Next(db, steps[0]), steps[1..]);
      EvolvesThrough(db, Next(db, steps[0]), Run(db, steps));
    }
  }
}
