/**
 Identity, membership and offboarding: the tables and every transaction on them.

 A request authenticates on its own connection and then runs a locked transaction;
 what it read first may be stale by then. Each transaction here is one atomic
 function of the tables and takes such earlier reads as arbitrary arguments. The
 one exception is accepting an invitation, whose caller must come from the pool of
 authenticated reads; a read leaves the pool when its own user is erased.

 Digests are injective and freshly drawn, so rows are keyed by what they digest.
 Instants count microseconds.
 */
module Accounts {
  import opened Common

  type WorkspaceId = nat
  type Digest = nat
  type PasswordHash = nat

  /** Every plan has at least one seat. */
  type Seats = n: int | 1 <= n witness 1

  /** What erasure writes over a password hash; no login verifies against it. */
  const DISABLED: PasswordHash := 0

  datatype Role = Owner | Admin | Member | Viewer

  datatype User = User(email: Address, hash: PasswordHash, verified: bool, closing: bool)

  /** `issuedUnder` is the password hash the request that created the session had verified; it is not a column. */
  datatype Session = Session(user: UserId, expires: int, revoked: bool, issuedUnder: PasswordHash)

  datatype Purpose = Verify | Reset

  datatype ActionToken = ActionToken(user: UserId, purpose: Purpose, expires: int, used: bool)

  datatype Invitation = Invitation(
    workspace: WorkspaceId, inviter: UserId, email: Address, role: Role, expires: int, used: bool)
  {
    predicate Live(now: int) { !used && expires > now }
  }

  datatype Status = Active | Trialing | PastDue | Unpaid | Incomplete | Paused | Canceled | IncompleteExpired | Unrecognised

  /** What the payment provider says about a subscription. */
  datatype Reading = Reading(
    subscription: nat, customer: Option<nat>, workspace: Option<WorkspaceId>, live: bool, status: Status, ending: bool)

  datatype Subscription = Subscription(
    customer: Option<nat>, subscription: Option<nat>, status: Status, checkoutUntil: Option<int>)

  datatype ClosureState = Pending | Scheduled | Closed | Failed

  /** `proof` is the provider reading that closed the row; it is not a column. */
  datatype Closure = Closure(
    requestedBy: UserId, state: ClosureState, customer: Option<nat>, subscription: Option<nat>,
    attempts: nat, availableAt: int, proof: Option<Reading>)

  datatype Policy = Policy(version: nat, retentionDays: nat)

  datatype RequestState = Requested | Reviewed | Erased

  datatype DeletionRequest = DeletionRequest(
    state: RequestState, requestedAt: int, address: Address, policy: Option<Policy>,
    erasureAfter: Option<int>, erasedAt: Option<int>)

  /** An authenticated user as read before a transaction starts. */
  datatype Read = Read(user: UserId, email: Address)

  type Users = map<UserId, User>
  type Members = map<(WorkspaceId, UserId), Role>
  type Sessions = map<Digest, Session>
  type Tokens = map<Digest, ActionToken>
  type Invitations = map<Digest, Invitation>
  type Closures = map<WorkspaceId, Closure>
  type Requests = map<UserId, DeletionRequest>

  /** The tables, the pool of authenticated reads in flight, and every digest drawn so far. */
  datatype Database = Database(
    clock: int, users: Users, creators: map<WorkspaceId, UserId>, seats: map<WorkspaceId, Seats>, members: Members,
    sessions: Sessions, tokens: Tokens, invitations: Invitations, closures: Closures, requests: Requests,
    inFlight: set<Read>, minted: set<Digest>)

  const EMPTY: Database := Database(0, map[], map[], map[], map[], map[], map[], map[], map[], map[], {}, {})

  datatype Refusal =
    | NotFound | Collision | SessionExpired | SessionNotFound | LoginInvalid | TokenInvalid | PasswordInvalid | RoleForbidden | WorkspaceLimit
    | SubscriptionInactive | AlreadyMember | SeatsExhausted | InvitationUnavailable | InvitationRevoked
    | MemberNotFound | OwnerProtected | SuccessorInvalid | WorkspaceClosing
    | OffboardingReviewRequired | OwnershipTransferRequired | CheckoutPending
    | ClosureNotFound | ClosureNotFailed | BillingReviewRequired | ProviderClosureRequired | ReconciliationRequired
    | PolicyUnapproved | RetentionReviewRequired | DeletionNotFound | BillingClosurePending | BillingIdentityMismatch
    | RetentionNotElapsed | ResearchActive | EmailActive | LegacyEmail

  type Outcome = Result<Database, Refusal>

  // ---- sessions and action tokens ----

  function RevokeAll(sessions: Sessions, user: UserId): Sessions {
    map d | d in sessions :: if sessions[d].user == user then sessions[d].(revoked := true) else sessions[d]
  }

  function UseUp(tokens: Tokens, user: UserId, purpose: Purpose): Tokens {
    map d | d in tokens ::
      if tokens[d].user == user && tokens[d].purpose == purpose then tokens[d].(used := true) else tokens[d]
  }

  function UseAll(tokens: Tokens, user: UserId): Tokens {
    map d | d in tokens :: if tokens[d].user == user then tokens[d].(used := true) else tokens[d]
  }

  /** A new token of one purpose uses up every earlier one. */
  function IssueToken(db: Database, user: UserId, purpose: Purpose, token: Digest): (r: Outcome)
    ensures r.Ok? ==> r.value == db.(tokens := r.value.tokens, minted := r.value.minted)
  {
    if token in db.minted then Err(Collision)
    else
      var expires := db.clock + (if purpose == Reset then 30 else 1440) * MINUTE;
      Ok(db.(tokens := UseUp(db.tokens, user, purpose)[token := ActionToken(user, purpose, expires, false)],
             minted := db.minted + {token}))
  }

  /** The token can be redeemed now. */
  predicate Redeemable(db: Database, token: Digest, purpose: Purpose) {
    && token in db.tokens && db.tokens[token].purpose == purpose
    && db.tokens[token].user in db.users && !db.users[db.tokens[token].user].closing
    && !db.tokens[token].used && db.tokens[token].expires > db.clock
  }

  function Consume(db: Database, token: Digest, purpose: Purpose): (r: Outcome)
    ensures r.Ok? ==> r.value == db.(tokens := r.value.tokens)
  {
    if !Redeemable(db, token, purpose) then Err(TokenInvalid)
    else Ok(db.(tokens := db.tokens[token := db.tokens[token].(used := true)]))
  }

  predicate AddressTaken(users: Users, email: Address) { exists u :: u in users && users[u].email == email }

  function Signup(db: Database, user: UserId, email: Address, hash: PasswordHash, token: Digest): (r: Outcome)
    ensures r.Ok? ==> r.value == db.(users := r.value.users, tokens := r.value.tokens, minted := r.value.minted)
  {
    if AddressTaken(db.users, email) then Ok(db)
    else if user in db.users then Err(Collision)
    else IssueToken(db.(users := db.users[user := User(email, hash, false, false)]), user, Verify, token)
  }

  function VerifyEmail(db: Database, token: Digest): (r: Outcome)
    ensures r.Ok? ==> r.value == db.(users := r.value.users, tokens := r.value.tokens)
  {
    var consumed :- Consume(db, token, Verify);
    var user := db.tokens[token].user;
    Ok(consumed.(users := db.users[user := db.users[user].(verified := true)]))
  }

  function NewSession(db: Database, user: UserId, hash: PasswordHash, session: Digest, lifetime: nat): (r: Outcome)
    ensures r.Ok? ==> r.value == db.(sessions := r.value.sessions, minted := r.value.minted)
  {
    if session in db.minted then Err(Collision)
    else Ok(db.(sessions := db.sessions[session := Session(user, db.clock + lifetime, false, hash)], minted := db.minted + {session}))
  }

  /** `verifiedHash` is the hash the password was checked against before this transaction. */
  function Login(db: Database, user: UserId, verifiedHash: PasswordHash, session: Digest, lifetime: nat): (r: Outcome)
    ensures r.Ok? ==> r.value == db.(sessions := r.value.sessions, minted := r.value.minted)
  {
    if user !in db.users then Err(NotFound)
    else if db.users[user].hash != verifiedHash || db.users[user].closing then Err(LoginInvalid)
    else NewSession(db, user, verifiedHash, session, lifetime)
  }

  /** `readHash` is the user's hash as read when the old session authenticated. */
  function Rotate(db: Database, user: UserId, readHash: PasswordHash, oldSession: Digest, session: Digest, lifetime: nat): (r: Outcome)
    ensures r.Ok? ==> r.value == db.(sessions := r.value.sessions, minted := r.value.minted)
  {
    if user !in db.users then Err(NotFound)
    else if db.users[user].closing || db.users[user].hash != readHash then Err(SessionExpired)
    else if oldSession !in db.sessions then Err(NotFound)
    else if db.sessions[oldSession].revoked || db.sessions[oldSession].expires <= db.clock then Err(SessionExpired)
    else NewSession(db.(sessions := db.sessions[oldSession := db.sessions[oldSession].(revoked := true)]), user, readHash, session, lifetime)
  }

  function ForgotPassword(db: Database, user: UserId, token: Digest): (r: Outcome)
    ensures r.Ok? ==> r.value == db.(tokens := r.value.tokens, minted := r.value.minted)
  {
    if user !in db.users || db.users[user].closing then Ok(db) else IssueToken(db, user, Reset, token)
  }

  function ResendVerification(db: Database, user: UserId, token: Digest): (r: Outcome)
    ensures r.Ok? ==> r.value == db.(tokens := r.value.tokens, minted := r.value.minted)
  {
    if user !in db.users || db.users[user].closing || db.users[user].verified then Ok(db) else IssueToken(db, user, Verify, token)
  }

  function ResetPassword(db: Database, token: Digest, hash: PasswordHash): (r: Outcome)
    ensures r.Ok? ==> r.value == db.(users := r.value.users, sessions := r.value.sessions, tokens := r.value.tokens)
  {
    var consumed :- Consume(db, token, Reset);
    var user := db.tokens[token].user;
    Ok(consumed.(users := db.users[user := db.users[user].(hash := hash)], sessions := RevokeAll(db.sessions, user)))
  }

  function Logout(db: Database, session: Digest): (r: Outcome)
    ensures r.Ok? ==> r.value == db.(sessions := r.value.sessions)
  {
    if session !in db.sessions then Ok(db)
    else Ok(db.(sessions := db.sessions[session := db.sessions[session].(revoked := true)]))
  }

  /** `listed` says the session is among the hundred the lookup reads. */
  function RevokeSession(db: Database, user: UserId, session: Digest, listed: bool): (r: Outcome)
    ensures r.Ok? ==> r.value == db.(sessions := r.value.sessions)
  {
    if user !in db.users then Err(NotFound)
    else if db.users[user].closing then Err(SessionExpired)
    else if session !in db.sessions || db.sessions[session].user != user || db.sessions[session].revoked
      || db.sessions[session].expires <= db.clock || !listed then Err(SessionNotFound)
    else Ok(db.(sessions := db.sessions[session := db.sessions[session].(revoked := true)]))
  }

  /** Joins the session with its user; the read may be used by a later transaction. */
  function Authenticate(db: Database, session: Digest): (r: Outcome)
    ensures r.Ok? ==> r.value == db.(inFlight := r.value.inFlight)
  {
    if session in db.sessions && !db.sessions[session].revoked && db.sessions[session].expires > db.clock
       && db.sessions[session].user in db.users
       && db.users[db.sessions[session].user].verified && !db.users[db.sessions[session].user].closing
    then
      var user := db.sessions[session].user;
      Ok(db.(inFlight := db.inFlight + {Read(user, db.users[user].email)}))
    else Err(SessionExpired)
  }

  // ---- workspaces and members ----

  function CreatedBy(creators: map<WorkspaceId, UserId>, user: UserId): set<WorkspaceId> {
    set w | w in creators && creators[w] == user
  }

  function MembersOf(members: Members, workspace: WorkspaceId): set<(WorkspaceId, UserId)> {
    set m | m in members && m.0 == workspace
  }

  /** Live invitations of a workspace at an instant. */
  function LiveOf(invitations: Invitations, workspace: WorkspaceId, now: int): set<Digest> {
    set d | d in invitations && invitations[d].workspace == workspace && invitations[d].Live(now)
  }

  function LiveForOthers(invitations: Invitations, workspace: WorkspaceId, now: int, email: Address): set<Digest> {
    set d | d in invitations && invitations[d].workspace == workspace && invitations[d].Live(now) && invitations[d].email != email
  }

  predicate IsActiveOwner(db: Database, actor: UserId, workspace: WorkspaceId) {
    && actor in db.users && !db.users[actor].closing
    && (workspace, actor) in db.members && db.members[(workspace, actor)] == Owner
  }

  function CreateWorkspace(db: Database, user: UserId, workspace: WorkspaceId, freeSeats: Seats): (r: Outcome)
    ensures r.Ok? ==> r.value == db.(creators := r.value.creators, seats := r.value.seats, members := r.value.members)
  {
    if user !in db.users then Err(NotFound)
    else if db.users[user].closing then Err(SessionExpired)
    else if |CreatedBy(db.creators, user)| >= 5 then Err(WorkspaceLimit)
    else if workspace in db.creators then Err(Collision)
    else Ok(db.(creators := db.creators[workspace := user], seats := db.seats[workspace := freeSeats],
                members := db.members[(workspace, user) := Owner]))
  }

  /** The seats of the workspace's plan change. */
  function ChangePlan(db: Database, workspace: WorkspaceId, seats: Seats): (r: Outcome)
    ensures r.Ok? ==> r.value == db.(seats := r.value.seats)
  {
    if workspace !in db.creators then Err(NotFound) else Ok(db.(seats := db.seats[workspace := seats]))
  }

  predicate MemberAddress(db: Database, workspace: WorkspaceId, email: Address) {
    exists u :: u in db.users && db.users[u].email == email && (workspace, u) in db.members
  }

  /** Mail to this address is held back: its user is closing, or nobody has it and it belonged to a closed account. */
  predicate Suppressed(db: Database, email: Address) {
    if AddressTaken(db.users, email) then exists u :: u in db.users && db.users[u].email == email && db.users[u].closing
    else exists u :: u in db.requests && db.requests[u].address == email
  }

  function Supersede(invitations: Invitations, workspace: WorkspaceId, email: Address): Invitations {
    map d | d in invitations ::
      if invitations[d].workspace == workspace && invitations[d].email == email then invitations[d].(used := true) else invitations[d]
  }

  /** `paid` says the subscription is active or trialing and its period has not ended. */
  function Invite(db: Database, actor: UserId, workspace: WorkspaceId, email: Address, role: Role, invitation: Digest, paid: bool): (r: Outcome)
    ensures r.Ok? ==> r.value == db.(invitations := r.value.invitations, minted := r.value.minted)
  {
    if role == Owner then Err(RoleForbidden)
    else if workspace !in db.creators || workspace !in db.seats then Err(NotFound)
    else if !paid then Err(SubscriptionInactive)
    else if !IsActiveOwner(db, actor, workspace) then Err(RoleForbidden)
    else if MemberAddress(db, workspace, email) then Err(AlreadyMember)
    else if |MembersOf(db.members, workspace)| + |LiveForOthers(db.invitations, workspace, db.clock, email)| >= db.seats[workspace]
      then Err(SeatsExhausted)
    else if invitation in db.minted then Err(Collision)
    else if Suppressed(db, email) then Err(InvitationUnavailable)
    else
      var added := Invitation(workspace, actor, email, role, db.clock + 7 * DAY, false);
      Ok(db.(invitations := Supersede(db.invitations, workspace, email)[invitation := added], minted := db.minted + {invitation}))
  }

  function Accept(db: Database, read: Read, invitation: Digest, paid: bool): (r: Outcome)
    ensures r.Ok? ==> r.value == db.(members := r.value.members, invitations := r.value.invitations)
  {
    if invitation !in db.invitations || db.invitations[invitation].email != read.email then Err(TokenInvalid)
    else
      var i := db.invitations[invitation];
      if i.workspace !in db.creators || i.workspace !in db.seats then Err(NotFound)
      else if !paid then Err(SubscriptionInactive)
      else if !i.Live(db.clock) then Err(TokenInvalid)
      else if !IsActiveOwner(db, i.inviter, i.workspace) then Err(InvitationRevoked)
      else if (i.workspace, read.user) in db.members then Err(AlreadyMember)
      else if |MembersOf(db.members, i.workspace)| >= db.seats[i.workspace] then Err(SeatsExhausted)
      else Ok(db.(members := db.members[(i.workspace, read.user) := i.role],
                  invitations := db.invitations[invitation := i.(used := true)]))
  }

  function ChangeMember(db: Database, actor: UserId, workspace: WorkspaceId, target: UserId, role: Option<Role>): (r: Outcome)
    ensures r.Ok? ==> r.value == db.(members := r.value.members)
  {
    if role == Some(Owner) then Err(RoleForbidden)
    else if workspace !in db.creators then Err(NotFound)
    else if !IsActiveOwner(db, actor, workspace) then Err(RoleForbidden)
    else if (workspace, target) !in db.members then Err(MemberNotFound)
    else if db.members[(workspace, target)] == Owner || target == actor then Err(OwnerProtected)
    else if role.None? then Ok(db.(members := db.members - {(workspace, target)}))
    else Ok(db.(members := db.members[(workspace, target) := role.value]))
  }

  function TransferOwnership(db: Database, actor: UserId, workspace: WorkspaceId, successor: UserId, passwordOk: bool): (r: Outcome)
    ensures r.Ok? ==> r.value == db.(members := r.value.members)
  {
    if successor == actor then Err(SuccessorInvalid)
    else if actor !in db.users || db.users[actor].closing then Err(SessionExpired)
    else if !passwordOk then Err(PasswordInvalid)
    else if successor !in db.users || db.users[successor].closing || !db.users[successor].verified then Err(SuccessorInvalid)
    else if workspace !in db.creators then Err(NotFound)
    else if workspace in db.closures then Err(WorkspaceClosing)
    else if !IsActiveOwner(db, actor, workspace) then Err(RoleForbidden)
    else if (workspace, successor) !in db.members then Err(SuccessorInvalid)
    else Ok(db.(members := db.members[(workspace, successor) := Owner][(workspace, actor) := Admin]))
  }

  // ---- closing an account ----

  function WorkspacesOf(members: Members, user: UserId): set<WorkspaceId> {
    set m | m in members && m.1 == user :: m.0
  }

  /** Somebody else in the workspace whose account is not closing, with a role that passes the test. */
  predicate OtherActive(db: Database, workspace: WorkspaceId, user: UserId, ownersOnly: bool) {
    exists m :: m in db.members && m.0 == workspace && m.1 != user && m.1 in db.users && !db.users[m.1].closing
      && (ownersOnly ==> db.members[m] == Owner)
  }

  /** The user owns the workspace and no other active owner remains: it must be closed with the account. */
  predicate MustClose(db: Database, workspace: WorkspaceId, user: UserId) {
    && (workspace, user) in db.members && db.members[(workspace, user)] == Owner
    && !OtherActive(db, workspace, user, true)
  }

  type Subscriptions = map<WorkspaceId, Subscription>

  predicate CheckoutOpen(subscriptions: Subscriptions, workspace: WorkspaceId, now: int) {
    && workspace in subscriptions && subscriptions[workspace].checkoutUntil.Some?
    && subscriptions[workspace].checkoutUntil.value > now
  }

  /** Why closing this one workspace is refused, if it is. */
  function ClosingRefusal(db: Database, workspace: WorkspaceId, user: UserId, subscriptions: Subscriptions): Option<Refusal> {
    if OtherActive(db, workspace, user, false) then Some(OwnershipTransferRequired)
    else if CheckoutOpen(subscriptions, workspace, db.clock) then Some(CheckoutPending)
    else if workspace in db.closures then Some(Collision)
    else None
  }

  function NewClosure(user: UserId, now: int, subscriptions: Subscriptions, workspace: WorkspaceId): Closure {
    if workspace in subscriptions
    then Closure(user, Pending, subscriptions[workspace].customer, subscriptions[workspace].subscription, 0, now, None)
    else Closure(user, Pending, None, None, 0, now, None)
  }

  function ClosingSet(db: Database, user: UserId): set<WorkspaceId> {
    set w | w in WorkspacesOf(db.members, user) && MustClose(db, w, user)
  }

  /** The workspaces whose closing is refused. */
  function ClosingBlocked(db: Database, user: UserId, subscriptions: Subscriptions): set<WorkspaceId> {
    set w | w in ClosingSet(db, user) && ClosingRefusal(db, w, user, subscriptions).Some?
  }

  function WithdrawInvitations(invitations: Invitations, workspaces: set<WorkspaceId>, user: UserId, email: Address): Invitations {
    map d | d in invitations ::
      if invitations[d].workspace in workspaces || invitations[d].inviter == user || invitations[d].email == email
      then invitations[d].(used := true) else invitations[d]
  }

  function WithoutMember(members: Members, user: UserId): Members {
    map m | m in members && m.1 != user :: members[m]
  }

  /** Every table after the account starts closing. */
  function Closing(db: Database, user: UserId, subscriptions: Subscriptions): Database
    requires user in db.users
  {
    var workspaces := ClosingSet(db, user);
    db.(users := db.users[user := db.users[user].(closing := true)],
        members := WithoutMember(db.members, user),
        sessions := RevokeAll(db.sessions, user),
        tokens := UseAll(db.tokens, user),
        invitations := WithdrawInvitations(db.invitations, workspaces, user, db.users[user].email),
        closures := db.closures + (map w | w in workspaces :: NewClosure(user, db.clock, subscriptions, w)),
        requests := db.requests[user := DeletionRequest(Requested, db.clock, db.users[user].email, None, None, None)])
  }

  /** `readHash` is the hash the password was checked against; the first workspace refused decides the refusal. */
  ghost function RequestDeletion(db: Database, user: UserId, readHash: PasswordHash, subscriptions: Subscriptions): (r: Outcome)
    ensures r.Ok? ==> r.value == db.(users := r.value.users, members := r.value.members, sessions := r.value.sessions,
      tokens := r.value.tokens, invitations := r.value.invitations, closures := r.value.closures, requests := r.value.requests)
  {
    if user !in db.users then Err(NotFound)
    else if db.users[user].hash != readHash || db.users[user].closing then Err(SessionExpired)
    else if |WorkspacesOf(db.members, user)| > 1000 then Err(OffboardingReviewRequired)
    else
      var blocked := ClosingBlocked(db, user, subscriptions);
      if blocked != {} then Err(ClosingRefusal(db, Least(blocked), user, subscriptions).value)
      else if user in db.requests then Err(Collision)
      else Ok(Closing(db, user, subscriptions))
  }

  // ---- billing closures ----

  /** The reading is about exactly this subscription, in the configured mode. */
  predicate SameIdentity(r: Reading, workspace: WorkspaceId, c: Closure, liveMode: bool) {
    && c.subscription == Some(r.subscription) && r.customer == c.customer && r.live == liveMode
    && r.workspace == Some(workspace) && r.status != Unrecognised
  }

  predicate Ended(status: Status) { status == Canceled || status == IncompleteExpired }

  /** The provider's answers during one attempt: first reading, reply to the cancellation, second reading. */
  datatype Provider = Provider(first: Option<Reading>, cancelled: Option<Reading>, second: Option<Reading>, liveMode: bool)

  datatype Attempt = Unconfirmed | Confirmed(state: ClosureState, reading: Option<Reading>)

  predicate Usable(r: Option<Reading>, workspace: WorkspaceId, c: Closure, liveMode: bool) {
    r.Some? && SameIdentity(r.value, workspace, c, liveMode)
  }

  function AttemptClosure(workspace: WorkspaceId, c: Closure, local: Option<Subscription>, p: Provider): Attempt {
    if c.customer.Some? && c.subscription.None? then Unconfirmed
    else if c.subscription.None? then Confirmed(Closed, None)
    else if local.None? || local.value.subscription != c.subscription || local.value.customer != c.customer then Unconfirmed
    else if !Usable(p.first, workspace, c, p.liveMode) then Unconfirmed
    else if Ended(p.first.value.status) then Confirmed(Closed, p.first)
    else if !p.first.value.ending && !Usable(p.cancelled, workspace, c, p.liveMode) then Unconfirmed
    else if !Usable(p.second, workspace, c, p.liveMode) then Unconfirmed
    else if !p.second.value.ending && p.second.value.status != Canceled then Unconfirmed
    else if p.second.value.status == Canceled then Confirmed(Closed, p.second)
    else Confirmed(Scheduled, None)
  }

  function AfterAttempt(c: Closure, a: Attempt, now: int): Closure {
    match a
    case Unconfirmed =>
      var attempts := c.attempts + 1;
      var delay := 30 * Pow2(attempts);
      c.(state := if attempts >= 5 then Failed else Pending, attempts := attempts,
         availableAt := now + (if delay <= 3600 then delay else 3600) * SECOND)
    case Confirmed(state, reading) =>
      c.(state := state, attempts := 0, availableAt := now + 3600 * SECOND, proof := if reading.Some? then reading else c.proof)
  }

  predicate ClosureDue(db: Database, workspace: WorkspaceId) {
    && workspace in db.closures && (db.closures[workspace].state == Pending || db.closures[workspace].state == Scheduled)
    && db.closures[workspace].availableAt <= db.clock
  }

  function CloseBilling(db: Database, workspace: WorkspaceId, local: Option<Subscription>, p: Provider): (r: Outcome)
    ensures r.Ok? ==> r.value == db.(closures := r.value.closures)
  {
    if !ClosureDue(db, workspace) then Ok(db)
    else
      var c := db.closures[workspace];
      Ok(db.(closures := db.closures[workspace := AfterAttempt(c, AttemptClosure(workspace, c, local, p), db.clock)]))
  }

  /** An operator's review: `reviewer` and `reference` say whether those references are well formed. */
  function ReviewClosure(
    db: Database, workspace: WorkspaceId, reviewer: bool, retry: bool, reference: bool, local: Option<Subscription>, eventsOpen: bool): (r: Outcome)
    ensures r.Ok? ==> r.value == db.(closures := r.value.closures)
  {
    if !reviewer then Err(BillingReviewRequired)
    else if workspace !in db.closures then Err(ClosureNotFound)
    else
      var c := db.closures[workspace];
      if retry then
        if c.state != Failed then Err(ClosureNotFailed)
        else Ok(db.(closures := db.closures[workspace := c.(state := Pending, attempts := 0, availableAt := db.clock)]))
      else if !reference then Err(BillingReviewRequired)
      else if c.subscription.Some? || (local.Some? && local.value.subscription.Some?) then Err(ProviderClosureRequired)
      else if local.Some? && local.value.checkoutUntil.Some? && local.value.checkoutUntil.value > db.clock then Err(CheckoutPending)
      else if c.customer.Some? && eventsOpen then Err(ReconciliationRequired)
      else Ok(db.(closures := db.closures[workspace := c.(state := Closed)]))
  }

  /** The billing tables as one transaction sees them: subscriptions and customers with unresolved events. */
  datatype Billing = Billing(subscriptions: Subscriptions, unresolved: set<nat>)

  /** Why a closure does not count as settled, if it does not. */
  function UnsettledBecause(workspace: WorkspaceId, c: Closure, b: Billing): Option<Refusal> {
    if c.state != Closed then Some(BillingClosurePending)
    else if workspace in b.subscriptions
      && (b.subscriptions[workspace].customer != c.customer || b.subscriptions[workspace].subscription != c.subscription)
      then Some(BillingIdentityMismatch)
    else if c.subscription.Some? && (workspace !in b.subscriptions || !Ended(b.subscriptions[workspace].status))
      then Some(BillingClosurePending)
    else if c.customer.Some? && c.customer.value in b.unresolved then Some(ReconciliationRequired)
    else None
  }

  function Unsettled(closures: Closures, user: UserId, b: Billing): set<WorkspaceId> {
    set w | w in closures && closures[w].requestedBy == user && UnsettledBecause(w, closures[w], b).Some?
  }

  /** The first unsettled closure of the user, in workspace order, decides. */
  ghost function BillingRefusal(closures: Closures, user: UserId, b: Billing): (r: Option<Refusal>)
    ensures r.None? <==> Unsettled(closures, user, b) == {}
  {
    var unsettled := Unsettled(closures, user, b);
    if unsettled == {} then None else UnsettledBecause(Least(unsettled), closures[Least(unsettled)], b)
  }

  /** The operator attests the review under an approved policy. */
  ghost function ReviewRequest(db: Database, user: UserId, policy: Option<Policy>, attested: bool, b: Billing): (r: Outcome)
    ensures r.Ok? ==> r.value == db.(requests := r.value.requests)
  {
    if policy.None? then Err(PolicyUnapproved)
    else if !attested then Err(RetentionReviewRequired)
    else if user !in db.users || user !in db.requests then Err(DeletionNotFound)
    else if db.requests[user].state == Erased then Ok(db)
    else if BillingRefusal(db.closures, user, b).Some? then Err(BillingRefusal(db.closures, user, b).value)
    else
      var q := db.requests[user];
      Ok(db.(requests := db.requests[user :=
        q.(state := Reviewed, policy := policy, erasureAfter := Some(q.requestedAt + policy.value.retentionDays * DAY))]))
  }

  /** Other work that must have ended before erasure. */
  datatype Activity = Activity(research: bool, email: bool, legacyEmail: bool)

  ghost function ErasureRefusal(db: Database, user: UserId, policy: Policy, b: Billing, a: Activity): Option<Refusal>
    requires user in db.requests
  {
    var q := db.requests[user];
    if q.state != Reviewed || q.policy != Some(policy) || q.erasureAfter.None? then Some(RetentionReviewRequired)
    else if q.erasureAfter.value > db.clock then Some(RetentionNotElapsed)
    else if BillingRefusal(db.closures, user, b).Some? then BillingRefusal(db.closures, user, b)
    else if a.research then Some(ResearchActive)
    else if a.email then Some(EmailActive)
    else if a.legacyEmail then Some(LegacyEmail)
    else if exists u :: u in db.users && u != user && db.users[u].email == Tombstone(user) then Some(Collision)
    else None
  }

  function SessionsWithout(sessions: Sessions, user: UserId): Sessions {
    map d | d in sessions && sessions[d].user != user :: sessions[d]
  }

  function TokensWithout(tokens: Tokens, user: UserId): Tokens {
    map d | d in tokens && tokens[d].user != user :: tokens[d]
  }

  function InvitationsWithout(invitations: Invitations, user: UserId, email: Address): Invitations {
    map d | d in invitations && invitations[d].inviter != user && invitations[d].email != email :: invitations[d]
  }

  function ReadsWithout(inFlight: set<Read>, user: UserId): set<Read> { set r | r in inFlight && r.user != user }

  /** Every table after the account's personal data is erased. */
  function Erasing(db: Database, user: UserId): Database
    requires user in db.users && user in db.requests
  {
    var email := db.users[user].email;
    db.(users := db.users[user := User(Tombstone(user), DISABLED, false, true)],
        members := WithoutMember(db.members, user),
        sessions := SessionsWithout(db.sessions, user),
        tokens := TokensWithout(db.tokens, user),
        invitations := InvitationsWithout(db.invitations, user, email),
        requests := db.requests[user := db.requests[user].(state := Erased, erasedAt := Some(db.clock))],
        inFlight := ReadsWithout(db.inFlight, user))
  }

  ghost function Fulfil(db: Database, user: UserId, policy: Option<Policy>, b: Billing, a: Activity): (r: Outcome)
    ensures r.Ok? ==> r.value == db.(users := r.value.users, members := r.value.members, sessions := r.value.sessions,
      tokens := r.value.tokens, invitations := r.value.invitations, requests := r.value.requests, inFlight := r.value.inFlight)
  {
    if policy.None? then Err(PolicyUnapproved)
    else if user !in db.users || user !in db.requests then Err(DeletionNotFound)
    else if db.requests[user].state == Erased then Ok(db)
    else
      var refusal := ErasureRefusal(db, user, policy.value, b, a);
      if refusal.Some? then Err(refusal.value) else Ok(Erasing(db, user))
  }
}
