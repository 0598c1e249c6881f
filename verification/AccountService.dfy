/**
 The account service as it runs, on mutable tables. Each public method is one
 transaction: it leaves the service valid, which means that its tables are those of
 some run from the empty database, so every theorem about runs holds of a service.
 Each also says what its success gives the caller. The `Try` methods do the work.
 */
module AccountService {
  import opened Common
  import opened Accounts
  import opened AccountInvariants
  import opened AccountSteps
  import opened AccountRuns
  import opened AccountTheorems
  import opened AccountSeats
  import opened AccountEffects

  /** The outcome a caller sees agrees with a specification. */
  predicate Agrees(spec: Outcome, refused: Option<Refusal>, before: Database, after: Database) {
    match refused
    case None => spec == Ok(after)
    case Some(e) => spec == Err(e) && after == before
  }

  function Withdrawn(invitations: Invitations, workspaces: set<WorkspaceId>): Invitations {
    map d | d in invitations :: if invitations[d].workspace in workspaces then invitations[d].(used := true) else invitations[d]
  }

  /** Only unused invitations are written; writing the others would change nothing. */
  function SupersedeUnused(invitations: Invitations, workspace: WorkspaceId, email: Address): (r: Invitations)
    ensures r == Supersede(invitations, workspace, email)
  {
    map d | d in invitations ::
      if invitations[d].workspace == workspace && invitations[d].email == email && !invitations[d].used
      then invitations[d].(used := true) else invitations[d]
  }

  function WithdrawUnused(invitations: Invitations, w: WorkspaceId): Invitations {
    map d | d in invitations ::
      if invitations[d].workspace == w && !invitations[d].used then invitations[d].(used := true) else invitations[d]
  }

  function WithdrawPersonal(invitations: Invitations, user: UserId, email: Address): Invitations {
    map d | d in invitations ::
      if (invitations[d].inviter == user || invitations[d].email == email) && !invitations[d].used
      then invitations[d].(used := true) else invitations[d]
  }

  lemma WithdrawOneMore(invitations: Invitations, workspaces: set<WorkspaceId>, w: WorkspaceId)
    ensures Withdrawn(invitations, workspaces + {w}) == WithdrawUnused(Withdrawn(invitations, workspaces), w)
  {
  }

  lemma WithdrawBoth(invitations: Invitations, workspaces: set<WorkspaceId>, user: UserId, email: Address)
    ensures WithdrawPersonal(Withdrawn(invitations, workspaces), user, email) == WithdrawInvitations(invitations, workspaces, user, email)
  {
  }

  lemma OpenOneMore(closures: Closures, workspaces: set<WorkspaceId>, w: WorkspaceId, user: UserId, now: int, subscriptions: Subscriptions)
    ensures Opened(closures, workspaces + {w}, user, now, subscriptions)
      == Opened(closures, workspaces, user, now, subscriptions)[w := NewClosure(user, now, subscriptions, w)]
  {
  }

  function Opened(closures: Closures, workspaces: set<WorkspaceId>, user: UserId, now: int, subscriptions: Subscriptions): Closures {
    closures + (map w | w in workspaces :: NewClosure(user, now, subscriptions, w))
  }

  class Service {
    var clock: int
    var users: Users
    var creators: map<WorkspaceId, UserId>
    var seats: map<WorkspaceId, Seats>
    var members: Members
    var sessions: Sessions
    var tokens: Tokens
    var invitations: Invitations
    var closures: Closures
    var requests: Requests
    var inFlight: set<Read>
    var minted: set<Digest>
    /** Every transaction attempted so far, and every wait. */
    ghost var history: seq<Step>

    function Tables(): Database
      reads this
    {
      Database(clock, users, creators, seats, members, sessions, tokens, invitations, closures, requests, inFlight, minted)
    }

    /** The tables are those of a run from the empty database. */
    ghost predicate Valid()
      reads this
    {
      Tables() == Run(EMPTY, history)
    }

    /** The action was attempted from `before`, the refusal is the specified one, and the run goes on. */
    ghost predicate Performed(before: Database, past: seq<Step>, a: Action, refused: Option<Refusal>)
      reads this
    {
      Valid() && history == past + [Step(0, a)] && Agrees(Attempted(before, a), refused, before, Tables())
    }

    constructor ()
      ensures Valid() && Tables() == EMPTY && history == []
    {
      history := [];
      clock := 0;
      users, creators, seats, members := map[], map[], map[], map[];
      sessions, tokens, invitations, closures, requests := map[], map[], map[], map[], map[];
      inFlight, minted := {}, {};
    }

    // ---- sessions and tokens ----

    /** Uses up the user's earlier tokens of this purpose and adds a new one. */
    method Action(user: UserId, purpose: Purpose, token: Digest) returns (refused: Option<Refusal>)
      modifies this
      ensures history == old(history)
      ensures Agrees(IssueToken(old(Tables()), user, purpose, token), refused, old(Tables()), Tables())
    {
      if token in minted { return Some(Collision); }
      tokens := map d | d in tokens ::
        if tokens[d].user == user && tokens[d].purpose == purpose && !tokens[d].used then tokens[d].(used := true) else tokens[d];
      assert tokens == UseUp(old(tokens), user, purpose);
      var expires := clock + 1440 * MINUTE;
      if purpose == Reset { expires := clock + 30 * MINUTE; }
      tokens := tokens[token := ActionToken(user, purpose, expires, false)];
      minted := minted + {token};
      return None;
    }

    method Redeem(token: Digest, purpose: Purpose) returns (refused: Option<Refusal>)
      modifies this
      ensures history == old(history)
      ensures Agrees(Consume(old(Tables()), token, purpose), refused, old(Tables()), Tables())
    {
      if token !in tokens || tokens[token].purpose != purpose { return Some(TokenInvalid); }
      var user := tokens[token].user;
      if user !in users || users[user].closing { return Some(TokenInvalid); }
      if tokens[token].used || tokens[token].expires <= clock { return Some(TokenInvalid); }
      tokens := tokens[token := tokens[token].(used := true)];
      return None;
    }

    method TryResetPassword(token: Digest, hash: PasswordHash) returns (refused: Option<Refusal>)
      modifies this
      ensures history == old(history)
      ensures Agrees(Accounts.ResetPassword(old(Tables()), token, hash), refused, old(Tables()), Tables())
    {
      refused := Redeem(token, Reset);
      if refused.Some? { return; }
      var user := tokens[token].user;
      users := users[user := users[user].(hash := hash)];
      sessions := map d | d in sessions ::
        if sessions[d].user == user && !sessions[d].revoked then sessions[d].(revoked := true) else sessions[d];
      assert sessions == RevokeAll(old(sessions), user);
    }

    method AddSession(user: UserId, hash: PasswordHash, session: Digest, lifetime: nat) returns (refused: Option<Refusal>)
      modifies this
      ensures history == old(history)
      ensures Agrees(NewSession(old(Tables()), user, hash, session, lifetime), refused, old(Tables()), Tables())
    {
      if session in minted { return Some(Collision); }
      sessions := sessions[session := Session(user, clock + lifetime, false, hash)];
      minted := minted + {session};
      return None;
    }

    /** `verifiedHash` was read, and the password checked against it, before this transaction. */
    method TryLogin(user: UserId, verifiedHash: PasswordHash, session: Digest, lifetime: nat) returns (refused: Option<Refusal>)
      modifies this
      ensures history == old(history)
      ensures Agrees(Accounts.Login(old(Tables()), user, verifiedHash, session, lifetime), refused, old(Tables()), Tables())
    {
      if user !in users { return Some(NotFound); }
      var current := users[user];
      if current.hash != verifiedHash || current.closing { return Some(LoginInvalid); }
      refused := AddSession(user, verifiedHash, session, lifetime);
    }

    method TryRotate(user: UserId, readHash: PasswordHash, oldSession: Digest, session: Digest, lifetime: nat)
      returns (refused: Option<Refusal>)
      modifies this
      ensures history == old(history)
      ensures Agrees(Accounts.Rotate(old(Tables()), user, readHash, oldSession, session, lifetime), refused, old(Tables()), Tables())
    {
      if user !in users { return Some(NotFound); }
      if users[user].closing || users[user].hash != readHash { return Some(SessionExpired); }
      if oldSession !in sessions { return Some(NotFound); }
      var row := sessions[oldSession];
      if row.revoked || row.expires <= clock { return Some(SessionExpired); }
      sessions := sessions[oldSession := row.(revoked := true)];
      refused := AddSession(user, readHash, session, lifetime);
      if refused.Some? { sessions := sessions[oldSession := row]; }
    }

    method TrySignup(user: UserId, email: Address, hash: PasswordHash, token: Digest) returns (refused: Option<Refusal>)
      modifies this
      ensures history == old(history)
      ensures Agrees(Accounts.Signup(old(Tables()), user, email, hash, token), refused, old(Tables()), Tables())
    {
      if AddressTaken(users, email) { return None; }
      if user in users { return Some(Collision); }
      ghost var before := Tables();
      var earlier := users;
      users := users[user := User(email, hash, false, false)];
      refused := Action(user, Verify, token);
      if refused.Some? { users := earlier; }
    }

    method TryVerifyEmail(token: Digest) returns (refused: Option<Refusal>)
      modifies this
      ensures history == old(history)
      ensures Agrees(Accounts.VerifyEmail(old(Tables()), token), refused, old(Tables()), Tables())
    {
      refused := Redeem(token, Verify);
      if refused.Some? { return; }
      var user := tokens[token].user;
      users := users[user := users[user].(verified := true)];
    }

    method TryForgotPassword(user: UserId, token: Digest) returns (refused: Option<Refusal>)
      modifies this
      ensures history == old(history)
      ensures Agrees(Accounts.ForgotPassword(old(Tables()), user, token), refused, old(Tables()), Tables())
    {
      refused := None;
      if user in users && !users[user].closing { refused := Action(user, Reset, token); }
    }

    method TryResendVerification(user: UserId, token: Digest) returns (refused: Option<Refusal>)
      modifies this
      ensures history == old(history)
      ensures Agrees(Accounts.ResendVerification(old(Tables()), user, token), refused, old(Tables()), Tables())
    {
      refused := None;
      if user in users && !users[user].closing && !users[user].verified { refused := Action(user, Verify, token); }
    }

    method TryLogout(session: Digest)
      modifies this
      ensures history == old(history)
      ensures Accounts.Logout(old(Tables()), session) == Ok(Tables())
    {
      if session in sessions && !sessions[session].revoked {
        sessions := sessions[session := sessions[session].(revoked := true)];
      }
      assert session in old(sessions) ==> sessions == old(sessions)[session := old(sessions)[session].(revoked := true)];
    }

    method TryRevokeSession(user: UserId, session: Digest, listed: bool) returns (refused: Option<Refusal>)
      modifies this
      ensures history == old(history)
      ensures Agrees(Accounts.RevokeSession(old(Tables()), user, session, listed), refused, old(Tables()), Tables())
    {
      if user !in users { return Some(NotFound); }
      if users[user].closing { return Some(SessionExpired); }
      if session !in sessions || sessions[session].user != user || sessions[session].revoked || sessions[session].expires <= clock || !listed {
        return Some(SessionNotFound);
      }
      sessions := sessions[session := sessions[session].(revoked := true)];
      return None;
    }

    method TryAuthenticate(session: Digest) returns (refused: Option<Refusal>, read: Read)
      modifies this
      ensures history == old(history)
      ensures Agrees(Accounts.Authenticate(old(Tables()), session), refused, old(Tables()), Tables())
      ensures refused.None? ==> session in sessions && sessions[session].user in users
      ensures refused.None? ==> read == Read(sessions[session].user, users[sessions[session].user].email)
    {
      read := Read(0, Mailbox(0));
      if session !in sessions || sessions[session].revoked || sessions[session].expires <= clock { return Some(SessionExpired), read; }
      var user := sessions[session].user;
      if user !in users || !users[user].verified || users[user].closing { return Some(SessionExpired), read; }
      read := Read(user, users[user].email);
      inFlight := inFlight + {read};
      refused := None;
    }

    method TryChangePlan(workspace: WorkspaceId, newSeats: Seats) returns (refused: Option<Refusal>)
      modifies this
      ensures history == old(history)
      ensures Agrees(Accounts.ChangePlan(old(Tables()), workspace, newSeats), refused, old(Tables()), Tables())
    {
      if workspace !in creators { return Some(NotFound); }
      seats := seats[workspace := newSeats];
      return None;
    }

    // ---- workspaces and members ----

    method TryCreateWorkspace(user: UserId, workspace: WorkspaceId, freeSeats: Seats) returns (refused: Option<Refusal>)
      modifies this
      ensures history == old(history)
      ensures Agrees(Accounts.CreateWorkspace(old(Tables()), user, workspace, freeSeats), refused, old(Tables()), Tables())
    {
      if user !in users { return Some(NotFound); }
      if users[user].closing { return Some(SessionExpired); }
      var owned := set w | w in creators && creators[w] == user;
      assert owned == CreatedBy(creators, user);
      if |owned| >= 5 { return Some(WorkspaceLimit); }
      if workspace in creators { return Some(Collision); }
      creators := creators[workspace := user];
      seats := seats[workspace := freeSeats];
      members := members[(workspace, user) := Owner];
      return None;
    }

    /** The plan's allowance, or why there is none. */
    method SeatLimit(workspace: WorkspaceId, paid: bool) returns (allowance: Result<Seats, Refusal>)
      ensures allowance == (if workspace !in creators || workspace !in seats then Err(NotFound)
                            else if !paid then Err(SubscriptionInactive) else Ok(seats[workspace]))
    {
      if workspace !in creators || workspace !in seats { return Err(NotFound); }
      if !paid { return Err(SubscriptionInactive); }
      return Ok(seats[workspace]);
    }

    method TryInvite(actor: UserId, workspace: WorkspaceId, email: Address, role: Role, invitation: Digest, paid: bool)
      returns (refused: Option<Refusal>)
      modifies this
      ensures history == old(history)
      ensures Agrees(Accounts.Invite(old(Tables()), actor, workspace, email, role, invitation, paid), refused, old(Tables()), Tables())
    {
      hide MembersOf, LiveForOthers, MemberAddress, IsActiveOwner, Suppressed, Supersede;
      if role == Owner { return Some(RoleForbidden); }
      var allowance := SeatLimit(workspace, paid);
      if allowance.Err? { return Some(allowance.error); }
      if !IsActiveOwner(Tables(), actor, workspace) { return Some(RoleForbidden); }
      if MemberAddress(Tables(), workspace, email) { return Some(AlreadyMember); }
      var memberCount := |MembersOf(members, workspace)|;
      var pending := |LiveForOthers(invitations, workspace, clock, email)|;
      if memberCount + pending >= allowance.value { return Some(SeatsExhausted); }
      if invitation in minted { return Some(Collision); }
      var next := SupersedeUnused(invitations, workspace, email);
      next := next[invitation := Invitation(workspace, actor, email, role, clock + 7 * DAY, false)];
      if Suppressed(Tables(), email) { return Some(InvitationUnavailable); }
      invitations, minted := next, minted + {invitation};
      return None;
    }

    method TryAccept(read: Read, invitation: Digest, paid: bool) returns (refused: Option<Refusal>)
      modifies this
      ensures history == old(history)
      ensures Agrees(Accounts.Accept(old(Tables()), read, invitation, paid), refused, old(Tables()), Tables())
    {
      if invitation !in invitations || invitations[invitation].email != read.email { return Some(TokenInvalid); }
      var invite := invitations[invitation];
      var allowance := SeatLimit(invite.workspace, paid);
      if allowance.Err? { return Some(allowance.error); }
      if invite.used || invite.expires <= clock { return Some(TokenInvalid); }
      if !IsActiveOwner(Tables(), invite.inviter, invite.workspace) { return Some(InvitationRevoked); }
      if (invite.workspace, read.user) in members { return Some(AlreadyMember); }
      if |MembersOf(members, invite.workspace)| >= allowance.value { return Some(SeatsExhausted); }
      members := members[(invite.workspace, read.user) := invite.role];
      invitations := invitations[invitation := invite.(used := true)];
      return None;
    }

    method TryChangeMember(actor: UserId, workspace: WorkspaceId, target: UserId, role: Option<Role>) returns (refused: Option<Refusal>)
      modifies this
      ensures history == old(history)
      ensures Agrees(Accounts.ChangeMember(old(Tables()), actor, workspace, target, role), refused, old(Tables()), Tables())
    {
      if role == Some(Owner) { return Some(RoleForbidden); }
      if workspace !in creators { return Some(NotFound); }
      if !IsActiveOwner(Tables(), actor, workspace) { return Some(RoleForbidden); }
      if (workspace, target) !in members { return Some(MemberNotFound); }
      if members[(workspace, target)] == Owner || target == actor { return Some(OwnerProtected); }
      if role.None? {
        members := members - {(workspace, target)};
      } else {
        members := members[(workspace, target) := role.value];
      }
      return None;
    }

    method TryTransferOwnership(actor: UserId, workspace: WorkspaceId, successor: UserId, passwordOk: bool)
      returns (refused: Option<Refusal>)
      modifies this
      ensures history == old(history)
      ensures Agrees(Accounts.TransferOwnership(old(Tables()), actor, workspace, successor, passwordOk), refused, old(Tables()), Tables())
    {
      if successor == actor { return Some(SuccessorInvalid); }
      if actor !in users || users[actor].closing { return Some(SessionExpired); }
      if !passwordOk { return Some(PasswordInvalid); }
      if successor !in users || users[successor].closing || !users[successor].verified { return Some(SuccessorInvalid); }
      if workspace !in creators { return Some(NotFound); }
      if workspace in closures { return Some(WorkspaceClosing); }
      if !IsActiveOwner(Tables(), actor, workspace) { return Some(RoleForbidden); }
      if (workspace, successor) !in members { return Some(SuccessorInvalid); }
      members := members[(workspace, successor) := Owner];
      members := members[(workspace, actor) := Admin];
      return None;
    }

    // ---- closing an account ----

    /** Writes everything an accepted departure changes. */
    method Depart(user: UserId, subscriptions: Subscriptions, newClosures: Closures, newInvitations: Invitations)
      requires user in users
      requires newClosures == Opened(closures, ClosingSet(Tables(), user), user, clock, subscriptions)
      requires newInvitations == Withdrawn(invitations, ClosingSet(Tables(), user))
      modifies this
      ensures history == old(history)
      ensures Tables() == Closing(old(Tables()), user, subscriptions)
    {
      hide ClosingSet, RevokeAll, UseAll, WithoutMember, WithdrawInvitations, WithdrawPersonal, Withdrawn;
      ghost var db := Tables();
      var current := users[user];
      closures := newClosures;
      users := users[user := current.(closing := true)];
      sessions := RevokeAll(sessions, user);
      tokens := UseAll(tokens, user);
      invitations := WithdrawPersonal(newInvitations, user, current.email);
      WithdrawBoth(db.invitations, ClosingSet(db, user), user, current.email);
      members := WithoutMember(members, user);
      requests := requests[user := DeletionRequest(Requested, clock, current.email, None, None, None)];
    }

    method TryRequestDeletion(user: UserId, readHash: PasswordHash, subscriptions: Subscriptions) returns (refused: Option<Refusal>)
      modifies this
      ensures history == old(history)
      ensures Agrees(Accounts.RequestDeletion(old(Tables()), user, readHash, subscriptions), refused, old(Tables()), Tables())
    {
      hide ClosingBlocked, ClosingSet, Closing, Opened, Withdrawn, WorkspacesOf, ClosingRefusal;
      if user !in users { return Some(NotFound); }
      if users[user].hash != readHash || users[user].closing { return Some(SessionExpired); }
      if |WorkspacesOf(members, user)| > 1000 { return Some(OffboardingReviewRequired); }
      var why, newClosures, newInvitations := CloseWorkspaces(Tables(), user, subscriptions);
      if why.Some? { return why; }
      if user in requests { return Some(Collision); }
      Depart(user, subscriptions, newClosures, newInvitations);
      return None;
    }

    // ---- billing closures ----

    /** One attempt to close a workspace's billing, given the provider's answers to it. */
    method TryCloseBilling(workspace: WorkspaceId, local: Option<Subscription>, p: Provider)
      requires ClosureDue(Tables(), workspace)
      modifies this
      ensures history == old(history)
      ensures CloseBilling(old(Tables()), workspace, local, p) == Ok(Tables())
    {
      var c := closures[workspace];
      var state, proof, failed := Closed, c.proof, false;
      if c.customer.Some? && c.subscription.None? {
        failed := true;
      } else if c.subscription.Some? {
        if local.None? || local.value.subscription != c.subscription || local.value.customer != c.customer {
          failed := true;
        } else if !Usable(p.first, workspace, c, p.liveMode) {
          failed := true;
        } else if Ended(p.first.value.status) {
          proof := p.first;
        } else if !p.first.value.ending && !Usable(p.cancelled, workspace, c, p.liveMode) {
          failed := true;
        } else if !Usable(p.second, workspace, c, p.liveMode) {
          failed := true;
        } else if !p.second.value.ending && p.second.value.status != Canceled {
          failed := true;
        } else if p.second.value.status == Canceled {
          proof := p.second;
        } else {
          state := Scheduled;
        }
      }
      var attempts, wait := 0, 3600;
      if failed {
        attempts := c.attempts + 1;
        state := if attempts >= 5 then Failed else Pending;
        proof := c.proof;
        wait := 30 * Pow2(attempts);
        if wait > 3600 { wait := 3600; }
      }
      closures := closures[workspace := c.(state := state, attempts := attempts, availableAt := clock + wait * SECOND, proof := proof)];
    }

    method TryReviewBillingClosure(
      workspace: WorkspaceId, reviewer: bool, retry: bool, reference: bool, local: Option<Subscription>, eventsOpen: bool)
      returns (refused: Option<Refusal>)
      modifies this
      ensures history == old(history)
      ensures Agrees(ReviewClosure(old(Tables()), workspace, reviewer, retry, reference, local, eventsOpen), refused, old(Tables()), Tables())
    {
      if !reviewer { return Some(BillingReviewRequired); }
      if workspace !in closures { return Some(ClosureNotFound); }
      var c := closures[workspace];
      if retry {
        if c.state != Failed { return Some(ClosureNotFailed); }
        closures := closures[workspace := c.(state := Pending, attempts := 0, availableAt := clock)];
        return None;
      }
      if !reference { return Some(BillingReviewRequired); }
      if c.subscription.Some? || (local.Some? && local.value.subscription.Some?) { return Some(ProviderClosureRequired); }
      if local.Some? && local.value.checkoutUntil.Some? && local.value.checkoutUntil.value > clock { return Some(CheckoutPending); }
      if c.customer.Some? && eventsOpen { return Some(ReconciliationRequired); }
      closures := closures[workspace := c.(state := Closed)];
      return None;
    }

    /** Looks at the user's closures in workspace order and reports the first that is not settled. */
    method RequireClosedBilling(user: UserId, b: Billing) returns (refused: Option<Refusal>)
      ensures refused == BillingRefusal(closures, user, b)
    {
      hide UnsettledBecause;
      var pending := set w | w in closures && closures[w].requestedBy == user;
      while pending != {}
        invariant forall w :: w in pending ==> w in closures && closures[w].requestedBy == user
        invariant Unsettled(closures, user, b) <= pending
        decreases |pending|
      {
        var w := Smallest(pending);
        refused := UnsettledBecause(w, closures[w], b);
        if refused.Some? {
          SmallestOfSubset(w, pending, Unsettled(closures, user, b));
          return;
        }
        pending := pending - {w};
      }
      return None;
    }

    // ---- review and erasure ----

    method TryReviewDeletion(user: UserId, policy: Option<Policy>, attested: bool, b: Billing) returns (refused: Option<Refusal>)
      modifies this
      ensures history == old(history)
      ensures Agrees(ReviewRequest(old(Tables()), user, policy, attested, b), refused, old(Tables()), Tables())
    {
      hide BillingRefusal;
      if policy.None? { return Some(PolicyUnapproved); }
      if !attested { return Some(RetentionReviewRequired); }
      if user !in users || user !in requests { return Some(DeletionNotFound); }
      var q := requests[user];
      if q.state == Erased { return None; }
      var why := RequireClosedBilling(user, b);
      if why.Some? { return why; }
      requests := requests[user :=
        q.(state := Reviewed, policy := policy, erasureAfter := Some(q.requestedAt + policy.value.retentionDays * DAY))];
      return None;
    }

    /** Everything that must hold before personal data may be erased. */
    method CheckErasure(user: UserId, policy: Policy, b: Billing, a: Activity) returns (refused: Option<Refusal>)
      requires Inv(Tables()) && user in requests
      ensures refused == ErasureRefusal(Tables(), user, policy, b, a)
      ensures refused.None? ==> MayBeErased(Tables(), user)
    {
      hide BillingRefusal, Inv, MayBeErased;
      var q := requests[user];
      if q.state != Reviewed || q.policy != Some(policy) || q.erasureAfter.None? { return Some(RetentionReviewRequired); }
      if q.erasureAfter.value > clock { return Some(RetentionNotElapsed); }
      refused := RequireClosedBilling(user, b);
      if refused.Some? { return; }
      if a.research { return Some(ResearchActive); }
      if a.email { return Some(EmailActive); }
      if a.legacyEmail { return Some(LegacyEmail); }
      if exists u :: u in users && u != user && users[u].email == Tombstone(user) { return Some(Collision); }
      CheckedMayBeErased(Tables(), user, policy, b, a);
      return None;
    }

    method Erase(user: UserId)
      requires user in users && user in requests
      modifies this
      ensures history == old(history)
      ensures Tables() == Erasing(old(Tables()), user)
    {
      hide SessionsWithout, TokensWithout, InvitationsWithout, ReadsWithout, WithoutMember;
      var current, request := users[user], requests[user];
      tokens := TokensWithout(tokens, user);
      sessions := SessionsWithout(sessions, user);
      invitations := InvitationsWithout(invitations, user, current.email);
      members := WithoutMember(members, user);
      users := users[user := User(Tombstone(user), DISABLED, false, true)];
      requests := requests[user := request.(state := Erased, erasedAt := Some(clock))];
      inFlight := ReadsWithout(inFlight, user);
    }

    method TryFulfilRequest(user: UserId, policy: Option<Policy>, b: Billing, a: Activity) returns (refused: Option<Refusal>)
      requires Inv(Tables())
      modifies this
      ensures history == old(history)
      ensures Agrees(Fulfil(old(Tables()), user, policy, b, a), refused, old(Tables()), Tables())
    {
      hide ErasureRefusal, Erasing, Inv, MayBeErased;
      if policy.None? { return Some(PolicyUnapproved); }
      if user !in users || user !in requests { return Some(DeletionNotFound); }
      if requests[user].state == Erased { return None; }
      refused := CheckErasure(user, policy.value, b, a);
      if refused.Some? { return; }
      Erase(user);
    }

    // ---- what holds of every service ----

    /** The table invariant holds between any two calls. */
    lemma KeepsInvariant()
      requires Valid()
      ensures Inv(Tables())
    {
      Reachable(history);
    }

    /** Whoever has left stays without power, whatever was called since. */
    lemma KeepsOut(user: UserId)
      requires Valid() && user in requests
      ensures Powerless(Tables(), user)
    {
      hide Run, Inv;
      Reachable(history);
      DepartedIsPowerless(Tables(), user);
    }

    // ---- the transactions as callers see them ----

    /** Time passes. */
    method Wait(tick: nat)
      requires Valid()
      modifies this
      ensures Valid() && Tables() == Later(old(Tables()), tick)
    {
      hide Run;
      RunOne(EMPTY, history, Step(tick, Waiting));
      clock := clock + tick;
      history := history + [Step(tick, Waiting)];
    }

    /** Also when it reports nothing: an existing address leaves no trace. */
    method Signup(user: UserId, email: Address, hash: PasswordHash, token: Digest) returns (refused: Option<Refusal>)
      requires Valid()
      modifies this
      ensures Performed(old(Tables()), old(history), SigningUp(user, email, hash, token), refused)
      ensures refused.None? ==> AddressTaken(users, email)
      ensures forall u :: u in old(users) ==> u in users && users[u] == old(users)[u]
    {
      hide Run, Inv, AddressTaken, Accounts.Signup;
      Reachable(history);
      ghost var before := Tables();
      refused := TrySignup(user, email, hash, token);
      Recorded(history, SigningUp(user, email, hash, token), refused, before, Tables());
      history := history + [Step(0, SigningUp(user, email, hash, token))];
      if refused.None? { SignupRegisters(before, user, email, hash, token); }
    }

    method VerifyEmail(token: Digest) returns (refused: Option<Refusal>)
      requires Valid()
      modifies this
      ensures Performed(old(Tables()), old(history), Verifying(token), refused)
      ensures refused.None? ==> token in old(tokens) && old(tokens)[token].user in users && users[old(tokens)[token].user].verified
      ensures refused.None? ==> NeverRedeemable(Tables(), token)
    {
      hide Run, Inv, NeverRedeemable, Accounts.VerifyEmail;
      Reachable(history);
      ghost var before := Tables();
      refused := TryVerifyEmail(token);
      Recorded(history, Verifying(token), refused, before, Tables());
      history := history + [Step(0, Verifying(token))];
      if refused.None? { VerifyingSpends(before, token); }
    }

    /** A session is issued only under the password that is current when it is issued. */
    method Login(user: UserId, verifiedHash: PasswordHash, session: Digest, lifetime: nat) returns (refused: Option<Refusal>)
      requires Valid()
      modifies this
      ensures Performed(old(Tables()), old(history), LoggingIn(user, verifiedHash, session, lifetime), refused)
      ensures refused.None? ==> OpenSession(Tables(), session, user) && sessions[session].expires == clock + lifetime
      ensures refused.None? ==> user in users && users[user].hash == verifiedHash
    {
      hide Run, Inv, OpenSession, Accounts.Login, Attempted;
      Reachable(history);
      ghost var before := Tables();
      LoginIs(before, user, verifiedHash, session, lifetime);
      refused := TryLogin(user, verifiedHash, session, lifetime);
      Recorded(history, LoggingIn(user, verifiedHash, session, lifetime), refused, before, Tables());
      history := history + [Step(0, LoggingIn(user, verifiedHash, session, lifetime))];
      if refused.None? { LoginOpens(before, user, verifiedHash, session, lifetime); }
    }

    /** The new session replaces the old one: never both, never neither. */
    method Rotate(user: UserId, readHash: PasswordHash, oldSession: Digest, session: Digest, lifetime: nat)
      returns (refused: Option<Refusal>)
      requires Valid()
      modifies this
      ensures Performed(old(Tables()), old(history), Rotating(user, readHash, oldSession, session, lifetime), refused)
      ensures refused.None? ==> OpenSession(Tables(), session, user) && sessions[session].expires == clock + lifetime
      ensures refused.None? ==> oldSession in sessions && sessions[oldSession].revoked
    {
      hide Run, Inv, Accounts.Rotate, OpenSession, Attempted;
      Reachable(history);
      ghost var before := Tables();
      RotateIs(before, user, readHash, oldSession, session, lifetime);
      refused := TryRotate(user, readHash, oldSession, session, lifetime);
      Recorded(history, Rotating(user, readHash, oldSession, session, lifetime), refused, before, Tables());
      history := history + [Step(0, Rotating(user, readHash, oldSession, session, lifetime))];
      if refused.None? { RotateMoves(before, user, readHash, oldSession, session, lifetime); }
    }

    method ForgotPassword(user: UserId, token: Digest) returns (refused: Option<Refusal>)
      requires Valid()
      modifies this
      ensures Performed(old(Tables()), old(history), Forgetting(user, token), refused)
      ensures refused.None? && token !in old(minted) ==> NewestToken(Tables(), token, 30)
    {
      hide Run, Inv, NewestToken, Accounts.ForgotPassword, Accounts.ResendVerification, Attempted;
      Reachable(history);
      ghost var before := Tables();
      RequestIs(before, user, token);
      refused := TryForgotPassword(user, token);
      Recorded(history, Forgetting(user, token), refused, before, Tables());
      history := history + [Step(0, Forgetting(user, token))];
      InvMinted(before);
      if refused.None? && token !in before.minted { ForgettingIssues(before, user, token); }
    }

    method ResendVerification(user: UserId, token: Digest) returns (refused: Option<Refusal>)
      requires Valid()
      modifies this
      ensures Performed(old(Tables()), old(history), Resending(user, token), refused)
      ensures refused.None? && token !in old(minted) ==> NewestToken(Tables(), token, 1440)
    {
      hide Run, Inv, NewestToken, Accounts.ForgotPassword, Accounts.ResendVerification, Attempted;
      Reachable(history);
      ghost var before := Tables();
      RequestIs(before, user, token);
      refused := TryResendVerification(user, token);
      Recorded(history, Resending(user, token), refused, before, Tables());
      history := history + [Step(0, Resending(user, token))];
      InvMinted(before);
      if refused.None? && token !in before.minted { ResendingIssues(before, user, token); }
    }

    /** The link is spent, the password replaced, and every session opened under the old one is dead. */
    method ResetPassword(token: Digest, hash: PasswordHash) returns (refused: Option<Refusal>)
      requires Valid()
      modifies this
      ensures Performed(old(Tables()), old(history), Resetting(token, hash), refused)
      ensures refused.None? ==> token in old(tokens) && old(tokens)[token].user in users && users[old(tokens)[token].user].hash == hash
      ensures refused.None? ==> AllRevoked(Tables(), old(tokens)[token].user) && NeverRedeemable(Tables(), token)
    {
      hide Run, Inv, NeverRedeemable, AllRevoked, Accounts.ResetPassword;
      Reachable(history);
      ghost var before := Tables();
      refused := TryResetPassword(token, hash);
      Recorded(history, Resetting(token, hash), refused, before, Tables());
      history := history + [Step(0, Resetting(token, hash))];
      if refused.None? { ResettingLocksOut(before, token, hash); }
    }

    method Logout(session: Digest) returns (refused: Option<Refusal>)
      requires Valid()
      modifies this
      ensures Performed(old(Tables()), old(history), LoggingOut(session), refused)
      ensures refused.None? && (session in sessions ==> sessions[session].revoked)
    {
      hide Run, Inv;
      Reachable(history);
      ghost var before := Tables();
      TryLogout(session);
      refused := None;
      Recorded(history, LoggingOut(session), refused, before, Tables());
      history := history + [Step(0, LoggingOut(session))];
    }

    method RevokeSession(user: UserId, session: Digest, listed: bool) returns (refused: Option<Refusal>)
      requires Valid()
      modifies this
      ensures Performed(old(Tables()), old(history), Revoking(user, session, listed), refused)
      ensures refused.None? ==> session in sessions && sessions[session].user == user && sessions[session].revoked
    {
      hide Run, Inv;
      Reachable(history);
      ghost var before := Tables();
      refused := TryRevokeSession(user, session, listed);
      Recorded(history, Revoking(user, session, listed), refused, before, Tables());
      history := history + [Step(0, Revoking(user, session, listed))];
    }

    /** The read it returns may be used by a later transaction, unless its user is erased first. */
    method Authenticate(session: Digest) returns (refused: Option<Refusal>, read: Read)
      requires Valid()
      modifies this
      ensures Performed(old(Tables()), old(history), Authenticating(session), refused)
      ensures refused.None? ==> read in inFlight && OpenSession(Tables(), session, read.user) && users[read.user].email == read.email
    {
      hide Run, Inv;
      Reachable(history);
      ghost var before := Tables();
      refused, read := TryAuthenticate(session);
      Recorded(history, Authenticating(session), refused, before, Tables());
      history := history + [Step(0, Authenticating(session))];
      if refused.None? { InvSession(before, session); }
    }

    /** The creator is the only member and the only owner, of at most five workspaces created. */
    method CreateWorkspace(user: UserId, workspace: WorkspaceId, freeSeats: Seats) returns (refused: Option<Refusal>)
      requires Valid()
      modifies this
      ensures Performed(old(Tables()), old(history), Creating(user, workspace, freeSeats), refused)
      ensures refused.None? ==> SoleActiveOwner(Tables(), workspace, user) && MembersOf(members, workspace) == {(workspace, user)}
      ensures refused.None? ==> |CreatedBy(creators, user)| <= 5
    {
      hide Run, Inv, SoleActiveOwner, MembersOf, CreatedBy, Accounts.CreateWorkspace, Attempted;
      Reachable(history);
      ghost var before := Tables();
      CreateIs(before, user, workspace, freeSeats);
      refused := TryCreateWorkspace(user, workspace, freeSeats);
      Recorded(history, Creating(user, workspace, freeSeats), refused, before, Tables());
      history := history + [Step(0, Creating(user, workspace, freeSeats))];
      if refused.None? { CreatingOwns(before, user, workspace, freeSeats); }
    }

    method ChangePlan(workspace: WorkspaceId, newSeats: Seats) returns (refused: Option<Refusal>)
      requires Valid()
      modifies this
      ensures Performed(old(Tables()), old(history), Replanning(workspace, newSeats), refused)
      ensures refused.None? ==> workspace in seats && seats[workspace] == newSeats
      ensures refused.None? && old(Fits(Tables(), workspace)) && workspace in old(seats) && old(seats)[workspace] <= newSeats ==>
        Fits(Tables(), workspace)
    {
      hide Run, Inv;
      Reachable(history);
      ghost var before := Tables();
      refused := TryChangePlan(workspace, newSeats);
      Recorded(history, Replanning(workspace, newSeats), refused, before, Tables());
      history := history + [Step(0, Replanning(workspace, newSeats))];
    }

    /** A seat is reserved, and this is the address's only unused invitation to the workspace. */
    method Invite(actor: UserId, workspace: WorkspaceId, email: Address, role: Role, invitation: Digest, paid: bool)
      returns (refused: Option<Refusal>)
      requires Valid()
      modifies this
      ensures Performed(old(Tables()), old(history), Inviting(actor, workspace, email, role, invitation, paid), refused)
      ensures refused.None? ==> Fits(Tables(), workspace) && SoleInvitation(Tables(), workspace, email, invitation)
      ensures refused.None? ==> !MemberAddress(Tables(), workspace, email) && SoleActiveOwner(Tables(), workspace, actor)
    {
      hide Run, Inv, Fits, SoleInvitation, SoleActiveOwner, MemberAddress, Accounts.Invite, Attempted;
      Reachable(history);
      ghost var before := Tables();
      InviteIs(before, actor, workspace, email, role, invitation, paid);
      refused := TryInvite(actor, workspace, email, role, invitation, paid);
      Recorded(history, Inviting(actor, workspace, email, role, invitation, paid), refused, before, Tables());
      history := history + [Step(0, Inviting(actor, workspace, email, role, invitation, paid))];
      if refused.None? { InvitingReserves(before, actor, workspace, email, role, invitation, paid); }
    }

    /** The reader joins with the invited role; while seats were respected they still are, and were no reason to refuse. */
    method Accept(read: Read, invitation: Digest, paid: bool) returns (refused: Option<Refusal>)
      requires Valid()
      modifies this
      ensures Performed(old(Tables()), old(history), Accepting(read, invitation, paid), refused)
      ensures refused.None? ==> invitation in old(invitations) && Joined(Tables(), old(invitations)[invitation], read.user)
      ensures invitation in old(invitations) && old(Fits(Tables(), invitations[invitation].workspace)) ==>
        refused != Some(SeatsExhausted) && Fits(Tables(), old(invitations)[invitation].workspace)
    {
      hide Run, Inv, Fits, Joined, Accounts.Accept, Attempted;
      Reachable(history);
      ghost var before := Tables();
      AcceptIs(before, read, invitation, paid);
      if read in inFlight { refused := TryAccept(read, invitation, paid); } else { refused := Some(SessionExpired); }
      Recorded(history, Accepting(read, invitation, paid), refused, before, Tables());
      history := history + [Step(0, Accepting(read, invitation, paid))];
      if refused.None? { AcceptingJoins(before, read, invitation, paid); }
      if invitation in before.invitations && Fits(before, before.invitations[invitation].workspace) {
        LiveHasSeat(before, read, invitation, paid);
      }
    }

    /** Ownership never changes here, and nobody else's membership does. */
    method ChangeMember(actor: UserId, workspace: WorkspaceId, target: UserId, role: Option<Role>) returns (refused: Option<Refusal>)
      requires Valid()
      modifies this
      ensures Performed(old(Tables()), old(history), Changing(actor, workspace, target, role), refused)
      ensures refused.None? ==> old(SoleActiveOwner(Tables(), workspace, actor)) && SoleActiveOwner(Tables(), workspace, actor)
      ensures refused.None? ==> OnlyMembershipChanged(old(members), members, (workspace, target))
      ensures refused.None? ==> (role.None? <==> (workspace, target) !in members) && (role.Some? ==> members[(workspace, target)] == role.value)
    {
      hide Run, Inv, SoleActiveOwner, OnlyMembershipChanged, Accounts.ChangeMember, Attempted;
      Reachable(history);
      ghost var before := Tables();
      ChangeIs(before, actor, workspace, target, role);
      refused := TryChangeMember(actor, workspace, target, role);
      Recorded(history, Changing(actor, workspace, target, role), refused, before, Tables());
      history := history + [Step(0, Changing(actor, workspace, target, role))];
      if refused.None? { ChangingKeepsOwner(before, actor, workspace, target, role); }
    }

    /** The sole owner hands over to a verified member, who is then the sole owner; nobody joins or leaves. */
    method TransferOwnership(actor: UserId, workspace: WorkspaceId, successor: UserId, passwordOk: bool) returns (refused: Option<Refusal>)
      requires Valid()
      modifies this
      ensures Performed(old(Tables()), old(history), Transferring(actor, workspace, successor, passwordOk), refused)
      ensures refused.None? ==> old(SoleActiveOwner(Tables(), workspace, actor)) && SoleActiveOwner(Tables(), workspace, successor)
      ensures refused.None? ==> users[successor].verified && members.Keys == old(members).Keys && members[(workspace, actor)] == Admin
    {
      hide Run, Inv, SoleActiveOwner, Accounts.TransferOwnership, Attempted;
      Reachable(history);
      ghost var before := Tables();
      TransferIs(before, actor, workspace, successor, passwordOk);
      refused := TryTransferOwnership(actor, workspace, successor, passwordOk);
      Recorded(history, Transferring(actor, workspace, successor, passwordOk), refused, before, Tables());
      history := history + [Step(0, Transferring(actor, workspace, successor, passwordOk))];
      if refused.None? { TransferringHandsOver(before, actor, workspace, successor, passwordOk); }
    }

    /** Nothing of the account stays usable, its workspaces close empty, and no row is in the way. */
    method RequestDeletion(user: UserId, readHash: PasswordHash, subscriptions: Subscriptions) returns (refused: Option<Refusal>)
      requires Valid()
      modifies this
      ensures Performed(old(Tables()), old(history), Leaving(user, readHash, subscriptions), refused)
      ensures refused.None? ==> Powerless(Tables(), user) && user in old(users) && NoPendingTo(Tables(), old(users)[user].email)
      ensures refused.None? ==> OwnedAreClosed(old(Tables()), Tables(), user)
      ensures refused != Some(Collision)
    {
      hide Run, Inv, Powerless, NoPendingTo, OwnedAreClosed, Accounts.RequestDeletion;
      Reachable(history);
      ghost var before := Tables();
      refused := TryRequestDeletion(user, readHash, subscriptions);
      NoCollision(before, user, readHash, subscriptions);
      Recorded(history, Leaving(user, readHash, subscriptions), refused, before, Tables());
      history := history + [Step(0, Leaving(user, readHash, subscriptions))];
      if refused.None? { LeavingCloses(before, user, readHash, subscriptions); }
    }

    /** Attempts the closure that has been due longest; nothing is processed exactly when none is due. */
    method CloseBillingOnce(local: Subscriptions, ask: WorkspaceId -> Provider) returns (processed: Option<WorkspaceId>)
      requires Valid()
      modifies this
      ensures match processed
        case None => Valid() && Tables() == old(Tables()) && forall w :: w in closures ==> !ClosureDue(Tables(), w)
        case Some(w) =>
          && Performed(old(Tables()), old(history), ClosingBilling(w, LocalOf(local, w), ask(w)), None) && FirstDue(old(Tables()), w)
          && ClosureHandled(old(closures), closures, w) && closures[w].availableAt > clock
          && (closures[w].state == Failed <==> closures[w].attempts == 5)
    {
      hide Run, Inv, ClosureHandled, CloseBilling;
      Reachable(history);
      ghost var before := Tables();
      processed := NextDue(Tables());
      if processed.None? { return; }
      var w := processed.value;
      TryCloseBilling(w, LocalOf(local, w), ask(w));
      Recorded(history, ClosingBilling(w, LocalOf(local, w), ask(w)), None, before, Tables());
      history := history + [Step(0, ClosingBilling(w, LocalOf(local, w), ask(w)))];
      BillingHandled(before, w, LocalOf(local, w), ask(w));
    }

    /** Review reopens only failures and closes only what has no known subscription. */
    method ReviewBillingClosure(workspace: WorkspaceId, reviewer: bool, retry: bool, reference: bool, local: Option<Subscription>, eventsOpen: bool)
      returns (refused: Option<Refusal>)
      requires Valid()
      modifies this
      ensures Performed(old(Tables()), old(history), ReviewingClosure(workspace, reviewer, retry, reference, local, eventsOpen), refused)
      ensures refused.None? ==> ClosureHandled(old(closures), closures, workspace)
      ensures refused.None? && retry ==> old(closures)[workspace].state == Failed && ClosureDue(Tables(), workspace)
      ensures refused.None? && !retry ==> closures[workspace].state == Closed && closures[workspace].subscription.None?
    {
      hide Run, Inv, ClosureHandled, ReviewClosure, Attempted;
      Reachable(history);
      ghost var before := Tables();
      ReviewIs(before, workspace, reviewer, retry, reference, local, eventsOpen);
      refused := TryReviewBillingClosure(workspace, reviewer, retry, reference, local, eventsOpen);
      ghost var action := ReviewingClosure(workspace, reviewer, retry, reference, local, eventsOpen);
      Recorded(history, action, refused, before, Tables());
      history := history + [Step(0, action)];
      if refused.None? { ReviewHandled(before, workspace, reviewer, retry, reference, local, eventsOpen); }
    }

    /** A reviewed request is dated by its policy, and every workspace it closed has its billing closed. */
    method ReviewDeletion(user: UserId, policy: Option<Policy>, attested: bool, b: Billing) returns (refused: Option<Refusal>)
      requires Valid()
      modifies this
      ensures Performed(old(Tables()), old(history), ReviewingRequest(user, policy, attested, b), refused)
      ensures refused.None? ==> user in requests && ReviewDated(requests[user]) && AllClosed(closures, user)
      ensures refused.None? ==> user in old(requests)
      ensures refused.None? && old(requests)[user].state == Erased ==> Tables() == old(Tables())
      ensures refused.None? && old(requests)[user].state != Erased ==> requests[user].state == Reviewed && requests[user].policy == policy
    {
      hide Run, Inv, ReviewRequest, ReviewDated, AllClosed;
      Reachable(history);
      ghost var before := Tables();
      refused := TryReviewDeletion(user, policy, attested, b);
      Recorded(history, ReviewingRequest(user, policy, attested, b), refused, before, Tables());
      history := history + [Step(0, ReviewingRequest(user, policy, attested, b))];
      if refused.None? { ReviewingDates(before, user, policy, attested, b); }
    }

    /** Erases nothing before it is due, leaves nothing that names the account, and changes nothing the second time. */
    method FulfilRequest(user: UserId, policy: Option<Policy>, b: Billing, a: Activity) returns (refused: Option<Refusal>)
      requires Valid()
      modifies this
      ensures Performed(old(Tables()), old(history), Fulfilling(user, policy, b, a), refused)
      ensures refused.None? ==> DulyErased(Tables(), user) && user in old(requests) && user in old(users)
      ensures refused.None? && old(requests)[user].state != Erased ==> Forgotten(Tables(), user) && NoAddress(Tables(), old(users)[user].email)
      ensures refused.None? && old(requests)[user].state == Erased ==> Tables() == old(Tables())
    {
      hide Run, Inv, Fulfil, DulyErased, Forgotten, NoAddress;
      Reachable(history);
      ghost var before := Tables();
      refused := TryFulfilRequest(user, policy, b, a);
      Recorded(history, Fulfilling(user, policy, b, a), refused, before, Tables());
      history := history + [Step(0, Fulfilling(user, policy, b, a))];
      if refused.None? { FulfillingForgets(before, user, policy, b, a); }
    }
  }

  /** One more recorded step. */
  lemma Recorded(past: seq<Step>, a: Action, refused: Option<Refusal>, before: Database, after: Database)
    requires before == Run(EMPTY, past) && Agrees(Attempted(before, a), refused, before, after)
    ensures Run(EMPTY, past + [Step(0, a)]) == after
  {
    hide Run, Attempted;
    RunOne(EMPTY, past, Step(0, a));
    assert Later(before, 0) == before;
  }

  lemma RequestIs(db: Database, user: UserId, token: Digest)
    ensures Attempted(db, Forgetting(user, token)) == ForgotPassword(db, user, token)
    ensures Attempted(db, Resending(user, token)) == ResendVerification(db, user, token)
  {
  }

  lemma AcceptIs(db: Database, read: Read, invitation: Digest, paid: bool)
    ensures Attempted(db, Accepting(read, invitation, paid))
      == if read in db.inFlight then Accept(db, read, invitation, paid) else Err(SessionExpired)
  {
  }

  lemma LoginIs(db: Database, user: UserId, hash: PasswordHash, session: Digest, lifetime: nat)
    ensures Attempted(db, LoggingIn(user, hash, session, lifetime)) == Login(db, user, hash, session, lifetime)
  {
  }

  lemma CreateIs(db: Database, user: UserId, w: WorkspaceId, freeSeats: Seats)
    ensures Attempted(db, Creating(user, w, freeSeats)) == CreateWorkspace(db, user, w, freeSeats)
  {
  }

  lemma ChangeIs(db: Database, actor: UserId, w: WorkspaceId, target: UserId, role: Option<Role>)
    ensures Attempted(db, Changing(actor, w, target, role)) == ChangeMember(db, actor, w, target, role)
  {
  }

  lemma TransferIs(db: Database, actor: UserId, w: WorkspaceId, successor: UserId, passwordOk: bool)
    ensures Attempted(db, Transferring(actor, w, successor, passwordOk)) == TransferOwnership(db, actor, w, successor, passwordOk)
  {
  }

  lemma RotateIs(db: Database, user: UserId, hash: PasswordHash, oldSession: Digest, session: Digest, lifetime: nat)
    ensures Attempted(db, Rotating(user, hash, oldSession, session, lifetime)) == Rotate(db, user, hash, oldSession, session, lifetime)
  {
  }

  lemma InviteIs(db: Database, actor: UserId, w: WorkspaceId, email: Address, role: Role, d: Digest, paid: bool)
    ensures Attempted(db, Inviting(actor, w, email, role, d, paid)) == Invite(db, actor, w, email, role, d, paid)
  {
  }

  lemma ReviewIs(
    db: Database, w: WorkspaceId, reviewer: bool, retry: bool, reference: bool, local: Option<Subscription>, eventsOpen: bool)
    ensures Attempted(db, ReviewingClosure(w, reviewer, retry, reference, local, eventsOpen))
      == ReviewClosure(db, w, reviewer, retry, reference, local, eventsOpen)
  {
  }

  function LocalOf(local: Subscriptions, w: WorkspaceId): Option<Subscription> { if w in local then Some(local[w]) else None }

  /** Due, and for at least as long as any other closure that is due. */
  predicate FirstDue(db: Database, w: WorkspaceId) {
    ClosureDue(db, w) && forall v :: v in db.closures && ClosureDue(db, v) ==> db.closures[w].availableAt <= db.closures[v].availableAt
  }

  method NextDue(db: Database) returns (next: Option<WorkspaceId>)
    ensures match next
      case None => forall w :: w in db.closures ==> !ClosureDue(db, w)
      case Some(w) => FirstDue(db, w)
  {
    var candidates := set w | w in db.closures && ClosureDue(db, w);
    if candidates == {} {
      assert forall w :: w in db.closures && ClosureDue(db, w) ==> w in candidates;
      return None;
    }
    var due := map v | v in db.closures :: db.closures[v].availableAt;
    var w := LeastRanked(candidates, due);
    forall v | v in db.closures && ClosureDue(db, v) ensures db.closures[w].availableAt <= db.closures[v].availableAt {
      assert v in candidates && due[w] <= due[v];
    }
    return Some(w);
  }

  /** Decides one workspace of a departing user: `closes` says it must close, `refused` why it cannot. */
  method DecideClosing(db: Database, user: UserId, workspace: WorkspaceId, subscriptions: Subscriptions)
    returns (closes: bool, refused: Option<Refusal>)
    requires (workspace, user) in db.members
    ensures closes == MustClose(db, workspace, user)
    ensures refused == if closes then ClosingRefusal(db, workspace, user, subscriptions) else None
  {
    if db.members[(workspace, user)] != Owner { return false, None; }
    var others := set m | m in db.members && m.0 == workspace && m.1 != user && m.1 in db.users && !db.users[m.1].closing;
    if exists m :: m in others && db.members[m] == Owner { return false, None; }
    assert others == {} <==> !OtherActive(db, workspace, user, false) by {
      if OtherActive(db, workspace, user, false) {
        var m :| m in db.members && m.0 == workspace && m.1 != user && m.1 in db.users && !db.users[m.1].closing;
        assert m in others;
      }
      if others != {} {
        var m :| m in others;
        assert OtherActive(db, workspace, user, false);
      }
    }
    closes := true;
    if others != {} { return closes, Some(OwnershipTransferRequired); }
    if CheckoutOpen(subscriptions, workspace, db.clock) { return closes, Some(CheckoutPending); }
    if workspace in db.closures { return closes, Some(Collision); }
    return closes, None;
  }

  /** Walks the user's memberships in workspace order, opening a closure for each one that must close. */
  method CloseWorkspaces(db: Database, user: UserId, subscriptions: Subscriptions)
    returns (refused: Option<Refusal>, closures: Closures, invitations: Invitations)
    ensures var blocked := ClosingBlocked(db, user, subscriptions);
      if blocked == {} then refused == None else refused.Some? && refused == ClosingRefusal(db, Least(blocked), user, subscriptions)
    ensures refused.None? ==> closures == Opened(db.closures, ClosingSet(db, user), user, db.clock, subscriptions)
    ensures refused.None? ==> invitations == Withdrawn(db.invitations, ClosingSet(db, user))
  {
    hide Opened, Withdrawn, WithdrawUnused, ClosingSet, ClosingBlocked, MustClose, ClosingRefusal, WorkspacesOf, NewClosure;
    var pending := WorkspacesOf(db.members, user);
    ghost var done: set<WorkspaceId> := {};
    refused, closures, invitations := None, db.closures, db.invitations;
    NoneVisited(closures, invitations, user, db.clock, subscriptions);
    assert done * ClosingSet(db, user) == {};
    while pending != {}
      invariant pending + done == WorkspacesOf(db.members, user)
      invariant done * ClosingBlocked(db, user, subscriptions) == {}
      invariant closures == Opened(db.closures, done * ClosingSet(db, user), user, db.clock, subscriptions)
      invariant invitations == Withdrawn(db.invitations, done * ClosingSet(db, user))
      invariant refused == None
      decreases |pending|
    {
      var w := Smallest(pending);
      assert w in pending + done;
      MemberOf(db.members, user, w);
      var closes, why := DecideClosing(db, user, w, subscriptions);
      if why.Some? {
        FirstBlocked(db, user, subscriptions, pending, done, w);
        return why, closures, invitations;
      }
      OneMore(db, user, subscriptions, done, w);
      if closes {
        OpenOneMore(db.closures, done * ClosingSet(db, user), w, user, db.clock, subscriptions);
        WithdrawOneMore(db.invitations, done * ClosingSet(db, user), w);
        closures := closures[w := NewClosure(user, db.clock, subscriptions, w)];
        invitations := WithdrawUnused(invitations, w);
      }
      pending, done := pending - {w}, done + {w};
    }
    AllVisited(db, user, subscriptions, done);
  }

  lemma SmallestOfSubset(w: nat, all: set<nat>, some: set<nat>)
    requires IsLeast(w, all) && some <= all && w in some
    ensures Least(some) == w
  {
  }

  lemma MemberOf(members: Members, user: UserId, w: WorkspaceId)
    requires w in WorkspacesOf(members, user)
    ensures (w, user) in members
  {
    var m :| m in members && m.1 == user && m.0 == w;
    assert m == (w, user);
  }

  /** The first workspace refused in order is the least of all refused ones. */
  lemma FirstBlocked(
    db: Database, user: UserId, subscriptions: Subscriptions, pending: set<WorkspaceId>, done: set<WorkspaceId>, w: WorkspaceId)
    requires pending + done == WorkspacesOf(db.members, user) && done * ClosingBlocked(db, user, subscriptions) == {}
    requires IsLeast(w, pending)
    requires MustClose(db, w, user) && ClosingRefusal(db, w, user, subscriptions).Some?
    ensures w in ClosingBlocked(db, user, subscriptions) && Least(ClosingBlocked(db, user, subscriptions)) == w
  {
    hide MustClose, ClosingRefusal;
    var blocked := ClosingBlocked(db, user, subscriptions);
    assert w in pending + done;
    assert w in blocked;
    forall v | v in blocked ensures v in pending {
      assert v in pending + done;
      assert v in done ==> v in done * blocked;
    }
    assert IsLeast(Least(blocked), blocked);
  }

  /** A workspace that was let through joins those visited. */
  lemma OneMore(db: Database, user: UserId, subscriptions: Subscriptions, done: set<WorkspaceId>, w: WorkspaceId)
    requires done * ClosingBlocked(db, user, subscriptions) == {} && w in WorkspacesOf(db.members, user)
    requires MustClose(db, w, user) ==> ClosingRefusal(db, w, user, subscriptions).None?
    ensures (done + {w}) * ClosingBlocked(db, user, subscriptions) == {}
    ensures MustClose(db, w, user) ==> (done + {w}) * ClosingSet(db, user) == done * ClosingSet(db, user) + {w}
    ensures !MustClose(db, w, user) ==> (done + {w}) * ClosingSet(db, user) == done * ClosingSet(db, user)
  {
    hide MustClose, ClosingRefusal, WorkspacesOf;
  }

  lemma NoneVisited(closures: Closures, invitations: Invitations, user: UserId, now: int, subscriptions: Subscriptions)
    ensures Opened(closures, {}, user, now, subscriptions) == closures && Withdrawn(invitations, {}) == invitations
  {
  }

  lemma AllVisited(db: Database, user: UserId, subscriptions: Subscriptions, done: set<WorkspaceId>)
    requires done == WorkspacesOf(db.members, user) && done * ClosingBlocked(db, user, subscriptions) == {}
    ensures ClosingBlocked(db, user, subscriptions) == {} && done * ClosingSet(db, user) == ClosingSet(db, user)
  {
    hide MustClose, ClosingRefusal, WorkspacesOf;
    assert ClosingBlocked(db, user, subscriptions) == done * ClosingBlocked(db, user, subscriptions);
  }
}
