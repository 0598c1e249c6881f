/** Membership, closing, billing and erasure transactions keep the account invariant. */
module AccountSteps {
  import opened Common
  import opened Accounts
  import opened AccountInvariants

  // ---- reads and workspaces ----

  lemma AuthenticateKeeps(db: Database, session: Digest)
    requires Inv(db)
    ensures Authenticate(db, session).Ok? ==> Inv(Authenticate(db, session).value)
  {
    hide MembersOk, WorkspacesOk, SessionsOk, TokensOk, InvitationsOk, OnePending, NoneToMember, FormerOk, UniqueEmails, ClosuresOk;
    if Authenticate(db, session).Ok? {
      var user := db.sessions[session].user;
      assert user in db.requests ==> RequestOk(user, db.requests[user], db.users, db.closures);
    }
  }

  lemma CreatedOk(members: Members, creators: map<WorkspaceId, UserId>, closures: Closures, users: Users, w: WorkspaceId, user: UserId)
    requires WorkspacesOk(members, creators, closures) && MembersOk(members, users, creators)
    requires w !in creators
    ensures WorkspacesOk(members[(w, user) := Owner], creators[w := user], closures)
  {
    var next := members[(w, user) := Owner];
    assert next[(w, user)] == Owner;
    forall v | v in creators ensures WorkspaceOk(next, closures, v) {
      assert WorkspaceOk(members, closures, v);
      if v !in closures {
        var u: UserId :| (v, u) in members && members[(v, u)] == Owner;
        assert (v, u) in next && next[(v, u)] == Owner;
      }
    }
    assert WorkspaceOk(next, closures, w);
  }

  lemma CreateWorkspaceKeeps(db: Database, user: UserId, workspace: WorkspaceId, freeSeats: Seats)
    requires Inv(db)
    ensures CreateWorkspace(db, user, workspace, freeSeats).Ok? ==> Inv(CreateWorkspace(db, user, workspace, freeSeats).value)
  {
    hide WorkspacesOk, SessionsOk, TokensOk, OnePending, FormerOk, UniqueEmails, ClosuresOk, RequestsOk, InFlightOk;
    var r := CreateWorkspace(db, user, workspace, freeSeats);
    if r.Ok? {
      CreatedOk(db.members, db.creators, db.closures, db.users, workspace, user);
      forall d | d in db.invitations
        ensures InvitationOk(db.invitations[d], db.users, r.value.creators, db.closures)
        ensures !db.invitations[d].used ==> Outsider(db.invitations[d], db.users, r.value.members)
      {
        assert InvitationOk(db.invitations[d], db.users, db.creators, db.closures);
        assert !db.invitations[d].used ==> Outsider(db.invitations[d], db.users, db.members);
      }
    }
  }

  lemma ChangePlanKeeps(db: Database, workspace: WorkspaceId, seats: Seats)
    requires Inv(db)
    ensures ChangePlan(db, workspace, seats).Ok? ==> Inv(ChangePlan(db, workspace, seats).value)
  {
    hide MembersOk, WorkspacesOk, SessionsOk, TokensOk, InvitationsOk, OnePending, NoneToMember, FormerOk, UniqueEmails, InFlightOk, ClosuresOk, RequestsOk;
  }

  // ---- invitations ----

  lemma OwnedIsOpen(db: Database, actor: UserId, workspace: WorkspaceId)
    requires Inv(db) && IsActiveOwner(db, actor, workspace)
    ensures workspace in db.creators && workspace !in db.closures
  {
    hide SessionsOk, TokensOk, InvitationsOk, OnePending, NoneToMember, FormerOk, UniqueEmails, InFlightOk, ClosuresOk, RequestsOk;
    assert (workspace, actor) in db.members;
    assert WorkspaceOk(db.members, db.closures, workspace);
  }

  lemma UnsuppressedIsRegistered(db: Database, email: Address, u: UserId)
    requires !Suppressed(db, email) && u in db.requests && db.requests[u].address == email
    ensures Registered(db.users, email)
  {
    assert AddressTaken(db.users, email);
    var v :| v in db.users && db.users[v].email == email;
    assert !db.users[v].closing;
  }

  lemma InviteKeeps(db: Database, actor: UserId, workspace: WorkspaceId, email: Address, role: Role, invitation: Digest, paid: bool)
    requires Inv(db)
    ensures Invite(db, actor, workspace, email, role, invitation, paid).Ok?
      ==> Inv(Invite(db, actor, workspace, email, role, invitation, paid).value)
  {
    hide MembersOk, WorkspacesOk, SessionsOk, TokensOk, UniqueEmails, InFlightOk, ClosuresOk, RequestsOk;
    var r := Invite(db, actor, workspace, email, role, invitation, paid);
    if r.Ok? {
      OwnedIsOpen(db, actor, workspace);
      InvitedOk(db, actor, workspace, email, role, invitation, r.value.invitations);
      InvitedReaches(db, actor, workspace, email, role, invitation, r.value.invitations);
    }
  }

  predicate Invited(db: Database, actor: UserId, workspace: WorkspaceId, email: Address, role: Role, invitation: Digest, next: Invitations) {
    next == Supersede(db.invitations, workspace, email)[invitation := Invitation(workspace, actor, email, role, db.clock + 7 * DAY, false)]
  }

  lemma InvitedOk(db: Database, actor: UserId, workspace: WorkspaceId, email: Address, role: Role, invitation: Digest, next: Invitations)
    requires Inv(db) && Invited(db, actor, workspace, email, role, invitation, next)
    requires IsActiveOwner(db, actor, workspace) && workspace in db.creators && workspace !in db.closures && role != Owner
    ensures InvitationsOk(next, db.users, db.creators, db.closures) && OnePending(next)
  {
    hide MembersOk, WorkspacesOk, SessionsOk, TokensOk, NoneToMember, FormerOk, UniqueEmails, InFlightOk, ClosuresOk, RequestsOk;
    forall d | d in next ensures InvitationOk(next[d], db.users, db.creators, db.closures) {
      if d != invitation { assert InvitationOk(db.invitations[d], db.users, db.creators, db.closures); }
    }
  }

  lemma InvitedReaches(db: Database, actor: UserId, workspace: WorkspaceId, email: Address, role: Role, invitation: Digest, next: Invitations)
    requires Inv(db) && Invited(db, actor, workspace, email, role, invitation, next)
    requires !MemberAddress(db, workspace, email) && !Suppressed(db, email)
    ensures NoneToMember(next, db.users, db.members) && FormerOk(next, db.users, db.requests)
  {
    hide MembersOk, WorkspacesOk, SessionsOk, TokensOk, InvitationsOk, OnePending, UniqueEmails, InFlightOk, ClosuresOk, RequestsOk;
    forall d | d in next && !next[d].used ensures Outsider(next[d], db.users, db.members) {
      if d == invitation {
        forall m | m in db.members && m.0 == workspace && m.1 in db.users ensures db.users[m.1].email != email {
          assert (workspace, m.1) == m;
        }
      } else {
        assert Outsider(db.invitations[d], db.users, db.members);
      }
    }
    forall d, u | d in next && !next[d].used && u in db.requests && db.requests[u].address == next[d].email
      ensures Registered(db.users, next[d].email)
    {
      if d == invitation { UnsuppressedIsRegistered(db, email, u); }
    }
  }

  lemma FormerIsOpen(db: Database, invitation: Digest, user: UserId)
    requires FormerOk(db.invitations, db.users, db.requests) && UniqueEmails(db.users)
    requires invitation in db.invitations && !db.invitations[invitation].used && user in db.users && user in db.requests
    requires db.requests[user].address == db.invitations[invitation].email == db.users[user].email
    ensures !db.users[user].closing
  {
    var v :| v in db.users && db.users[v].email == db.users[user].email && !db.users[v].closing;
    assert v == user;
  }

  /** Nobody whose account is closing can hold an unused invitation through a read in flight. */
  lemma ReaderIsOpen(db: Database, read: Read, invitation: Digest)
    requires Inv(db) && read in db.inFlight && invitation in db.invitations
    requires !db.invitations[invitation].used && db.invitations[invitation].email == read.email
    ensures read.user in db.users && !db.users[read.user].closing
  {
    hide MembersOk, WorkspacesOk, SessionsOk, TokensOk, InvitationsOk, OnePending, NoneToMember, FormerOk, UniqueEmails, ClosuresOk;
    if read.user in db.requests {
      assert RequestOk(read.user, db.requests[read.user], db.users, db.closures);
      FormerIsOpen(db, invitation, read.user);
    }
  }

  lemma JoinedOk(members: Members, creators: map<WorkspaceId, UserId>, closures: Closures, w: WorkspaceId, user: UserId, role: Role)
    requires WorkspacesOk(members, creators, closures) && w in creators && w !in closures
    requires (w, user) in members ==> members[(w, user)] != Owner
    requires role != Owner
    ensures WorkspacesOk(members[(w, user) := role], creators, closures)
  {
    var next := members[(w, user) := role];
    forall v | v in creators ensures WorkspaceOk(next, closures, v) {
      assert WorkspaceOk(members, closures, v);
      if v !in closures {
        var u: UserId :| (v, u) in members && members[(v, u)] == Owner;
        assert (v, u) in next && next[(v, u)] == Owner;
      }
    }
  }

  lemma AcceptKeeps(db: Database, read: Read, invitation: Digest, paid: bool)
    requires Inv(db) && read in db.inFlight
    ensures Accept(db, read, invitation, paid).Ok? ==> Inv(Accept(db, read, invitation, paid).value)
  {
    hide WorkspacesOk, SessionsOk, TokensOk, InvitationsOk, OnePending, NoneToMember, FormerOk, UniqueEmails, ClosuresOk, RequestsOk;
    var r := Accept(db, read, invitation, paid);
    if r.Ok? {
      var i := db.invitations[invitation];
      OwnedIsOpen(db, i.inviter, i.workspace);
      ReaderIsOpen(db, read, invitation);
      InvitedRole(db, invitation);
      JoinedOk(db.members, db.creators, db.closures, i.workspace, read.user, i.role);
      UsedUpKeeps(db, invitation, read.user, r.value);
    }
  }

  lemma InvitedRole(db: Database, invitation: Digest)
    requires Inv(db) && invitation in db.invitations
    ensures db.invitations[invitation].role != Owner
  {
    hide MembersOk, WorkspacesOk, SessionsOk, TokensOk, OnePending, NoneToMember, FormerOk, UniqueEmails, InFlightOk, ClosuresOk, RequestsOk;
    assert InvitationOk(db.invitations[invitation], db.users, db.creators, db.closures);
  }

  lemma UsedUpKeeps(db: Database, invitation: Digest, user: UserId, next: Database)
    requires Inv(db) && invitation in db.invitations && user in db.users
    requires !db.invitations[invitation].used && db.users[user].email == db.invitations[invitation].email
    requires next.invitations == db.invitations[invitation := db.invitations[invitation].(used := true)]
    requires next.members == db.members[(db.invitations[invitation].workspace, user) := db.invitations[invitation].role]
    ensures InvitationsOk(next.invitations, db.users, db.creators, db.closures) && OnePending(next.invitations)
    ensures NoneToMember(next.invitations, db.users, next.members) && FormerOk(next.invitations, db.users, db.requests)
  {
    hide MembersOk, WorkspacesOk, SessionsOk, TokensOk, UniqueEmails, InFlightOk, ClosuresOk, RequestsOk;
    forall d | d in next.invitations
      ensures InvitationOk(next.invitations[d], db.users, db.creators, db.closures)
      ensures !next.invitations[d].used ==> Outsider(next.invitations[d], db.users, next.members)
    {
      assert InvitationOk(db.invitations[d], db.users, db.creators, db.closures);
      assert !db.invitations[d].used ==> Outsider(db.invitations[d], db.users, db.members);
    }
  }

  // ---- roles ----

  lemma RemovedOk(members: Members, creators: map<WorkspaceId, UserId>, closures: Closures, m: (WorkspaceId, UserId))
    requires WorkspacesOk(members, creators, closures) && (m in members ==> members[m] != Owner)
    ensures WorkspacesOk(members - {m}, creators, closures)
  {
    var next := members - {m};
    forall v | v in creators ensures WorkspaceOk(next, closures, v) {
      assert WorkspaceOk(members, closures, v);
      if v !in closures {
        var u: UserId :| (v, u) in members && members[(v, u)] == Owner;
        assert (v, u) in next && next[(v, u)] == Owner;
      }
    }
  }

  /** Fewer members, or the same ones with other roles, keep every group that ignores roles. */
  lemma FewerMembersKeep(db: Database, members: Members)
    requires Inv(db) && members.Keys <= db.members.Keys && WorkspacesOk(members, db.creators, db.closures)
    ensures Inv(db.(members := members))
  {
    hide WorkspacesOk, SessionsOk, TokensOk, InvitationsOk, OnePending, FormerOk, UniqueEmails, InFlightOk, ClosuresOk, RequestsOk;
    forall d | d in db.invitations && !db.invitations[d].used ensures Outsider(db.invitations[d], db.users, members) {
      assert Outsider(db.invitations[d], db.users, db.members);
      forall m | m in members ensures m in db.members { assert m in members.Keys; }
    }
    forall m | m in members ensures m in db.members { assert m in members.Keys; }
  }

  lemma ChangeMemberKeeps(db: Database, actor: UserId, workspace: WorkspaceId, target: UserId, role: Option<Role>)
    requires Inv(db)
    ensures ChangeMember(db, actor, workspace, target, role).Ok? ==> Inv(ChangeMember(db, actor, workspace, target, role).value)
  {
    hide WorkspacesOk, Inv;
    var r := ChangeMember(db, actor, workspace, target, role);
    if r.Ok? {
      OwnedIsOpen(db, actor, workspace);
      InvOwners(db);
      if role.None? {
        RemovedOk(db.members, db.creators, db.closures, (workspace, target));
      } else {
        JoinedOk(db.members, db.creators, db.closures, workspace, target, role.value);
      }
      FewerMembersKeep(db, r.value.members);
    }
  }

  lemma InvOwners(db: Database)
    requires Inv(db)
    ensures WorkspacesOk(db.members, db.creators, db.closures)
  {
  }

  lemma HandedOver(members: Members, creators: map<WorkspaceId, UserId>, closures: Closures, w: WorkspaceId, actor: UserId, successor: UserId)
    requires WorkspacesOk(members, creators, closures) && w in creators && w !in closures && actor != successor
    requires (w, actor) in members && members[(w, actor)] == Owner
    ensures WorkspacesOk(members[(w, successor) := Owner][(w, actor) := Admin], creators, closures)
  {
    var next := members[(w, successor) := Owner][(w, actor) := Admin];
    assert WorkspaceOk(members, closures, w);
    assert next[(w, successor)] == Owner;
    forall v | v in creators ensures WorkspaceOk(next, closures, v) {
      assert WorkspaceOk(members, closures, v);
      if v !in closures && v != w {
        var u: UserId :| (v, u) in members && members[(v, u)] == Owner;
        assert (v, u) in next && next[(v, u)] == Owner;
      }
    }
  }

  lemma TransferKeeps(db: Database, actor: UserId, workspace: WorkspaceId, successor: UserId, passwordOk: bool)
    requires Inv(db)
    ensures TransferOwnership(db, actor, workspace, successor, passwordOk).Ok?
      ==> Inv(TransferOwnership(db, actor, workspace, successor, passwordOk).value)
  {
    hide WorkspacesOk, Inv;
    var r := TransferOwnership(db, actor, workspace, successor, passwordOk);
    if r.Ok? {
      InvOwners(db);
      HandedOver(db.members, db.creators, db.closures, workspace, actor, successor);
      FewerMembersKeep(db, r.value.members);
    }
  }

  // ---- billing closures and review ----

  lemma SameKeysKeep(db: Database, closures: Closures)
    requires Inv(db) && closures.Keys == db.closures.Keys
    ensures WorkspacesOk(db.members, db.creators, closures) && InvitationsOk(db.invitations, db.users, db.creators, closures)
  {
    hide MembersOk, SessionsOk, TokensOk, OnePending, NoneToMember, FormerOk, UniqueEmails, InFlightOk, ClosuresOk, RequestsOk, MintedOk;
    assert forall w :: w in closures <==> w in closures.Keys;
    forall w | w in db.creators ensures WorkspaceOk(db.members, closures, w) {
      assert WorkspaceOk(db.members, db.closures, w);
      assert w in closures.Keys <==> w in db.closures.Keys;
    }
    forall d | d in db.invitations ensures InvitationOk(db.invitations[d], db.users, db.creators, closures) {
      assert InvitationOk(db.invitations[d], db.users, db.creators, db.closures);
    }
  }

  lemma RequestsSurvive(requests: Requests, users: Users, closures: Closures, w: WorkspaceId, c: Closure)
    requires RequestsOk(requests, users, closures) && w in closures && c.requestedBy == closures[w].requestedBy
    requires closures[w].state == Closed ==> c.state == Closed
    ensures RequestsOk(requests, users, closures[w := c])
  {
    forall u | u in requests ensures RequestOk(u, requests[u], users, closures[w := c]) {
      assert RequestOk(u, requests[u], users, closures);
    }
  }

  /** One closure row is rewritten without reopening it. */
  lemma ClosureReplaced(db: Database, w: WorkspaceId, c: Closure)
    requires Inv(db) && w in db.closures && ClosureOk(w, c, db.users) && c.requestedBy == db.closures[w].requestedBy
    requires db.closures[w].state == Closed ==> c.state == Closed
    ensures Inv(db.(closures := db.closures[w := c]))
  {
    hide MembersOk, WorkspacesOk, SessionsOk, TokensOk, InvitationsOk, OnePending, NoneToMember, FormerOk, UniqueEmails, InFlightOk, RequestsOk,
      ClosureOk;
    assert db.closures[w := c].Keys == db.closures.Keys;
    SameKeysKeep(db, db.closures[w := c]);
    RequestsSurvive(db.requests, db.users, db.closures, w, c);
  }

  lemma AttemptOk(w: WorkspaceId, c: Closure, users: Users, local: Option<Subscription>, p: Provider, now: int)
    requires ClosureOk(w, c, users) && (c.state == Pending || c.state == Scheduled)
    ensures ClosureOk(w, AfterAttempt(c, AttemptClosure(w, c, local, p), now), users)
  {
  }

  lemma CloseBillingKeeps(db: Database, workspace: WorkspaceId, local: Option<Subscription>, p: Provider)
    requires Inv(db)
    ensures CloseBilling(db, workspace, local, p).Ok? ==> Inv(CloseBilling(db, workspace, local, p).value)
  {
    hide Inv, AttemptClosure, ClosureOk;
    if ClosureDue(db, workspace) {
      var c := db.closures[workspace];
      InvClosure(db, workspace);
      AttemptOk(workspace, c, db.users, local, p, db.clock);
      ClosureReplaced(db, workspace, AfterAttempt(c, AttemptClosure(workspace, c, local, p), db.clock));
    }
  }

  lemma InvClosure(db: Database, w: WorkspaceId)
    requires Inv(db) && w in db.closures
    ensures ClosureOk(w, db.closures[w], db.users)
  {
  }

  lemma ReviewClosureKeeps(
    db: Database, workspace: WorkspaceId, reviewer: bool, retry: bool, reference: bool, local: Option<Subscription>, eventsOpen: bool)
    requires Inv(db)
    ensures ReviewClosure(db, workspace, reviewer, retry, reference, local, eventsOpen).Ok?
      ==> Inv(ReviewClosure(db, workspace, reviewer, retry, reference, local, eventsOpen).value)
  {
    hide Inv;
    var r := ReviewClosure(db, workspace, reviewer, retry, reference, local, eventsOpen);
    if r.Ok? {
      InvClosure(db, workspace);
      ClosureReplaced(db, workspace, r.value.closures[workspace]);
    }
  }

  lemma ReviewedOk(db: Database, user: UserId, q: DeletionRequest)
    requires Inv(db) && user in db.requests && RequestOk(user, q, db.users, db.closures)
    requires q.address == db.requests[user].address && q.state != Erased
    ensures RequestsOk(db.requests[user := q], db.users, db.closures)
    ensures InFlightOk(db.inFlight, db.users, db.requests[user := q])
    ensures FormerOk(db.invitations, db.users, db.requests[user := q])
  {
    hide MembersOk, WorkspacesOk, SessionsOk, TokensOk, InvitationsOk, OnePending, NoneToMember, UniqueEmails, ClosuresOk, RequestOk, MintedOk;
    var next := db.requests[user := q];
    forall d, u | d in db.invitations && !db.invitations[d].used && u in next && next[u].address == db.invitations[d].email
      ensures Registered(db.users, db.invitations[d].email)
    {
      assert u in db.requests && db.requests[u].address == db.invitations[d].email;
    }
  }

  lemma ReviewRequestKeeps(db: Database, user: UserId, policy: Option<Policy>, attested: bool, b: Billing)
    requires Inv(db)
    ensures ReviewRequest(db, user, policy, attested, b).Ok? ==> Inv(ReviewRequest(db, user, policy, attested, b).value)
  {
    hide MembersOk, WorkspacesOk, SessionsOk, TokensOk, InvitationsOk, OnePending, NoneToMember, FormerOk, UniqueEmails, InFlightOk, ClosuresOk,
      RequestsOk, BillingRefusal;
    if ReviewRequest(db, user, policy, attested, b).Ok? && db.requests[user].state != Erased {
      InvRequest(db, user);
      ReviewedOk(db, user, ReviewRequest(db, user, policy, attested, b).value.requests[user]);
    }
  }

  lemma InvRequest(db: Database, u: UserId)
    requires Inv(db) && u in db.requests
    ensures RequestOk(u, db.requests[u], db.users, db.closures)
  {
  }

  // ---- closing an account ----

  lemma ClosingHasNoOthers(db: Database, user: UserId, w: WorkspaceId, subscriptions: Subscriptions)
    requires Inv(db) && w in ClosingSet(db, user) && ClosingRefusal(db, w, user, subscriptions).None?
    ensures NoMembers(WithoutMember(db.members, user), w)
  {
    hide WorkspacesOk, SessionsOk, TokensOk, InvitationsOk, OnePending, NoneToMember, FormerOk, UniqueEmails, InFlightOk, ClosuresOk, RequestsOk;
    assert !OtherActive(db, w, user, false);
  }

  lemma OwnerMustClose(db: Database, user: UserId, w: WorkspaceId)
    requires OneOwner(db.members, w) && (w, user) in db.members && db.members[(w, user)] == Owner
    ensures w in ClosingSet(db, user)
  {
    assert w in WorkspacesOf(db.members, user);
    assert forall m :: m in db.members && m.0 == w && db.members[m] == Owner ==> m == (w, user);
  }

  lemma OpenKeepsOwner(db: Database, user: UserId, w: WorkspaceId)
    requires Inv(db) && w in db.creators && w !in db.closures && w !in ClosingSet(db, user)
    ensures HasOwner(WithoutMember(db.members, user), w) && OneOwner(WithoutMember(db.members, user), w)
  {
    hide MembersOk, SessionsOk, TokensOk, InvitationsOk, OnePending, NoneToMember, FormerOk, UniqueEmails, InFlightOk, ClosuresOk, RequestsOk,
      ClosingSet, MintedOk;
    assert WorkspaceOk(db.members, db.closures, w);
    var o: UserId :| (w, o) in db.members && db.members[(w, o)] == Owner;
    if o == user { OwnerMustClose(db, user, w); }
    assert (w, o) in WithoutMember(db.members, user);
  }

  lemma ClosingOwners(db: Database, user: UserId, subscriptions: Subscriptions)
    requires Inv(db) && user in db.users && ClosingBlocked(db, user, subscriptions) == {}
    ensures var next := Closing(db, user, subscriptions); WorkspacesOk(next.members, next.creators, next.closures)
  {
    hide SessionsOk, TokensOk, InvitationsOk, OnePending, NoneToMember, FormerOk, UniqueEmails, InFlightOk, ClosuresOk, RequestsOk;
    var next := Closing(db, user, subscriptions);
    forall w | w in next.creators ensures WorkspaceOk(next.members, next.closures, w) {
      assert WorkspaceOk(db.members, db.closures, w);
      if w in ClosingSet(db, user) {
        assert w !in ClosingBlocked(db, user, subscriptions);
        ClosingHasNoOthers(db, user, w, subscriptions);
      } else if w !in db.closures {
        OpenKeepsOwner(db, user, w);
      }
    }
    forall w | w in ClosingSet(db, user) ensures w in db.creators { assert (w, user) in db.members; }
  }

  lemma ClosingCredentials(db: Database, user: UserId, subscriptions: Subscriptions)
    requires Inv(db) && user in db.users
    ensures var next := Closing(db, user, subscriptions); SessionsOk(next.sessions, next.users) && TokensOk(next.tokens, next.users)
  {
    hide MembersOk, WorkspacesOk, InvitationsOk, OnePending, NoneToMember, FormerOk, UniqueEmails, InFlightOk, ClosuresOk, RequestsOk, ClosingSet;
    var next := Closing(db, user, subscriptions);
    forall d | d in next.sessions ensures SessionOk(next.sessions[d], next.users) { assert SessionOk(db.sessions[d], db.users); }
    forall d | d in next.tokens ensures TokenOk(next.tokens[d], next.users) { assert TokenOk(db.tokens[d], db.users); }
  }

  lemma ClosingInvitations(db: Database, user: UserId, subscriptions: Subscriptions)
    requires Inv(db) && user in db.users
    ensures var next := Closing(db, user, subscriptions);
      InvitationsOk(next.invitations, next.users, next.creators, next.closures) && OnePending(next.invitations)
  {
    hide MembersOk, WorkspacesOk, SessionsOk, TokensOk, NoneToMember, FormerOk, UniqueEmails, InFlightOk, ClosuresOk, RequestsOk, ClosingSet;
    var next := Closing(db, user, subscriptions);
    forall d | d in next.invitations ensures InvitationOk(next.invitations[d], next.users, next.creators, next.closures) {
      assert InvitationOk(db.invitations[d], db.users, db.creators, db.closures);
    }
  }

  lemma ClosingAddresses(db: Database, user: UserId, subscriptions: Subscriptions)
    requires Inv(db) && user in db.users
    ensures var next := Closing(db, user, subscriptions);
      NoneToMember(next.invitations, next.users, next.members) && FormerOk(next.invitations, next.users, next.requests)
  {
    hide MembersOk, WorkspacesOk, SessionsOk, TokensOk, InvitationsOk, OnePending, UniqueEmails, InFlightOk, ClosuresOk, RequestsOk, ClosingSet;
    var next := Closing(db, user, subscriptions);
    forall d | d in next.invitations && !next.invitations[d].used ensures Outsider(next.invitations[d], next.users, next.members) {
      assert Outsider(db.invitations[d], db.users, db.members);
    }
    forall d, u | d in next.invitations && !next.invitations[d].used && u in next.requests && next.requests[u].address == next.invitations[d].email
      ensures Registered(next.users, next.invitations[d].email)
    {
      var v :| v in db.users && db.users[v].email == db.invitations[d].email && !db.users[v].closing;
      assert v in next.users && next.users[v].email == next.invitations[d].email && !next.users[v].closing;
    }
  }

  lemma ClosingClosures(db: Database, user: UserId, subscriptions: Subscriptions)
    requires Inv(db) && user in db.users
    ensures var next := Closing(db, user, subscriptions); ClosuresOk(next.closures, next.users)
  {
    hide MembersOk, WorkspacesOk, SessionsOk, TokensOk, InvitationsOk, OnePending, NoneToMember, FormerOk, UniqueEmails, InFlightOk, RequestsOk,
      ClosingSet, WithdrawInvitations, RevokeAll, UseAll, WithoutMember, MintedOk;
    var next := Closing(db, user, subscriptions);
    forall w | w in next.closures ensures ClosureOk(w, next.closures[w], next.users) {
      if w !in ClosingSet(db, user) { assert ClosureOk(w, db.closures[w], db.users); }
    }
  }

  lemma StillAllClosed(closures: Closures, added: Closures, u: UserId)
    requires AllClosed(closures, u) && forall w :: w in added ==> added[w].requestedBy != u
    ensures AllClosed(closures + added, u)
  {
  }

  lemma ClosingRequests(db: Database, user: UserId, subscriptions: Subscriptions)
    requires Inv(db) && user in db.users && user !in db.requests && !db.users[user].closing
    ensures var next := Closing(db, user, subscriptions); RequestsOk(next.requests, next.users, next.closures)
  {
    hide MembersOk, WorkspacesOk, SessionsOk, TokensOk, InvitationsOk, OnePending, NoneToMember, FormerOk, UniqueEmails, InFlightOk, ClosuresOk,
      ClosingSet, WithdrawInvitations, RevokeAll, UseAll, WithoutMember, MintedOk, AllClosed;
    var next := Closing(db, user, subscriptions);
    var added := map w | w in ClosingSet(db, user) :: NewClosure(user, db.clock, subscriptions, w);
    forall u | u in next.requests ensures RequestOk(u, next.requests[u], next.users, next.closures) {
      if u != user {
        assert RequestOk(u, db.requests[u], db.users, db.closures);
        if db.requests[u].state == Erased { StillAllClosed(db.closures, added, u); }
      }
    }
  }

  lemma RequestDeletionKeeps(db: Database, user: UserId, readHash: PasswordHash, subscriptions: Subscriptions)
    requires Inv(db)
    ensures RequestDeletion(db, user, readHash, subscriptions).Ok? ==> Inv(RequestDeletion(db, user, readHash, subscriptions).value)
  {
    hide WorkspacesOk, SessionsOk, TokensOk, InvitationsOk, OnePending, NoneToMember, FormerOk, ClosuresOk, RequestsOk, ClosingSet, ClosingBlocked;
    if RequestDeletion(db, user, readHash, subscriptions).Ok? {
      ClosingOwners(db, user, subscriptions);
      ClosingCredentials(db, user, subscriptions);
      ClosingInvitations(db, user, subscriptions);
      ClosingAddresses(db, user, subscriptions);
      ClosingClosures(db, user, subscriptions);
      ClosingRequests(db, user, subscriptions);
    }
  }

  // ---- erasure ----

  lemma ErasingIdentity(db: Database, user: UserId)
    requires Inv(db) && user in db.users && user in db.requests
    ensures var next := Erasing(db, user);
      && MembersOk(next.members, next.users, next.creators) && InFlightOk(next.inFlight, next.users, next.requests)
      && SessionsOk(next.sessions, next.users) && TokensOk(next.tokens, next.users)
  {
    hide WorkspacesOk, InvitationsOk, OnePending, NoneToMember, FormerOk, UniqueEmails, ClosuresOk;
    var next := Erasing(db, user);
    assert RequestOk(user, db.requests[user], db.users, db.closures);
    forall d | d in next.sessions ensures SessionOk(next.sessions[d], next.users) { assert SessionOk(db.sessions[d], db.users); }
    forall d | d in next.tokens ensures TokenOk(next.tokens[d], next.users) { assert TokenOk(db.tokens[d], db.users); }
  }

  lemma ErasingMembers(db: Database, user: UserId)
    requires Inv(db) && user in db.users && user in db.requests
    ensures Erasing(db, user).members == db.members
  {
    hide WorkspacesOk, SessionsOk, TokensOk, InvitationsOk, OnePending, NoneToMember, FormerOk, UniqueEmails, InFlightOk, ClosuresOk;
    assert RequestOk(user, db.requests[user], db.users, db.closures);
  }

  lemma ErasingInvitations(db: Database, user: UserId)
    requires Inv(db) && user in db.users && user in db.requests
    ensures var next := Erasing(db, user);
      && InvitationsOk(next.invitations, next.users, next.creators, next.closures) && OnePending(next.invitations)
      && NoneToMember(next.invitations, next.users, db.members)
  {
    hide WorkspacesOk, SessionsOk, TokensOk, FormerOk, UniqueEmails, InFlightOk, ClosuresOk;
    var next := Erasing(db, user);
    assert RequestOk(user, db.requests[user], db.users, db.closures);
    forall d | d in next.invitations
      ensures InvitationOk(next.invitations[d], next.users, next.creators, next.closures)
      ensures !next.invitations[d].used ==> Outsider(next.invitations[d], next.users, db.members)
    {
      assert InvitationOk(db.invitations[d], db.users, db.creators, db.closures);
      assert !db.invitations[d].used ==> Outsider(db.invitations[d], db.users, db.members);
    }
  }

  lemma ErasingAddresses(db: Database, user: UserId)
    requires Inv(db) && user in db.users && user in db.requests
    ensures var next := Erasing(db, user); FormerOk(next.invitations, next.users, next.requests)
  {
    hide MembersOk, WorkspacesOk, SessionsOk, TokensOk, InvitationsOk, OnePending, NoneToMember, UniqueEmails, InFlightOk, ClosuresOk;
    var next := Erasing(db, user);
    assert RequestOk(user, db.requests[user], db.users, db.closures);
    forall d, u | d in next.invitations && !next.invitations[d].used && u in next.requests && next.requests[u].address == next.invitations[d].email
      ensures Registered(next.users, next.invitations[d].email)
    {
      var v :| v in db.users && db.users[v].email == db.invitations[d].email && !db.users[v].closing;
      assert v in next.users && next.users[v].email == next.invitations[d].email && !next.users[v].closing;
    }
  }

  lemma SettledIsClosed(closures: Closures, user: UserId, b: Billing)
    requires BillingRefusal(closures, user, b).None?
    ensures AllClosed(closures, user)
  {
    hide BillingRefusal;
    forall w | w in closures && closures[w].requestedBy == user ensures closures[w].state == Closed {
      assert w !in Unsettled(closures, user, b);
    }
  }

  lemma ErasingRequests(db: Database, user: UserId, policy: Policy, b: Billing, a: Activity)
    requires Inv(db) && user in db.users && user in db.requests && ErasureRefusal(db, user, policy, b, a).None?
    ensures var next := Erasing(db, user);
      && UniqueEmails(next.users) && ClosuresOk(next.closures, next.users) && RequestsOk(next.requests, next.users, next.closures)
  {
    hide MembersOk, WorkspacesOk, SessionsOk, TokensOk, InvitationsOk, OnePending, NoneToMember, FormerOk, InFlightOk, BillingRefusal;
    var next := Erasing(db, user);
    SettledIsClosed(db.closures, user, b);
    assert RequestOk(user, db.requests[user], db.users, db.closures);
    forall w | w in next.closures ensures ClosureOk(w, next.closures[w], next.users) { assert ClosureOk(w, db.closures[w], db.users); }
    forall u | u in next.requests ensures RequestOk(u, next.requests[u], next.users, next.closures) {
      assert RequestOk(u, db.requests[u], db.users, db.closures);
    }
  }

  lemma FulfilKeeps(db: Database, user: UserId, policy: Option<Policy>, b: Billing, a: Activity)
    requires Inv(db)
    ensures Fulfil(db, user, policy, b, a).Ok? ==> Inv(Fulfil(db, user, policy, b, a).value)
  {
    hide MembersOk, WorkspacesOk, SessionsOk, TokensOk, InvitationsOk, OnePending, NoneToMember, FormerOk, UniqueEmails, InFlightOk,
      ClosuresOk, RequestsOk, ErasureRefusal;
    if policy.Some? && user in db.users && user in db.requests && db.requests[user].state != Erased
       && ErasureRefusal(db, user, policy.value, b, a).None? {
      ErasingIdentity(db, user);
      ErasingMembers(db, user);
      ErasingInvitations(db, user);
      ErasingAddresses(db, user);
      ErasingRequests(db, user, policy.value, b, a);
    }
  }
}
