/** What holds after every run of account transactions. */
module AccountTheorems {
  import opened Common
  import opened Accounts
  import opened AccountInvariants
  import opened AccountSteps
  import opened AccountRuns

  /** A continuation of a reachable state evolves from it, and keeps the invariant. */
  lemma Continues(before: seq<Step>, after: seq<Step>)
    ensures Inv(Run(EMPTY, before)) && Inv(Run(EMPTY, before + after))
    ensures Evolves(Run(EMPTY, before), Run(EMPTY, before + after))
  {
    hide Inv, Evolves, Run;
    Reachable(before);
    Reachable(before + after);
    RunAppend(EMPTY, before, after);
    RunEvolves(Run(EMPTY, before), after);
  }

  // ---- ownership ----

  /** Exactly one owner, who is not leaving. */
  ghost predicate SoleActiveOwner(db: Database, w: WorkspaceId, owner: UserId) {
    && (w, owner) in db.members && db.members[(w, owner)] == Owner && owner in db.users && !db.users[owner].closing
    && forall u: UserId :: (w, u) in db.members && db.members[(w, u)] == Owner ==> u == owner
  }

  /** Every workspace has exactly one owner, who is not leaving, or it is closing and has no members. */
  lemma OwnedOrClosing(steps: seq<Step>, w: WorkspaceId)
    requires w in Run(EMPTY, steps).creators
    ensures var db := Run(EMPTY, steps);
      if w in db.closures then NoMembers(db.members, w) else exists owner :: SoleActiveOwner(db, w, owner)
  {
    hide Run;
    Reachable(steps);
    SoleOwner(Run(EMPTY, steps), w);
  }

  lemma SoleOwner(db: Database, w: WorkspaceId)
    requires Inv(db) && w in db.creators
    ensures if w in db.closures then NoMembers(db.members, w) else exists owner :: SoleActiveOwner(db, w, owner)
  {
    hide SessionsOk, TokensOk, InvitationsOk, OnePending, NoneToMember, FormerOk, UniqueEmails, InFlightOk, ClosuresOk, RequestsOk, MintedOk;
    assert WorkspaceOk(db.members, db.closures, w);
    if w !in db.closures {
      var o: UserId :| (w, o) in db.members && db.members[(w, o)] == Owner;
      forall u: UserId | (w, u) in db.members && db.members[(w, u)] == Owner ensures u == o {
        assert (w, u) == (w, o);
      }
      assert SoleActiveOwner(db, w, o);
    }
  }

  /** A closing workspace stays so and never has a member again. */
  lemma ClosingForever(before: seq<Step>, after: seq<Step>, w: WorkspaceId)
    requires w in Run(EMPTY, before).closures
    ensures w in Run(EMPTY, before + after).closures && NoMembers(Run(EMPTY, before + after).members, w)
  {
    hide Run;
    Continues(before, after);
    var db := Run(EMPTY, before + after);
    assert w in db.closures;
    assert w in db.closures.Keys;
    SoleOwner(db, w);
  }

  /** Leaving never collides with an existing closure or request row. */
  lemma LeavingNeverCollides(steps: seq<Step>, user: UserId, readHash: PasswordHash, subscriptions: Subscriptions)
    ensures RequestDeletion(Run(EMPTY, steps), user, readHash, subscriptions) != Err(Collision)
  {
    hide Run;
    Reachable(steps);
    NoCollision(Run(EMPTY, steps), user, readHash, subscriptions);
  }

  lemma OwnsOpen(db: Database, user: UserId, w: WorkspaceId)
    requires Inv(db) && w in ClosingSet(db, user)
    ensures w !in db.closures
  {
    hide SessionsOk, TokensOk, InvitationsOk, OnePending, NoneToMember, FormerOk, UniqueEmails, InFlightOk, ClosuresOk, RequestsOk, MintedOk;
    assert (w, user) in db.members;
    assert WorkspaceOk(db.members, db.closures, w);
  }

  lemma NoCollision(db: Database, user: UserId, readHash: PasswordHash, subscriptions: Subscriptions)
    requires Inv(db)
    ensures RequestDeletion(db, user, readHash, subscriptions) != Err(Collision)
  {
    hide MembersOk, WorkspacesOk, SessionsOk, TokensOk, InvitationsOk, OnePending, NoneToMember, FormerOk, UniqueEmails, InFlightOk, ClosuresOk,
      MintedOk, ClosingSet, OtherActive, CheckoutOpen, Closing;
    var blocked := ClosingBlocked(db, user, subscriptions);
    if user in db.requests { assert RequestOk(user, db.requests[user], db.users, db.closures); }
    if blocked != {} { OwnsOpen(db, user, Least(blocked)); }
  }

  // ---- leaving is final ----

  /** Nothing of the account is usable. */
  predicate Powerless(db: Database, user: UserId) {
    && user in db.users && db.users[user].closing
    && (forall d :: d in db.sessions && db.sessions[d].user == user ==> db.sessions[d].revoked)
    && (forall d :: d in db.tokens && db.tokens[d].user == user ==> db.tokens[d].used)
    && (forall m :: m in db.members ==> m.1 != user)
    && (forall d :: d in db.invitations && db.invitations[d].inviter == user ==> db.invitations[d].used)
  }

  predicate NoPendingTo(db: Database, email: Address) {
    forall d :: d in db.invitations && db.invitations[d].email == email ==> db.invitations[d].used
  }

  /** Whatever request was already in flight, a departed user never regains anything. */
  lemma LeavingIsFinal(before: seq<Step>, after: seq<Step>, user: UserId)
    requires user in Run(EMPTY, before).requests
    ensures Powerless(Run(EMPTY, before + after), user)
  {
    hide Run;
    Continues(before, after);
    DepartedIsPowerless(Run(EMPTY, before + after), user);
  }

  lemma DepartedIsPowerless(db: Database, user: UserId)
    requires Inv(db) && user in db.requests
    ensures Powerless(db, user)
  {
    hide WorkspacesOk, OnePending, NoneToMember, FormerOk, UniqueEmails, InFlightOk, ClosuresOk, MintedOk;
    assert RequestOk(user, db.requests[user], db.users, db.closures);
    assert forall d :: d in db.sessions ==> SessionOk(db.sessions[d], db.users);
    assert forall d :: d in db.tokens ==> TokenOk(db.tokens[d], db.users);
    assert forall d :: d in db.invitations ==> InvitationOk(db.invitations[d], db.users, db.creators, db.closures);
  }

  /**
   The address a user left with gets no unused invitation, until the account is erased
   and somebody else registers that address.
   */
  lemma FormerAddressIsSilent(before: seq<Step>, after: seq<Step>, user: UserId)
    requires user in Run(EMPTY, before).requests
    ensures var db := Run(EMPTY, before + after); var address := Run(EMPTY, before).requests[user].address;
      && user in db.requests
      && (NoPendingTo(db, address) || (db.requests[user].state == Erased && Registered(db.users, address)))
  {
    hide Run;
    Continues(before, after);
    var old_, db := Run(EMPTY, before), Run(EMPTY, before + after);
    assert RequestEvolves(old_.requests[user], db.requests[user]);
    SilentWhileClosing(db, user);
  }

  lemma SilentWhileClosing(db: Database, user: UserId)
    requires Inv(db) && user in db.requests
    ensures var address := db.requests[user].address;
      NoPendingTo(db, address) || (db.requests[user].state == Erased && Registered(db.users, address))
  {
    hide MembersOk, WorkspacesOk, SessionsOk, TokensOk, InvitationsOk, OnePending, NoneToMember, FormerOk, UniqueEmails, InFlightOk, ClosuresOk,
      MintedOk, Registered;
    assert RequestOk(user, db.requests[user], db.users, db.closures);
    forall d | d in db.invitations && !db.invitations[d].used && db.invitations[d].email == db.requests[user].address
      ensures db.requests[user].state == Erased && Registered(db.users, db.requests[user].address)
    {
      PendingIsRegistered(db, d, user);
      if db.requests[user].state != Erased { FormerIsOpen(db, d, user); }
    }
  }

  lemma PendingIsRegistered(db: Database, d: Digest, user: UserId)
    requires FormerOk(db.invitations, db.users, db.requests) && d in db.invitations && !db.invitations[d].used
    requires user in db.requests && db.requests[user].address == db.invitations[d].email
    ensures Registered(db.users, db.requests[user].address)
  {
  }

  // ---- the address an erased account is given ----

  /**
   Erasure gives the account a new address. An unused invitation is addressed to it
   afterwards if and only if one was already: erasure withdraws only those to the old one.
   */
  lemma ErasureLeavesPendingIff(steps: seq<Step>, user: UserId, policy: Policy, b: Billing, a: Activity)
    requires var db := Run(EMPTY, steps); user in db.requests && db.requests[user].state != Erased
    requires Fulfil(Run(EMPTY, steps), user, Some(policy), b, a).Ok?
    ensures var db := Run(EMPTY, steps); var next := Fulfil(db, user, Some(policy), b, a).value;
      && next.users[user].email == Tombstone(user)
      && (NoPendingTo(next, Tombstone(user)) <==> NoPendingTo(db, Tombstone(user)))
  {
    hide Run, ErasureRefusal;
    Reachable(steps);
    ErasureLeaves(Run(EMPTY, steps), user);
  }

  lemma ErasureLeaves(db: Database, user: UserId)
    requires Inv(db) && user in db.users && user in db.requests && db.requests[user].state != Erased
    ensures NoPendingTo(Erasing(db, user), Tombstone(user)) <==> NoPendingTo(db, Tombstone(user))
  {
    hide MembersOk, WorkspacesOk, SessionsOk, TokensOk, OnePending, NoneToMember, FormerOk, UniqueEmails, InFlightOk, ClosuresOk, MintedOk,
      WithoutMember;
    assert RequestOk(user, db.requests[user], db.users, db.closures);
    SilentWhileClosing(db, user);
    forall d | d in db.invitations && !db.invitations[d].used && db.invitations[d].email == Tombstone(user)
      ensures d in Erasing(db, user).invitations
    {
      assert InvitationOk(db.invitations[d], db.users, db.creators, db.closures);
    }
  }

  /** If erasure left none, none is ever sent: a later one would be held back. */
  lemma ErasedAddressStaysSilent(before: seq<Step>, after: seq<Step>, user: UserId)
    requires var db := Run(EMPTY, before);
      user in db.requests && db.requests[user].state == Erased && NoPendingTo(db, Tombstone(user))
    ensures NoPendingTo(Run(EMPTY, before + after), Tombstone(user))
  {
    hide Run;
    Reachable(before);
    RunAppend(EMPTY, before, after);
    StaysSilent(Run(EMPTY, before), after, user);
  }

  lemma ApplyStaysSilent(db: Database, a: Action, user: UserId)
    requires Inv(db) && user in db.requests && db.requests[user].state == Erased && NoPendingTo(db, Tombstone(user))
    ensures NoPendingTo(Apply(db, a), Tombstone(user))
  {
    hide MembersOk, WorkspacesOk, SessionsOk, TokensOk, InvitationsOk, OnePending, NoneToMember, FormerOk, UniqueEmails, InFlightOk, ClosuresOk,
      MintedOk;
    hide Invite, Accept, RequestDeletion, Fulfil, NoPendingTo;
    assert RequestOk(user, db.requests[user], db.users, db.closures);
    if a.Inviting? {
      InviteSilent(db, a.actor, a.workspace, a.email, a.role, a.invitation, a.paid, user);
    } else if a.Accepting? {
      AcceptSilent(db, a.read, a.invitation, a.paid, Tombstone(user));
    } else if a.Leaving? {
      LeavingSilent(db, a.user, a.readHash, a.subscriptions, Tombstone(user));
    } else if a.Fulfilling? {
      FulfilSilent(db, a.user, a.policy, a.billing, a.activity, Tombstone(user));
    } else {
      hide Apply;
      Frames(db, a);
      SameInvitations(db, Apply(db, a), Tombstone(user));
    }
  }

  lemma SameInvitations(db: Database, next: Database, email: Address)
    requires next.invitations == db.invitations && NoPendingTo(db, email)
    ensures NoPendingTo(next, email)
  {
  }

  lemma InviteSilent(
    db: Database, actor: UserId, workspace: WorkspaceId, email: Address, role: Role, invitation: Digest, paid: bool, user: UserId)
    requires user in db.users && db.users[user].email == Tombstone(user) && db.users[user].closing && NoPendingTo(db, Tombstone(user))
    ensures var r := Invite(db, actor, workspace, email, role, invitation, paid); r.Ok? ==> NoPendingTo(r.value, Tombstone(user))
  {
    if email == Tombstone(user) { assert Suppressed(db, email); }
  }

  lemma AcceptSilent(db: Database, read: Read, invitation: Digest, paid: bool, email: Address)
    requires NoPendingTo(db, email)
    ensures var r := Accept(db, read, invitation, paid); r.Ok? ==> NoPendingTo(r.value, email)
  {
  }

  lemma LeavingSilent(db: Database, user: UserId, hash: PasswordHash, subscriptions: Subscriptions, email: Address)
    requires NoPendingTo(db, email)
    ensures var r := RequestDeletion(db, user, hash, subscriptions); r.Ok? ==> NoPendingTo(r.value, email)
  {
    hide ClosingBlocked, ClosingSet, RevokeAll, UseAll, WithoutMember;
  }

  lemma FulfilSilent(db: Database, user: UserId, policy: Option<Policy>, b: Billing, a: Activity, email: Address)
    requires NoPendingTo(db, email)
    ensures var r := Fulfil(db, user, policy, b, a); r.Ok? ==> NoPendingTo(r.value, email)
  {
    hide ErasureRefusal, WithoutMember;
  }

  lemma {:induction false} StaysSilent(db: Database, steps: seq<Step>, user: UserId)
    requires Inv(db) && user in db.requests && db.requests[user].state == Erased && NoPendingTo(db, Tombstone(user))
    ensures NoPendingTo(Run(db, steps), Tombstone(user))
    decreases |steps|
  {
    hide Inv, Apply;
    if steps != [] {
      var db' := Later(db, steps[0].tick);
      LaterKeeps(db, steps[0].tick);
      ApplyStaysSilent(db', steps[0].action, user);
      ApplyRequests(db', steps[0].action);
      NextKeeps(db, steps[0]);
      assert RequestEvolves(db'.requests[user], Next(db, steps[0]).requests[user]);
      StaysSilent(Next(db, steps[0]), steps[1..], user);
    }
  }

  // ---- credentials ----

  /** Every unrevoked session was issued under its user's current password, and that user is not leaving. */
  lemma SessionsFollowPassword(steps: seq<Step>, d: Digest)
    requires var db := Run(EMPTY, steps); d in db.sessions && !db.sessions[d].revoked
    ensures var db := Run(EMPTY, steps); var s := db.sessions[d];
      s.user in db.users && s.issuedUnder == db.users[s.user].hash && !db.users[s.user].closing
  {
    hide Run;
    Reachable(steps);
    assert SessionOk(Run(EMPTY, steps).sessions[d], Run(EMPTY, steps).users);
  }

  /** At most one unused token per user and purpose. */
  lemma OneTokenEach(steps: seq<Step>, d: Digest, e: Digest)
    requires var tokens := Run(EMPTY, steps).tokens;
      && d in tokens && e in tokens && !tokens[d].used && !tokens[e].used
      && tokens[d].user == tokens[e].user && tokens[d].purpose == tokens[e].purpose
    ensures d == e
  {
    hide Run;
    Reachable(steps);
  }

  /** Once a token has been redeemed, no later redemption of it succeeds, for either purpose. */
  lemma RedeemedOnce(before: seq<Step>, redeeming: Step, after: seq<Step>, token: Digest, hash: PasswordHash)
    requires redeeming.action == Verifying(token) || redeeming.action == Resetting(token, hash)
    requires Attempted(Later(Run(EMPTY, before), redeeming.tick), redeeming.action).Ok?
    ensures var db := Run(EMPTY, before + [redeeming] + after);
      forall p: Purpose, tick: nat :: !Redeemable(Later(db, tick), token, p)
  {
    hide Run;
    var db := Later(Run(EMPTY, before), redeeming.tick);
    Reachable(before);
    RunOne(EMPTY, before, redeeming);
    RedeemingUses(db, token, redeeming.action);
    Continues(before + [redeeming], after);
    assert Spent(Run(EMPTY, before + [redeeming]).tokens, Run(EMPTY, before + [redeeming]).minted, token);
  }

  lemma RunOne(db: Database, before: seq<Step>, s: Step)
    ensures Run(db, before + [s]) == Next(Run(db, before), s)
  {
    RunAppend(db, before, [s]);
    assert [s][1..] == [];
    assert Run(Run(db, before), [s]) == Run(Next(Run(db, before), s), []);
  }

  lemma RedeemingUses(db: Database, token: Digest, a: Action)
    requires db.tokens.Keys <= db.minted
    requires (a.Verifying? && a.token == token) || (a.Resetting? && a.token == token)
    requires Attempted(db, a).Ok?
    ensures Spent(Apply(db, a).tokens, Apply(db, a).minted, token)
  {
    assert token in db.tokens.Keys;
  }

  // ---- erasure ----

  /** An erased account waited out its policy's retention, and every workspace it closed has its billing closed. */
  lemma ErasedOnlyWhenDue(steps: seq<Step>, user: UserId)
    requires var db := Run(EMPTY, steps); user in db.requests && db.requests[user].state == Erased
    ensures var db := Run(EMPTY, steps); var q := db.requests[user];
      && q.policy.Some? && q.erasedAt.Some?
      && q.erasedAt.value >= q.requestedAt + q.policy.value.retentionDays * DAY
      && AllClosed(db.closures, user)
  {
    hide Run;
    Reachable(steps);
    assert RequestOk(user, Run(EMPTY, steps).requests[user], Run(EMPTY, steps).users, Run(EMPTY, steps).closures);
  }

  /** Along any continuation a request never moves back, and an erased one never changes. */
  lemma RequestsOnlyAdvance(before: seq<Step>, after: seq<Step>, user: UserId)
    requires user in Run(EMPTY, before).requests
    ensures var q, q' := Run(EMPTY, before).requests[user], Run(EMPTY, before + after).requests;
      user in q' && Rank(q.state) <= Rank(q'[user].state) && (q.state == Erased ==> q'[user] == q)
  {
    hide Run, Inv;
    Continues(before, after);
    assert RequestEvolves(Run(EMPTY, before).requests[user], Run(EMPTY, before + after).requests[user]);
  }

  /** One step advances a request by at most one state: nothing is erased without having been reviewed. */
  lemma RequestsAdvanceStepwise(db: Database, s: Step, user: UserId)
    requires user in Next(db, s).requests
    ensures if user in db.requests
            then Rank(Next(db, s).requests[user].state) <= Rank(db.requests[user].state) + 1
            else Next(db, s).requests[user].state == Requested
  {
    hide Apply;
    ApplyRequests(Later(db, s.tick), s.action);
  }

  /** Closed closures never change; attempts stay within five; a closed subscription was read as ended. */
  lemma ClosuresAreProved(before: seq<Step>, after: seq<Step>, w: WorkspaceId)
    requires w in Run(EMPTY, before).closures
    ensures var c, later := Run(EMPTY, before).closures[w], Run(EMPTY, before + after).closures;
      && c.attempts <= 5
      && (c.state == Closed && c.subscription.Some? ==> ProofOk(w, c))
      && w in later && (c.state == Closed ==> later[w] == c)
  {
    hide Run;
    Continues(before, after);
    assert ClosureOk(w, Run(EMPTY, before).closures[w], Run(EMPTY, before).users);
    assert ClosureEvolves(Run(EMPTY, before).closures[w], Run(EMPTY, before + after).closures[w]);
  }
}
