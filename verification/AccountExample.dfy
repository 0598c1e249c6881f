/** A run after which an erased account's new address has a live invitation. */
module AccountExample {
  import opened Common
  import opened Accounts
  import opened AccountRuns

  const POLICY := Policy(1, 0)
  const NO_BILLING := Billing(map[], {})
  const IDLE := Activity(false, false, false)

  /** Appends one step that takes no time and succeeds. */
  lemma Extend(steps: seq<Step>, a: Action, next: Database) returns (longer: seq<Step>)
    requires Attempted(Run(EMPTY, steps), a) == Ok(next)
    ensures Run(EMPTY, longer) == next
  {
    hide Attempted;
    longer := steps + [Step(0, a)];
    RunAppend(EMPTY, steps, [Step(0, a)]);
    var db := Run(EMPTY, steps);
    assert Later(db, 0) == db;
    assert [Step(0, a)][1..] == [];
    assert Run(db, [Step(0, a)]) == Run(Next(db, Step(0, a)), []);
  }

  /** Exactly these users, and no workspace, invitation, closure or request. */
  predicate Only(db: Database, users: Users, minted: set<Digest>) {
    && db.clock == 0 && db.users == users && db.creators == map[] && db.seats == map[] && db.members == map[] && db.invitations == map[]
    && db.closures == map[] && db.requests == map[] && db.minted == minted
  }

  lemma SignsUp(steps: seq<Step>, users: Users, minted: set<Digest>, user: UserId, hash: PasswordHash, token: Digest)
    returns (longer: seq<Step>)
    requires Only(Run(EMPTY, steps), users, minted) && user !in users && token !in minted && !AddressTaken(users, Mailbox(user))
    ensures Only(Run(EMPTY, longer), users[user := User(Mailbox(user), hash, true, false)], minted + {token})
  {
    hide Run, AddressTaken, UseUp;
    var db := Run(EMPTY, steps);
    var signed := Signup(db, user, Mailbox(user), hash, token).value;
    longer := Extend(steps, SigningUp(user, Mailbox(user), hash, token), signed);
    assert Redeemable(signed, token, Verify);
    var verified := VerifyEmail(signed, token).value;
    longer := Extend(longer, Verifying(token), verified);
    assert verified.users == users[user := User(Mailbox(user), hash, true, false)];
  }

  lemma Creates(steps: seq<Step>, users: Users, minted: set<Digest>) returns (longer: seq<Step>)
    requires Only(Run(EMPTY, steps), users, minted) && 1 in users && !users[1].closing
    ensures var db := Run(EMPTY, longer);
      && db.clock == 0 && db.users == users && db.creators == map[0 := 1] && db.seats == map[0 := 2 as Seats] && db.members == map[(0, 1) := Owner]
      && db.invitations == map[] && db.closures == map[] && db.requests == map[] && db.minted == minted
  {
    hide Run;
    var db := Run(EMPTY, steps);
    assert CreatedBy(db.creators, 1) == {};
    longer := Extend(steps, Creating(1, 0, 2), CreateWorkspace(db, 1, 0, 2).value);
  }

  predicate OnlyInvited(db: Database, users: Users) {
    && db.clock == 0 && db.users == users && db.members == map[(0, 1) := Owner] && db.closures == map[] && db.requests == map[]
    && db.invitations == map[301 := Invitation(0, 1, Tombstone(2), Member, 7 * DAY, false)]
  }

  lemma Invites(steps: seq<Step>, users: Users) returns (longer: seq<Step>)
    requires var db := Run(EMPTY, steps);
      && db.clock == 0 && db.users == users && db.creators == map[0 := 1] && db.seats == map[0 := 2 as Seats] && db.members == map[(0, 1) := Owner]
      && db.invitations == map[] && db.closures == map[] && db.requests == map[] && 301 !in db.minted
    requires 1 in users && !users[1].closing && !AddressTaken(users, Tombstone(2))
    ensures OnlyInvited(Run(EMPTY, longer), users)
  {
    hide Run;
    var db := Run(EMPTY, steps);
    assert MembersOf(db.members, 0) == {(0, 1)};
    assert LiveForOthers(db.invitations, 0, 0, Tombstone(2)) == {};
    assert !MemberAddress(db, 0, Tombstone(2));
    longer := Extend(steps, Inviting(1, 0, Tombstone(2), Member, 301, true), Invite(db, 1, 0, Tombstone(2), Member, 301, true).value);
    assert Supersede(db.invitations, 0, Tombstone(2)) == map[];
  }

  predicate Left(db: Database, state: RequestState) {
    && db.clock == 0 && 1 in db.users && 2 in db.users && db.users.Keys == {1, 2} && db.users[1].email == Mailbox(1)
    && db.users[2].email == Mailbox(2) && db.closures == map[]
    && 2 in db.requests && db.requests[2].state == state && db.requests[2].requestedAt == 0
    && (state == Reviewed ==> db.requests[2].policy == Some(POLICY) && db.requests[2].erasureAfter == Some(0))
    && 301 in db.invitations && db.invitations[301] == Invitation(0, 1, Tombstone(2), Member, 7 * DAY, false)
  }

  lemma Leaves(steps: seq<Step>, users: Users) returns (longer: seq<Step>)
    requires OnlyInvited(Run(EMPTY, steps), users) && users.Keys == {1, 2} && 1 in users && users[1].email == Mailbox(1)
    requires 2 in users && users[2] == User(Mailbox(2), 12, true, false)
    ensures Left(Run(EMPTY, longer), Requested)
  {
    hide Run, Closing, ClosingSet, ClosingBlocked, Left, OnlyInvited;
    var db := Run(EMPTY, steps);
    NothingToClose(db, users);
    longer := Extend(steps, Leaving(2, 12, map[]), Closing(db, 2, map[]));
    ClosingLeaves(db, users);
  }

  lemma NothingToClose(db: Database, users: Users)
    requires OnlyInvited(db, users) && 2 in users && users[2] == User(Mailbox(2), 12, true, false)
    ensures ClosingSet(db, 2) == {} && RequestDeletion(db, 2, 12, map[]) == Ok(Closing(db, 2, map[]))
  {
    hide Closing, OtherActive;
    assert WorkspacesOf(db.members, 2) == {};
    assert ClosingSet(db, 2) == {} && ClosingBlocked(db, 2, map[]) == {};
  }

  lemma ClosingLeaves(db: Database, users: Users)
    requires OnlyInvited(db, users) && users.Keys == {1, 2} && 1 in users && users[1].email == Mailbox(1)
    requires 2 in users && users[2] == User(Mailbox(2), 12, true, false) && ClosingSet(db, 2) == {}
    ensures Left(Closing(db, 2, map[]), Requested)
  {
    hide RevokeAll, UseAll, ClosingSet, WithoutMember;
  }

  lemma IsReviewed(steps: seq<Step>) returns (longer: seq<Step>)
    requires Left(Run(EMPTY, steps), Requested)
    ensures Left(Run(EMPTY, longer), Reviewed)
  {
    hide Run;
    var db := Run(EMPTY, steps);
    assert Unsettled(db.closures, 2, NO_BILLING) == {};
    longer := Extend(steps, ReviewingRequest(2, Some(POLICY), true, NO_BILLING), ReviewRequest(db, 2, Some(POLICY), true, NO_BILLING).value);
  }

  lemma IsErased(steps: seq<Step>) returns (longer: seq<Step>)
    requires Left(Run(EMPTY, steps), Reviewed)
    ensures var db := Run(EMPTY, longer);
      && 2 in db.users && db.users[2].email == Tombstone(2)
      && 301 in db.invitations && db.invitations[301].Live(db.clock) && db.invitations[301].email == Tombstone(2)
  {
    hide Run, WithoutMember;
    var db := Run(EMPTY, steps);
    assert Unsettled(db.closures, 2, NO_BILLING) == {};
    assert forall u :: u in db.users ==> u in db.users.Keys;
    assert ErasureRefusal(db, 2, POLICY, NO_BILLING, IDLE).None?;
    longer := Extend(steps, Fulfilling(2, Some(POLICY), NO_BILLING, IDLE), Erasing(db, 2));
  }

  /**
   An owner invites the address user 2 would be given, and then user 2 leaves and is
   erased: the invitation is live and addressed to the erased account.
   */
  lemma ErasedAccountCanHaveInvitation() returns (steps: seq<Step>, d: Digest, user: UserId)
    ensures var db := Run(EMPTY, steps);
      && user in db.users && d in db.invitations && db.invitations[d].Live(db.clock)
      && db.users[user].email == Tombstone(user) == db.invitations[d].email
  {
    hide Run, Only, OnlyInvited, Left;
    Starts();
    steps := SignsUp([], map[], {}, 1, 11, 101);
    var one: Users := map[1 := User(Mailbox(1), 11, true, false)];
    assert map[][1 := User(Mailbox(1), 11, true, false)] == one;
    steps := SignsUp(steps, one, {} + {101}, 2, 12, 102);
    var both := one[2 := User(Mailbox(2), 12, true, false)];
    steps := Creates(steps, both, {} + {101} + {102});
    steps := Invites(steps, both);
    steps := Leaves(steps, both);
    steps := IsReviewed(steps);
    steps := IsErased(steps);
    d, user := 301, 2;
  }

  lemma Starts()
    ensures Only(Run(EMPTY, []), map[], {})
  {
  }
}
