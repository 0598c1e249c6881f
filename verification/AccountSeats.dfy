/** Members and live invitations never exceed a plan's seats while the plan does not shrink. */
module AccountSeats {
  import opened Common
  import opened Accounts
  import opened AccountInvariants
  import opened AccountSteps
  import opened AccountRuns

  /** Members plus live invitations fit the workspace's seats, once it exists. */
  predicate Fits(db: Database, w: WorkspaceId) {
    w in db.seats ==> |MembersOf(db.members, w)| + |LiveOf(db.invitations, w, db.clock)| <= db.seats[w]
  }

  /** The step does not give the workspace fewer seats. */
  predicate KeepsSeats(db: Database, a: Action, w: WorkspaceId) {
    a.Replanning? && a.workspace == w && w in db.seats ==> db.seats[w] <= a.seats
  }

  ghost predicate NeverShrinks(db: Database, steps: seq<Step>, w: WorkspaceId)
    decreases |steps|
  {
    steps != [] ==> KeepsSeats(Later(db, steps[0].tick), steps[0].action, w) && NeverShrinks(Next(db, steps[0]), steps[1..], w)
  }

  /** Fewer members and fewer live invitations still fit. */
  lemma FewerFit(db: Database, next: Database, w: WorkspaceId)
    requires Fits(db, w) && (w in next.seats ==> w in db.seats && db.seats[w] <= next.seats[w])
    requires MembersOf(next.members, w) <= MembersOf(db.members, w)
    requires LiveOf(next.invitations, w, next.clock) <= LiveOf(db.invitations, w, db.clock)
    ensures Fits(next, w)
  {
    SubsetSize(MembersOf(next.members, w), MembersOf(db.members, w));
    SubsetSize(LiveOf(next.invitations, w, next.clock), LiveOf(db.invitations, w, db.clock));
  }

  lemma LaterFits(db: Database, tick: nat, w: WorkspaceId)
    requires Fits(db, w)
    ensures Fits(Later(db, tick), w)
  {
    FewerFit(db, Later(db, tick), w);
  }

  lemma CreateFits(db: Database, user: UserId, workspace: WorkspaceId, freeSeats: Seats, w: WorkspaceId)
    requires Inv(db) && Fits(db, w)
    ensures var r := CreateWorkspace(db, user, workspace, freeSeats); r.Ok? ==> Fits(r.value, w)
  {
    hide WorkspacesOk, SessionsOk, TokensOk, OnePending, NoneToMember, FormerOk, UniqueEmails, InFlightOk, ClosuresOk, RequestsOk, MintedOk;
    var r := CreateWorkspace(db, user, workspace, freeSeats);
    if r.Ok? {
      if w == workspace {
        assert MembersOf(r.value.members, w) == {(w, user)};
        forall d | d in db.invitations ensures db.invitations[d].workspace != w {
          assert InvitationOk(db.invitations[d], db.users, db.creators, db.closures);
        }
        assert LiveOf(r.value.invitations, w, db.clock) == {};
      } else {
        assert MembersOf(r.value.members, w) == MembersOf(db.members, w);
      }
    }
  }

  /** A successful invitation leaves its workspace within its seats, whatever was true before. */
  lemma InvitedWithinSeats(
    db: Database, actor: UserId, workspace: WorkspaceId, email: Address, role: Role, invitation: Digest, paid: bool)
    requires db.invitations.Keys <= db.minted && Invite(db, actor, workspace, email, role, invitation, paid).Ok?
    ensures Fits(Invite(db, actor, workspace, email, role, invitation, paid).value, workspace)
  {
    var next := Invite(db, actor, workspace, email, role, invitation, paid).value;
    assert LiveOf(next.invitations, workspace, db.clock) == LiveForOthers(db.invitations, workspace, db.clock, email) + {invitation};
    assert invitation !in db.invitations.Keys;
  }

  lemma InviteFits(
    db: Database, actor: UserId, workspace: WorkspaceId, email: Address, role: Role, invitation: Digest, paid: bool, w: WorkspaceId)
    requires Fits(db, w) && db.invitations.Keys <= db.minted
    ensures var r := Invite(db, actor, workspace, email, role, invitation, paid); r.Ok? ==> Fits(r.value, w)
  {
    var r := Invite(db, actor, workspace, email, role, invitation, paid);
    if r.Ok? {
      if w == workspace {
        InvitedWithinSeats(db, actor, workspace, email, role, invitation, paid);
      } else {
        assert LiveOf(r.value.invitations, w, db.clock) <= LiveOf(db.invitations, w, db.clock);
        FewerFit(db, r.value, w);
      }
    }
  }

  lemma AcceptFits(db: Database, read: Read, invitation: Digest, paid: bool, w: WorkspaceId)
    requires Fits(db, w)
    ensures var r := Accept(db, read, invitation, paid); r.Ok? ==> Fits(r.value, w)
  {
    var r := Accept(db, read, invitation, paid);
    if r.Ok? {
      var i := db.invitations[invitation];
      if w == i.workspace {
        assert MembersOf(r.value.members, w) == MembersOf(db.members, w) + {(w, read.user)};
        assert invitation in LiveOf(db.invitations, w, db.clock);
        assert LiveOf(r.value.invitations, w, db.clock) == LiveOf(db.invitations, w, db.clock) - {invitation};
      } else {
        assert MembersOf(r.value.members, w) == MembersOf(db.members, w);
        assert LiveOf(r.value.invitations, w, db.clock) == LiveOf(db.invitations, w, db.clock);
      }
    }
  }

  lemma ChangeFits(db: Database, actor: UserId, workspace: WorkspaceId, target: UserId, role: Option<Role>, w: WorkspaceId)
    requires Fits(db, w)
    ensures var r := ChangeMember(db, actor, workspace, target, role); r.Ok? ==> Fits(r.value, w)
  {
    var r := ChangeMember(db, actor, workspace, target, role);
    if r.Ok? {
      assert MembersOf(r.value.members, w) <= MembersOf(db.members, w);
      FewerFit(db, r.value, w);
    }
  }

  lemma TransferFits(db: Database, actor: UserId, workspace: WorkspaceId, successor: UserId, passwordOk: bool, w: WorkspaceId)
    requires Fits(db, w)
    ensures var r := TransferOwnership(db, actor, workspace, successor, passwordOk); r.Ok? ==> Fits(r.value, w)
  {
    var r := TransferOwnership(db, actor, workspace, successor, passwordOk);
    if r.Ok? {
      assert MembersOf(r.value.members, w) <= MembersOf(db.members, w);
      FewerFit(db, r.value, w);
    }
  }

  lemma ReplanFits(db: Database, workspace: WorkspaceId, seats: Seats, w: WorkspaceId)
    requires Fits(db, w) && (workspace == w && w in db.seats ==> db.seats[w] <= seats) && db.seats.Keys == db.creators.Keys
    ensures var r := ChangePlan(db, workspace, seats); r.Ok? ==> Fits(r.value, w)
  {
    if workspace in db.creators {
      assert workspace in db.seats.Keys;
      FewerFit(db, ChangePlan(db, workspace, seats).value, w);
    }
  }

  lemma LeavingFits(db: Database, user: UserId, hash: PasswordHash, subscriptions: Subscriptions, w: WorkspaceId)
    requires Fits(db, w)
    ensures var r := RequestDeletion(db, user, hash, subscriptions); r.Ok? ==> Fits(r.value, w)
  {
    hide ClosingBlocked, ClosingSet, RevokeAll, UseAll;
    var r := RequestDeletion(db, user, hash, subscriptions);
    if r.Ok? {
      assert MembersOf(r.value.members, w) <= MembersOf(db.members, w);
      assert LiveOf(r.value.invitations, w, db.clock) <= LiveOf(db.invitations, w, db.clock);
      FewerFit(db, r.value, w);
    }
  }

  lemma FulfilFits(db: Database, user: UserId, policy: Option<Policy>, b: Billing, a: Activity, w: WorkspaceId)
    requires Fits(db, w)
    ensures var r := Fulfil(db, user, policy, b, a); r.Ok? ==> Fits(r.value, w)
  {
    hide ErasureRefusal;
    var r := Fulfil(db, user, policy, b, a);
    if r.Ok? {
      assert MembersOf(r.value.members, w) <= MembersOf(db.members, w);
      assert LiveOf(r.value.invitations, w, db.clock) <= LiveOf(db.invitations, w, db.clock);
      FewerFit(db, r.value, w);
    }
  }

  lemma MembershipFits(db: Database, a: Action, w: WorkspaceId)
    requires Inv(db) && Fits(db, w) && KeepsSeats(db, a, w) && IsMembership(a) && AttemptedMembership(db, a).Ok?
    ensures Fits(AttemptedMembership(db, a).value, w)
  {
    hide Inv, Fits, CreateWorkspace, ChangePlan, Invite, Accept, ChangeMember, TransferOwnership;
    InvKeys(db);
    match a
    case Creating(user, workspace, freeSeats) => CreateFits(db, user, workspace, freeSeats, w);
    case Replanning(workspace, seats) => ReplanFits(db, workspace, seats, w);
    case Inviting(actor, workspace, email, role, invitation, paid) => InviteFits(db, actor, workspace, email, role, invitation, paid, w);
    case Accepting(read, invitation, paid) => AcceptFits(db, read, invitation, paid, w);
    case Changing(actor, workspace, target, role) => ChangeFits(db, actor, workspace, target, role, w);
    case Transferring(actor, workspace, successor, passwordOk) => TransferFits(db, actor, workspace, successor, passwordOk, w);
  }

  lemma InvKeys(db: Database)
    requires Inv(db)
    ensures db.seats.Keys == db.creators.Keys && db.invitations.Keys <= db.minted
  {
    hide MembersOk, WorkspacesOk, SessionsOk, TokensOk, InvitationsOk, OnePending, NoneToMember, FormerOk, UniqueEmails, InFlightOk, ClosuresOk,
      RequestsOk;
  }

  lemma OffboardingFits(db: Database, a: Action, w: WorkspaceId)
    requires Fits(db, w) && !IsCredential(a) && !IsMembership(a) && AttemptedOffboarding(db, a).Ok?
    ensures Fits(AttemptedOffboarding(db, a).value, w)
  {
    hide Fits, RequestDeletion, Fulfil;
    if a.Leaving? {
      LeavingFits(db, a.user, a.readHash, a.subscriptions, w);
    } else if a.Fulfilling? {
      FulfilFits(db, a.user, a.policy, a.billing, a.activity, w);
    } else {
      hide AttemptedOffboarding;
      OffboardingFrames(db, a);
      FewerFit(db, AttemptedOffboarding(db, a).value, w);
    }
  }

  lemma ApplyFits(db: Database, a: Action, w: WorkspaceId)
    requires Inv(db) && Fits(db, w) && KeepsSeats(db, a, w)
    ensures Fits(Apply(db, a), w)
  {
    hide Inv, Fits, AttemptedCredential, AttemptedMembership, AttemptedOffboarding, KeepsSeats;
    if Attempted(db, a).Ok? {
      if IsMembership(a) { MembershipFits(db, a, w); }
      else if !IsCredential(a) { OffboardingFits(db, a, w); }
      else { FewerFit(db, AttemptedCredential(db, a).value, w); }
    }
  }

  lemma {:induction false} RunFits(db: Database, steps: seq<Step>, w: WorkspaceId)
    requires Inv(db) && Fits(db, w) && NeverShrinks(db, steps, w)
    ensures Fits(Run(db, steps), w)
    decreases |steps|
  {
    hide Inv, Fits, Apply, KeepsSeats;
    if steps != [] {
      LaterKeeps(db, steps[0].tick);
      LaterFits(db, steps[0].tick, w);
      ApplyFits(Later(db, steps[0].tick), steps[0].action, w);
      NextKeeps(db, steps[0]);
      RunFits(Next(db, steps[0]), steps[1..], w);
    }
  }

  /** While a workspace's plan never shrinks, its members and live invitations fit its seats. */
  lemma SeatsNeverExceeded(steps: seq<Step>, w: WorkspaceId)
    requires NeverShrinks(EMPTY, steps, w)
    ensures Fits(Run(EMPTY, steps), w)
  {
    hide Run, NeverShrinks, Inv;
    EmptyOk();
    RunFits(EMPTY, steps, w);
  }

  /** At most one unused invitation per workspace and address, and none to a current member. */
  lemma InvitationsAreDistinct(steps: seq<Step>, d: Digest, e: Digest)
    requires var i := Run(EMPTY, steps).invitations;
      d in i && e in i && !i[d].used && !i[e].used && i[d].workspace == i[e].workspace && i[d].email == i[e].email
    ensures d == e && !MemberAddress(Run(EMPTY, steps), Run(EMPTY, steps).invitations[d].workspace, Run(EMPTY, steps).invitations[d].email)
  {
    hide Run;
    Reachable(steps);
    var db := Run(EMPTY, steps);
    assert Outsider(db.invitations[d], db.users, db.members);
  }

  /** So nobody is refused a live invitation for lack of seats. */
  lemma NeverRefusedForSeats(steps: seq<Step>, tick: nat, read: Read, invitation: Digest, paid: bool)
    requires var db := Run(EMPTY, steps); invitation in db.invitations && NeverShrinks(EMPTY, steps, db.invitations[invitation].workspace)
    ensures Accept(Later(Run(EMPTY, steps), tick), read, invitation, paid) != Err(SeatsExhausted)
  {
    hide Run, NeverShrinks;
    var db := Run(EMPTY, steps);
    SeatsNeverExceeded(steps, db.invitations[invitation].workspace);
    LaterFits(db, tick, db.invitations[invitation].workspace);
    LiveHasSeat(Later(db, tick), read, invitation, paid);
  }

  lemma LiveHasSeat(db: Database, read: Read, invitation: Digest, paid: bool)
    requires invitation in db.invitations && Fits(db, db.invitations[invitation].workspace)
    ensures Accept(db, read, invitation, paid) != Err(SeatsExhausted)
  {
    var w := db.invitations[invitation].workspace;
    if db.invitations[invitation].Live(db.clock) {
      SubsetSize({invitation}, LiveOf(db.invitations, w, db.clock));
    }
  }
}
