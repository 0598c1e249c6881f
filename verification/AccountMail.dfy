/**
 The account tables and the e-mail outbox together. An account transaction and what it
 writes to the outbox are one step; workers and senders of mail interleave with them.
 */
module AccountMail {
  import opened Common
  import opened Accounts
  import opened AccountInvariants
  import opened AccountSteps
  import opened AccountRuns
  import opened AccountTheorems
  import Mail = EmailOutbox

  datatype World = World(db: Database, mail: Mail.System)

  datatype Event = OfAccounts(account: Action) | OfMail(mail: Mail.Action)

  datatype Moment = Moment(tick: nat, event: Event)

  const START: World := World(EMPTY, Mail.INITIAL)

  predicate IsDeparture(db: Database, a: Action) { a.Leaving? && a.user in db.users }

  predicate IsErasure(db: Database, a: Action) {
    a.Fulfilling? && a.user in db.users && a.user in db.requests && db.requests[a.user].state != Erased
  }

  predicate IsRegistration(db: Database, a: Action) { a.SigningUp? && !AddressTaken(db.users, a.email) }

  /** What a transaction that succeeds writes to the outbox, besides queueing mail. */
  function OutboxWrite(db: Database, a: Action): Mail.Action {
    if IsDeparture(db, a) then Mail.BeginDeletion(a.user, db.users[a.user].email)
    else if IsErasure(db, a) then Mail.Erase(a.user, db.users[a.user].email, Tombstone(a.user))
    else if IsRegistration(db, a) then Mail.Reopen(a.email)
    else Mail.Idle
  }

  /** Erasure sees the unexpired leases of the mail it would delete. */
  predicate SeesMail(w: World, a: Action) {
    IsErasure(w.db, a) && Mail.Busy(w.mail, a.user, w.db.users[a.user].email) ==> a.activity.email
  }

  predicate IsMailWork(a: Mail.Action) { a.Enqueue? || a.Claim? || a.Deliver? || a.Complete? || a.Crash? || a.Idle? }

  ghost function Happen(w: World, e: Event): World {
    match e
    case OfAccounts(a) =>
      if Attempted(w.db, a).Ok? && SeesMail(w, a) then World(Attempted(w.db, a).value, Mail.Apply(w.mail, OutboxWrite(w.db, a))) else w
    case OfMail(a) => if IsMailWork(a) then w.(mail := Mail.Apply(w.mail, a)) else w
  }

  function Wait(w: World, tick: nat): World { World(Later(w.db, tick), w.mail.(clock := w.mail.clock + tick)) }

  ghost function After(w: World, m: Moment): World { Happen(Wait(w, m.tick), m.event) }

  ghost function Course(w: World, ms: seq<Moment>): World
    decreases |ms|
  {
    if ms == [] then w else Course(After(w, ms[0]), ms[1..])
  }

  // ---- the two halves agree on who is leaving and where mail is held back ----

  predicate SameClosing(db: Database, closing: set<UserId>) {
    (forall u :: u in closing ==> u in db.users && db.users[u].closing) && (forall u :: u in db.users && db.users[u].closing ==> u in closing)
  }

  ghost predicate SameSilence(db: Database, silenced: set<Address>) { forall e: Address :: e in silenced <==> Suppressed(db, e) }

  ghost predicate Linked(w: World) { SameClosing(w.db, w.mail.closing) && SameSilence(w.db, w.mail.silenced) }

  ghost predicate WorldOk(w: World) { Inv(w.db) && Mail.Inv(w.mail) && Linked(w) }

  /** Nobody's address or standing changes, and no closed account's address does. */
  predicate SameAddresses(a: Database, b: Database) {
    && a.users.Keys == b.users.Keys
    && (forall u :: u in a.users && u in b.users ==> a.users[u].email == b.users[u].email && a.users[u].closing == b.users[u].closing)
    && a.requests.Keys == b.requests.Keys && (forall u :: u in a.requests && u in b.requests ==> a.requests[u].address == b.requests[u].address)
  }

  lemma SameUsers(a: Database, b: Database, u: UserId)
    requires SameAddresses(a, b)
    ensures u in a.users <==> u in b.users
    ensures u in a.requests <==> u in b.requests
  {
    assert u in a.users.Keys <==> u in b.users.Keys;
    assert u in a.requests.Keys <==> u in b.requests.Keys;
  }

  lemma SuppressionCarries(a: Database, b: Database, e: Address)
    requires SameAddresses(a, b) && Suppressed(a, e)
    ensures Suppressed(b, e)
  {
    if AddressTaken(a.users, e) {
      var u :| u in a.users && a.users[u].email == e && a.users[u].closing;
      SameUsers(a, b, u);
      assert b.users[u].email == e && b.users[u].closing;
    } else {
      var u :| u in a.requests && a.requests[u].address == e;
      SameUsers(a, b, u);
      assert b.requests[u].address == e;
      forall v | v in b.users ensures b.users[v].email != e { SameUsers(a, b, v); }
    }
  }

  lemma LinkCarries(w: World, db: Database)
    requires Linked(w) && SameAddresses(w.db, db)
    ensures Linked(World(db, w.mail))
  {
    hide Suppressed;
    forall u | u in w.mail.closing ensures u in db.users && db.users[u].closing { SameUsers(w.db, db, u); }
    forall u | u in db.users && db.users[u].closing ensures u in w.mail.closing { SameUsers(w.db, db, u); }
    forall e: Address ensures e in w.mail.silenced <==> Suppressed(db, e) {
      if Suppressed(w.db, e) { SuppressionCarries(w.db, db, e); }
      if Suppressed(db, e) { SuppressionCarries(db, w.db, e); }
    }
  }

  lemma SameTables(a: Database, b: Database)
    requires b.users == a.users && b.requests == a.requests
    ensures SameAddresses(a, b)
  {
  }

  lemma CredentialAddresses(db: Database, a: Action)
    requires IsCredential(a) && AttemptedCredential(db, a).Ok? && !IsRegistration(db, a)
    ensures SameAddresses(db, AttemptedCredential(db, a).value)
  {
    hide IssueToken, Login, Rotate, ForgotPassword, ResendVerification, Logout, RevokeSession, Authenticate, RevokeAll, AddressTaken;
  }

  lemma OffboardingAddresses(db: Database, a: Action)
    requires !IsCredential(a) && !IsMembership(a) && AttemptedOffboarding(db, a).Ok? && !IsDeparture(db, a) && !IsErasure(db, a)
    ensures SameAddresses(db, AttemptedOffboarding(db, a).value)
  {
    hide CloseBilling, ReviewClosure, BillingRefusal, ErasureRefusal, ClosingBlocked, Closing, Erasing;
  }

  lemma OtherAddresses(db: Database, a: Action)
    requires Attempted(db, a).Ok? && !IsRegistration(db, a) && !IsDeparture(db, a) && !IsErasure(db, a)
    ensures SameAddresses(db, Attempted(db, a).value)
  {
    hide AttemptedCredential, AttemptedMembership, AttemptedOffboarding, IsRegistration, IsDeparture, IsErasure, SameAddresses;
    if IsCredential(a) {
      CredentialAddresses(db, a);
    } else if IsMembership(a) {
      SameTables(db, Attempted(db, a).value);
    } else {
      OffboardingAddresses(db, a);
    }
  }

  // ---- departures, erasures and registrations ----

  lemma DepartureSilences(db: Database, user: UserId, subscriptions: Subscriptions, e: Address)
    requires user in db.users && user !in db.requests && UniqueEmails(db.users)
    ensures Suppressed(Closing(db, user, subscriptions), e) <==> Suppressed(db, e) || e == db.users[user].email
  {
    hide ClosingSet, WithdrawInvitations, RevokeAll, UseAll, WithoutMember;
    var next := Closing(db, user, subscriptions);
    assert next.users[user].closing && next.users[user].email == db.users[user].email;
    assert AddressTaken(next.users, e) <==> AddressTaken(db.users, e) by {
      if AddressTaken(db.users, e) {
        var u :| u in db.users && db.users[u].email == e;
        assert next.users[u].email == e;
      }
    }
    if e == db.users[user].email {
      assert AddressTaken(next.users, e);
    } else if AddressTaken(db.users, e) {
      assert forall u :: u in db.users && db.users[u].email == e ==> next.users[u] == db.users[u];
    } else {
      assert forall u :: u in db.requests ==> u in next.requests && next.requests[u] == db.requests[u];
    }
  }

  lemma ErasureSilences(db: Database, user: UserId, e: Address)
    requires user in db.users && user in db.requests && UniqueEmails(db.users) && UniqueEmails(Erasing(db, user).users)
    requires db.users[user].closing && db.requests[user].address == db.users[user].email
    ensures Suppressed(Erasing(db, user), e) <==> Suppressed(db, e) || e == Tombstone(user)
  {
    hide WithoutMember, SessionsWithout, TokensWithout, InvitationsWithout, ReadsWithout;
    var next := Erasing(db, user);
    assert next.users[user].email == Tombstone(user) && next.users[user].closing;
    assert forall u :: u in db.users && u != user ==> u in next.users && next.users[u] == db.users[u];
    assert forall u :: u in db.requests ==> u in next.requests && next.requests[u].address == db.requests[u].address;
    if e == db.users[user].email && e != Tombstone(user) {
      assert AddressTaken(db.users, e);
      assert forall u :: u in next.users ==> next.users[u].email != e;
    }
  }

  lemma RegistrationReopens(db: Database, user: UserId, row: User, tokens: Tokens, minted: set<Digest>, e: Address)
    requires !AddressTaken(db.users, row.email) && user !in db.users && !row.closing
    ensures var next := db.(users := db.users[user := row], tokens := tokens, minted := minted);
      Suppressed(next, e) <==> Suppressed(db, e) && e != row.email
  {
    var next := db.(users := db.users[user := row], tokens := tokens, minted := minted);
    assert next.users[user] == row;
    assert forall u :: u in db.users ==> next.users[u] == db.users[u];
    if e == row.email { assert AddressTaken(next.users, e); }
  }

  lemma DepartureIs(db: Database, a: Action)
    requires IsDeparture(db, a) && Attempted(db, a).Ok?
    ensures Attempted(db, a).value == Closing(db, a.user, a.subscriptions) && a.user !in db.requests
  {
    hide ClosingBlocked, Closing, WorkspacesOf;
  }

  lemma DepartureLinks(w: World, a: Action)
    requires WorldOk(w) && IsDeparture(w.db, a) && Attempted(w.db, a).Ok?
    ensures Linked(Happen(w, OfAccounts(a)))
  {
    hide Inv, Suppressed, Attempted, ClosingSet, WithdrawInvitations, RevokeAll, UseAll, WithoutMember, Mail.Inv, Mail.CancelQueued, UniqueEmails;
    var next := Closing(w.db, a.user, a.subscriptions);
    InvUnique(w.db);
    DepartureIs(w.db, a);
    forall e: Address ensures e in w.mail.silenced + {w.db.users[a.user].email} <==> Suppressed(next, e) {
      DepartureSilences(w.db, a.user, a.subscriptions, e);
    }
  }

  lemma InvUnique(db: Database)
    requires Inv(db)
    ensures UniqueEmails(db.users)
  {
  }

  lemma ErasureIs(db: Database, a: Action)
    requires IsErasure(db, a) && Attempted(db, a).Ok?
    ensures Attempted(db, a).value == Erasing(db, a.user) && !a.activity.email
  {
    hide BillingRefusal, Erasing;
  }

  lemma ErasureFacts(db: Database, a: Action)
    requires Inv(db) && IsErasure(db, a) && Attempted(db, a).Ok?
    ensures UniqueEmails(db.users) && UniqueEmails(Erasing(db, a.user).users)
    ensures db.users[a.user].closing && db.requests[a.user].address == db.users[a.user].email
  {
    hide Inv, Attempted, Erasing, UniqueEmails;
    ErasureIs(db, a);
    ApplyKeeps(db, a);
    InvUnique(db);
    InvUnique(Erasing(db, a.user));
    InvRequest(db, a.user);
  }

  lemma ErasureLinks(w: World, a: Action)
    requires WorldOk(w) && IsErasure(w.db, a) && Attempted(w.db, a).Ok? && SeesMail(w, a)
    ensures Linked(Happen(w, OfAccounts(a)))
  {
    hide Inv, Suppressed, Attempted, WithoutMember, SessionsWithout, TokensWithout, InvitationsWithout, ReadsWithout, Mail.Inv, Mail.Busy, UniqueEmails;
    var next := Erasing(w.db, a.user);
    ErasureIs(w.db, a);
    ErasureFacts(w.db, a);
    forall e: Address ensures e in w.mail.silenced + {Tombstone(a.user)} <==> Suppressed(next, e) { ErasureSilences(w.db, a.user, e); }
  }

  lemma RegistrationIs(db: Database, a: Action)
    requires IsRegistration(db, a) && Attempted(db, a).Ok?
    ensures var next := Attempted(db, a).value;
      a.user !in db.users
      && next == db.(users := db.users[a.user := User(a.email, a.hash, false, false)], tokens := next.tokens, minted := next.minted)
  {
    hide IssueToken, AddressTaken;
  }

  lemma RegistrationLinks(w: World, a: Action)
    requires WorldOk(w) && IsRegistration(w.db, a) && Attempted(w.db, a).Ok?
    ensures Linked(Happen(w, OfAccounts(a)))
  {
    hide Inv, Suppressed, Attempted, AddressTaken, Mail.Inv;
    var next := Attempted(w.db, a).value;
    var row := User(a.email, a.hash, false, false);
    RegistrationIs(w.db, a);
    forall e: Address ensures e in w.mail.silenced - {a.email} <==> Suppressed(next, e) {
      RegistrationReopens(w.db, a.user, row, next.tokens, next.minted, e);
    }
  }

  lemma AccountLinks(w: World, a: Action)
    requires WorldOk(w) && Attempted(w.db, a).Ok? && SeesMail(w, a)
    ensures Linked(Happen(w, OfAccounts(a)))
  {
    hide Inv, Mail.Inv, Attempted, Linked, IsDeparture, IsErasure, IsRegistration;
    if IsDeparture(w.db, a) {
      DepartureLinks(w, a);
    } else if IsErasure(w.db, a) {
      ErasureLinks(w, a);
    } else if IsRegistration(w.db, a) {
      RegistrationLinks(w, a);
    } else {
      OtherAddresses(w.db, a);
      LinkCarries(w, Attempted(w.db, a).value);
    }
  }

  lemma MailWorkLinks(w: World, a: Mail.Action)
    requires Linked(w) && IsMailWork(a)
    ensures Linked(w.(mail := Mail.Apply(w.mail, a)))
  {
    hide SameClosing, SameSilence, Mail.Sweep, Mail.Record;
  }

  lemma HappenKeeps(w: World, e: Event)
    requires WorldOk(w)
    ensures WorldOk(Happen(w, e))
  {
    hide Inv, Mail.Inv, Linked, Attempted, Mail.Apply, SeesMail, OutboxWrite;
    match e
    case OfAccounts(a) =>
      if Attempted(w.db, a).Ok? && SeesMail(w, a) {
        ApplyKeeps(w.db, a);
        Mail.ApplyKeeps(w.mail, OutboxWrite(w.db, a));
        AccountLinks(w, a);
      }
    case OfMail(a) =>
      Mail.ApplyKeeps(w.mail, a);
      if IsMailWork(a) { MailWorkLinks(w, a); }
  }

  lemma WaitKeeps(w: World, tick: nat)
    requires WorldOk(w)
    ensures WorldOk(Wait(w, tick))
  {
    LaterKeeps(w.db, tick);
    Mail.TickKeeps(w.mail, tick);
    SameTables(w.db, Later(w.db, tick));
    LinkCarries(w, Later(w.db, tick));
    hide Inv, Mail.Inv, Suppressed;
  }

  lemma {:induction false} CourseKeeps(w: World, ms: seq<Moment>)
    requires WorldOk(w)
    ensures WorldOk(Course(w, ms))
    decreases |ms|
  {
    hide WorldOk, Happen, Wait;
    if ms != [] {
      WaitKeeps(w, ms[0].tick);
      HappenKeeps(Wait(w, ms[0].tick), ms[0].event);
      CourseKeeps(After(w, ms[0]), ms[1..]);
    }
  }

  /** Accounts and outbox keep their invariants and agree, after every course of events from empty tables. */
  lemma WorldsAgree(ms: seq<Moment>)
    ensures WorldOk(Course(START, ms))
  {
    hide Course, WorldOk;
    StartOk();
    CourseKeeps(START, ms);
  }

  lemma StartOk()
    ensures WorldOk(START)
  {
    EmptyOk();
    Mail.EmptyOk();
    hide Inv, Mail.Inv;
  }

  // ---- deletion is final, end to end ----

  lemma DepartedStays(w: World, e: Event, user: UserId)
    requires user in w.db.requests
    ensures user in Happen(w, e).db.requests
  {
    hide Attempted;
    if e.OfAccounts? { ApplyRequests(w.db, e.account); }
  }

  lemma {:induction false} DepartedForever(w: World, ms: seq<Moment>, user: UserId)
    requires user in w.db.requests
    ensures user in Course(w, ms).db.requests
    decreases |ms|
  {
    hide Happen;
    if ms != [] {
      DepartedStays(Wait(w, ms[0].tick), ms[0].event, user);
      DepartedForever(After(w, ms[0]), ms[1..], user);
    }
  }

  lemma NoRowOfTheirs(s: Mail.System, a: Mail.Action, user: UserId, t: Mail.Leases.Token)
    requires user in s.closing && t !in s.leases && t in Mail.Apply(s, a).leases
    ensures t in Mail.Apply(s, a).workers && Mail.Apply(s, a).workers[t].user != user
  {
    assert s.(clock := s.clock + 0) == s;
    Mail.NothingDone(s);
    Mail.ClosingNeverClaimed(s, [], Mail.Step(0, a), user, t);
  }

  /**
   Once a departure has committed, nothing of the account is usable at any later time, and no later event hands a mail
   worker one of its rows, whatever requests and workers were under way.
   */
  lemma DeletionIsFinal(before: seq<Moment>, after: seq<Moment>, next: Event, user: UserId, t: nat)
    requires user in Course(START, before).db.requests
    ensures var w := Course(Course(START, before), after);
      && Powerless(w.db, user) && user in w.mail.closing
      && (t !in w.mail.leases && t in Happen(w, next).mail.leases ==>
            t in Happen(w, next).mail.workers && Happen(w, next).mail.workers[t].user != user)
  {
    hide Course, Inv, Mail.Inv, Attempted, Mail.Apply;
    WorldsAgree(before);
    CourseKeeps(Course(START, before), after);
    DepartedForever(Course(START, before), after, user);
    var w := Course(Course(START, before), after);
    DepartedIsPowerless(w.db, user);
    if t !in w.mail.leases && t in Happen(w, next).mail.leases {
      NoRowOfTheirs(w.mail, if next.OfAccounts? then OutboxWrite(w.db, next.account) else next.mail, user, t);
    }
  }

  /** Nobody registers the address along the way. */
  ghost predicate StaysUnregistered(w: World, ms: seq<Moment>, e: Address)
    decreases |ms|
  {
    ms != [] ==> !Registered(After(w, ms[0]).db.users, e) && StaysUnregistered(After(w, ms[0]), ms[1..], e)
  }

  lemma RegisteringRegisters(db: Database, a: Action)
    requires IsRegistration(db, a) && Attempted(db, a).Ok?
    ensures Registered(Attempted(db, a).value.users, a.email)
  {
    hide IssueToken, AddressTaken;
    assert Attempted(db, a).value.users[a.user] == User(a.email, a.hash, false, false);
  }

  lemma QuietHappens(w: World, event: Event, e: Address)
    requires WorldOk(w) && Mail.Quiet(w.mail, e) && !Registered(Happen(w, event).db.users, e)
    ensures Mail.Quiet(Happen(w, event).mail, e)
  {
    hide Inv, Mail.Inv, Linked, Attempted, Mail.Apply, Mail.Quiet, Registered, IsDeparture, IsErasure;
    match event
    case OfAccounts(a) =>
      if Attempted(w.db, a).Ok? && SeesMail(w, a) {
        if IsRegistration(w.db, a) { RegisteringRegisters(w.db, a); }
        Mail.QuietByAction(w.mail, OutboxWrite(w.db, a), e);
      }
    case OfMail(a) =>
      if IsMailWork(a) { Mail.QuietByAction(w.mail, a, e); }
  }

  /**
   The address somebody left with: if no mail to it was being sent with attempts to spare when the departure committed, no
   later event hands out a row to it until somebody registers the address anew.
   */
  lemma {:induction false} AddressIsFinal(w: World, ms: seq<Moment>, e: Address)
    requires WorldOk(w) && Mail.Quiet(w.mail, e) && StaysUnregistered(w, ms, e)
    ensures Mail.Quiet(Course(w, ms).mail, e)
    ensures forall step: Mail.Step, t: nat :: !Mail.HandsOut(Course(w, ms).mail, step, t, e)
    decreases |ms|
  {
    hide WorldOk, Happen, Registered;
    if ms == [] {
      forall step: Mail.Step, t: nat ensures !Mail.HandsOut(w.mail, step, t, e) { Mail.QuietHandsOutNothing(w.mail, step, t, e); }
    } else {
      hide Mail.HandsOut, Mail.Quiet;
      var at := Wait(w, ms[0].tick);
      WaitKeeps(w, ms[0].tick);
      QuietWaits(w.mail, ms[0].tick, e);
      QuietHappens(at, ms[0].event, e);
      HappenKeeps(at, ms[0].event);
      AddressIsFinal(After(w, ms[0]), ms[1..], e);
    }
  }

  lemma QuietWaits(s: Mail.System, tick: nat, e: Address)
    requires Mail.Quiet(s, e)
    ensures Mail.Quiet(s.(clock := s.clock + tick), e)
  {
  }

  /** And that is exactly when the departure leaves the address quiet. */
  lemma DepartureIsQuietIff(w: World, a: Action)
    requires IsDeparture(w.db, a) && Attempted(w.db, a).Ok?
    ensures var next, e := Happen(w, OfAccounts(a)), w.db.users[a.user].email;
      Mail.Quiet(next.mail, e) <==> forall id :: !Mail.Exposed(next.mail, e, id)
  {
    hide Attempted, Mail.Quiet, Mail.Exposed;
    Mail.DepartureExposes(w.mail, a.user, w.db.users[a.user].email);
  }
}
