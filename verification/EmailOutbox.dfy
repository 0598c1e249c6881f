/**
 The transactional e-mail outbox: many workers claim rows under expiring, fenced
 leases, send, and record the result in a second transaction. A crash is a worker
 that never records anything. Account closure cancels queued rows and erasure
 deletes them.

 Each transaction is one atomic step. Instants count microseconds and never go back.
 */
module EmailOutbox {
  import opened Common
  import opened Leases

  type RowId = nat

  type Recipient = Address

  const LEASE: int := 120 * SECOND
  const MAX_ATTEMPTS: nat := 5

  datatype RowState = Queued | Sending | Delivered | Failed | Cancelled

  datatype Row = Row(
    user: UserId, recipient: Recipient, state: RowState, attempts: nat, availableAt: int,
    leaseToken: Option<Token>, leaseUntil: Option<int>, createdAt: int)
  {
    predicate Terminal() { state == Delivered || state == Failed || state == Cancelled }

    /** The lease of a row being sent has run out. */
    predicate Expired(now: int) { state == Sending && leaseUntil.Some? && leaseUntil.value <= now }

    predicate Claimable(now: int) {
      (state == Queued || Expired(now)) && availableAt <= now && attempts < MAX_ATTEMPTS
    }
  }

  // ---- the two transactions of a worker ----

  /** What a claim does to a row before choosing one: closing accounts are cancelled, spent retries fail. */
  function SweepRow(r: Row, closing: set<UserId>, now: int): Row {
    if r.user in closing && (r.state == Queued || r.Expired(now)) then
      r.(state := Cancelled, leaseToken := None, leaseUntil := None)
    else if r.Expired(now) && r.attempts >= MAX_ATTEMPTS then r.(state := Failed, leaseToken := None)
    else r
  }

  function Sweep(rows: map<RowId, Row>, closing: set<UserId>, now: int): map<RowId, Row> {
    map id | id in rows :: SweepRow(rows[id], closing, now)
  }

  function LeasedRow(r: Row, token: Token, now: int): Row {
    r.(state := Sending, attempts := r.attempts + 1, leaseToken := Some(token), leaseUntil := Some(now + LEASE))
  }

  /** The oldest claimable row. */
  predicate Oldest(rows: map<RowId, Row>, now: int, id: RowId) {
    && id in rows && rows[id].Claimable(now)
    && forall other :: other in rows && rows[other].Claimable(now) ==> rows[id].createdAt <= rows[other].createdAt
  }

  function Backoff(attempt: nat): int {
    var seconds := 30 * Pow2(attempt);
    (if seconds <= 3600 then seconds else 3600) * SECOND
  }

  datatype Reply = Accepted | Transient | Rejected

  /** What the holder of attempt `attempt` records about its row. */
  function RecordedRow(r: Row, attempt: nat, reply: Reply, now: int): Row {
    if reply == Accepted then r.(state := Delivered, leaseToken := None, leaseUntil := None)
    else r.(state := if reply == Rejected || attempt >= MAX_ATTEMPTS then Failed else Queued,
            availableAt := now + Backoff(attempt), leaseToken := None, leaseUntil := None)
  }

  /** The fence: the row still carries this token and its lease has not run out. */
  predicate Holds(rows: map<RowId, Row>, id: RowId, token: Token, now: int) {
    id in rows && rows[id].leaseToken == Some(token) && rows[id].leaseUntil.Some? && rows[id].leaseUntil.value > now
  }

  function Record(rows: map<RowId, Row>, id: RowId, token: Token, attempt: nat, reply: Reply, now: int): map<RowId, Row> {
    if Holds(rows, id, token, now) then rows[id := RecordedRow(rows[id], attempt, reply, now)] else rows
  }

  predicate InScope(r: Row, user: UserId, recipient: Recipient) { r.user == user || r.recipient == recipient }

  function CancelQueued(rows: map<RowId, Row>, user: UserId, recipient: Recipient): map<RowId, Row> {
    map id | id in rows ::
      if InScope(rows[id], user, recipient) && rows[id].state == Queued then rows[id].(state := Cancelled) else rows[id]
  }

  // ---- the table as a mutable object ----

  datatype Claimed = Claimed(id: RowId, user: UserId, attempt: nat, token: Token)

  /** Only a row being sent carries a token. */
  predicate Fenced(rows: map<RowId, Row>) {
    forall id :: id in rows && rows[id].leaseToken.Some? ==> rows[id].state == Sending
  }

  predicate TerminalKept(a: map<RowId, Row>, b: map<RowId, Row>) {
    forall id :: id in a && a[id].Terminal() ==> id in b && b[id] == a[id]
  }

  lemma SweptRows(rows: map<RowId, Row>, closing: set<UserId>, now: int)
    requires Fenced(rows)
    ensures Fenced(Sweep(rows, closing, now)) && TerminalKept(rows, Sweep(rows, closing, now))
    ensures var swept := Sweep(rows, closing, now); forall id :: id in swept && swept[id].Claimable(now) ==> swept[id].user !in closing
  {
  }

  /** The oldest claimable row, if any is claimable. */
  method PickOldest(rows: map<RowId, Row>, now: int) returns (pick: Option<RowId>)
    ensures match pick
      case None => forall id :: id in rows ==> !rows[id].Claimable(now)
      case Some(id) => Oldest(rows, now, id)
  {
    var candidates := set id | id in rows && rows[id].Claimable(now);
    if candidates == {} {
      assert forall id :: id in rows && rows[id].Claimable(now) ==> id in candidates;
      return None;
    }
    var created := map k | k in rows :: rows[k].createdAt;
    var id := LeastRanked(candidates, created);
    forall other | other in rows && rows[other].Claimable(now) ensures rows[id].createdAt <= rows[other].createdAt {
      assert other in candidates && created[id] <= created[other];
    }
    return Some(id);
  }

  class Table {
    var rows: map<RowId, Row>
    var closing: set<UserId>

    predicate Valid()
      reads this
    {
      Fenced(rows)
    }

    constructor ()
      ensures Valid() && rows == map[] && closing == {}
    {
      rows, closing := map[], {};
    }

    /** Sweeps, then leases the oldest claimable row to `lease`; returns nothing only when no row is claimable. */
    method Claim(now: int, lease: Token) returns (claimed: Option<Claimed>)
      requires Valid()
      modifies this`rows
      ensures Valid()
      ensures TerminalKept(old(rows), rows)
      ensures claimed.Some? ==> claimed.value.user !in closing && Holds(rows, claimed.value.id, lease, now)
      ensures var swept := Sweep(old(rows), closing, now);
        match claimed
        case None => rows == swept && forall id :: id in swept ==> !swept[id].Claimable(now)
        case Some(c) =>
          && Oldest(swept, now, c.id) && c.token == lease
          && c.user == swept[c.id].user && c.attempt == swept[c.id].attempts + 1
          && rows == swept[c.id := LeasedRow(swept[c.id], lease, now)]
    {
      hide Sweep;
      SweptRows(rows, closing, now);
      rows := Sweep(rows, closing, now);
      var pick := PickOldest(rows, now);
      if pick.None? { return None; }
      var id := pick.value;
      claimed := Some(Claimed(id, rows[id].user, rows[id].attempts + 1, lease));
      rows := rows[id := LeasedRow(rows[id], lease, now)];
    }

    /**
     Records the reply under a lease that is still held, and gives the lease up. Without one it changes
     nothing, and it never changes another row or a row that is already delivered, failed or cancelled.
     */
    method Complete(c: Claimed, reply: Reply, now: int)
      requires Valid()
      modifies this`rows
      ensures Valid() && rows == Record(old(rows), c.id, c.token, c.attempt, reply, now)
      ensures !Holds(old(rows), c.id, c.token, now) ==> rows == old(rows)
      ensures rows.Keys == old(rows).Keys
      ensures forall id :: id in rows && (id != c.id || old(rows)[id].Terminal()) ==> rows[id] == old(rows)[id]
      ensures forall later: int :: later >= now ==> !Holds(rows, c.id, c.token, later)
      ensures Holds(old(rows), c.id, c.token, now) ==> (rows[c.id].state == Delivered <==> reply == Accepted)
    {
      if c.id in rows && rows[c.id].leaseToken == Some(c.token) {
        var row := rows[c.id];
        if row.leaseUntil.Some? && row.leaseUntil.value > now {
          if reply == Accepted {
            row := row.(state := Delivered);
          } else {
            row := row.(state := if reply == Rejected || c.attempt >= MAX_ATTEMPTS then Failed else Queued,
                        availableAt := now + Backoff(c.attempt));
          }
          rows := rows[c.id := row.(leaseToken := None, leaseUntil := None)];
        }
      }
    }
  }

  // ---- the whole system ----

  /** A worker between its claim and its completion, with the provider's reply once it has one. */
  datatype Worker = Worker(id: RowId, user: UserId, attempt: nat, until: int, reply: Option<Reply>)

  /**
   The table, the accounts that are closing, the addresses to which mail is held back, the workers in flight, and what has
   happened so far: every lease ever handed out,
   when each runs out, which were given up by completing, every call of the provider in order, and
   the rows it accepted.
   */
  datatype System = System(
    clock: int, rows: map<RowId, Row>, closing: set<UserId>, silenced: set<Recipient>, workers: map<Token, Worker>,
    leases: map<Token, Lease<RowId>>, until: map<Token, int>, released: set<Token>, calls: seq<Token>, accepted: set<RowId>,
    enqueued: set<RowId>)

  datatype Action =
    | Enqueue(id: RowId, user: UserId, recipient: Recipient)
    | Claim(token: Token, pick: Option<RowId>)
    | Deliver(token: Token, answer: Reply)
    | Complete(token: Token)
    | Crash(token: Token)
    | BeginDeletion(user: UserId, recipient: Recipient)
    | Erase(user: UserId, recipient: Recipient, replacement: Recipient)
    | Reopen(recipient: Recipient)
    | Idle

  /** A step waits for `tick` and then performs its action, or nothing when it is not enabled. */
  datatype Step = Step(tick: nat, action: Action)

  const INITIAL: System := System(0, map[], {}, {}, map[], map[], map[], {}, [], {}, {})

  /** Nothing is queued for a sender who is closing, nor to an address that is held back. */
  function DoEnqueue(s: System, id: RowId, user: UserId, recipient: Recipient): System {
    if id in s.enqueued || user in s.closing || recipient in s.silenced then s
    else s.(rows := s.rows[id := Row(user, recipient, Queued, 0, s.clock, None, None, s.clock)], enqueued := s.enqueued + {id})
  }

  /** Any claimable row may be taken, since rows another transaction has locked are skipped; so may none. */
  function DoClaim(s: System, token: Token, pick: Option<RowId>): System {
    var swept := Sweep(s.rows, s.closing, s.clock);
    if token in s.leases then s
    else if pick.None? then s.(rows := swept)
    else if pick.value in swept && swept[pick.value].Claimable(s.clock) then
      var r := swept[pick.value];
      s.(rows := swept[pick.value := LeasedRow(r, token, s.clock)],
         workers := s.workers[token := Worker(pick.value, r.user, r.attempts + 1, s.clock + LEASE, None)],
         leases := s.leases[token := Lease(pick.value, r.attempts + 1)], until := s.until[token := s.clock + LEASE])
    else s
  }

  /** The provider is called unless the account is closing by now, which counts as a rejected payload. */
  function DoDeliver(s: System, token: Token, answer: Reply): System {
    if token !in s.workers || s.workers[token].reply.Some? then s
    else
      var w := s.workers[token];
      if w.user in s.closing then s.(workers := s.workers[token := w.(reply := Some(Rejected))])
      else s.(workers := s.workers[token := w.(reply := Some(answer))], calls := s.calls + [token],
              accepted := if answer == Accepted then s.accepted + {w.id} else s.accepted)
  }

  function DoComplete(s: System, token: Token): System {
    if token !in s.workers || s.workers[token].reply.None? then s
    else
      var w := s.workers[token];
      s.(rows := Record(s.rows, w.id, token, w.attempt, w.reply.value, s.clock), workers := s.workers - {token},
         released := s.released + {token})
  }

  function DoCrash(s: System, token: Token): System { s.(workers := s.workers - {token}) }

  function DoBeginDeletion(s: System, user: UserId, recipient: Recipient): System {
    s.(rows := CancelQueued(s.rows, user, recipient), closing := s.closing + {user}, silenced := s.silenced + {recipient})
  }

  /** Some row of the user or to the address is being sent under an unexpired lease. */
  predicate Busy(s: System, user: UserId, recipient: Recipient) {
    exists id :: id in s.rows && InScope(s.rows[id], user, recipient) && s.rows[id].state == Sending && !s.rows[id].Expired(s.clock)
  }

  /** Erasure waits for unexpired leases of the rows it would delete, and renames the account. */
  function DoErase(s: System, user: UserId, recipient: Recipient, replacement: Recipient): System {
    if user !in s.closing || Busy(s, user, recipient) then s
    else s.(rows := map id | id in s.rows && !InScope(s.rows[id], user, recipient) :: s.rows[id], silenced := s.silenced + {replacement})
  }

  function Apply(s: System, action: Action): System {
    match action
    case Enqueue(id, user, recipient) => DoEnqueue(s, id, user, recipient)
    case Claim(token, pick) => DoClaim(s, token, pick)
    case Deliver(token, answer) => DoDeliver(s, token, answer)
    case Complete(token) => DoComplete(s, token)
    case Crash(token) => DoCrash(s, token)
    case BeginDeletion(user, recipient) => DoBeginDeletion(s, user, recipient)
    case Erase(user, recipient, replacement) => DoErase(s, user, recipient, replacement)
    case Reopen(recipient) => s.(silenced := s.silenced - {recipient})
    case Idle => s
  }

  function Next(s: System, step: Step): System {
    Apply(s.(clock := s.clock + step.tick), step.action)
  }

  function Run(s: System, steps: seq<Step>): System
    decreases |steps|
  {
    if steps == [] then s else Run(Next(s, steps[0]), steps[1..])
  }

  // ---- what every step keeps ----

  /** A row being sent carries the token of its latest lease; no other row carries any token. */
  predicate RowOk(r: Row, id: RowId, clock: int, leases: map<Token, Lease<RowId>>) {
    && r.attempts <= MAX_ATTEMPTS && (r.state == Queued ==> r.attempts < MAX_ATTEMPTS)
    && (r.state != Sending ==> r.leaseToken.None?)
    && (r.state == Sending ==>
          && r.leaseToken.Some? && r.leaseUntil.Some? && r.availableAt <= clock
          && r.leaseToken.value in leases && leases[r.leaseToken.value] == Lease(id, r.attempts))
  }

  predicate RowsOk(rows: map<RowId, Row>, clock: int, leases: map<Token, Lease<RowId>>, enqueued: set<RowId>) {
    rows.Keys <= enqueued && forall id :: id in rows ==> RowOk(rows[id], id, clock, leases)
  }

  /** A lease names an attempt its row has already counted. */
  predicate LeaseOk(l: Lease<RowId>, rows: map<RowId, Row>, enqueued: set<RowId>) {
    l.id in enqueued && 1 <= l.attempt <= MAX_ATTEMPTS && (l.id in rows ==> l.attempt <= rows[l.id].attempts)
  }

  predicate LeasesOk(leases: map<Token, Lease<RowId>>, rows: map<RowId, Row>, enqueued: set<RowId>) {
    (forall t :: t in leases ==> LeaseOk(leases[t], rows, enqueued)) && Distinct(leases)
  }

  /** A worker whose lease has not run out owns its row. */
  predicate WorkerOk(w: Worker, t: Token, rows: map<RowId, Row>, clock: int, leases: map<Token, Lease<RowId>>) {
    && t in leases && leases[t] == Lease(w.id, w.attempt)
    && (w.until > clock ==> w.id in rows && rows[w.id].state == Sending && rows[w.id].leaseToken == Some(t))
    && (w.id in rows && rows[w.id].leaseToken == Some(t) ==> rows[w.id].leaseUntil == Some(w.until) && rows[w.id].user == w.user)
  }

  predicate WorkersOk(workers: map<Token, Worker>, rows: map<RowId, Row>, clock: int, leases: map<Token, Lease<RowId>>) {
    forall t :: t in workers ==> WorkerOk(workers[t], t, rows, clock, leases)
  }

  /** A worker that has not answered has not called; one that reports acceptance has seen it. */
  predicate ReplyOk(w: Worker, t: Token, calls: seq<Token>, accepted: set<RowId>) {
    (w.reply.None? ==> t !in calls) && (w.reply == Some(Accepted) ==> w.id in accepted)
  }

  predicate CallsOk(s: System) {
    && (forall t :: t in s.calls ==> t in s.leases) && NoRepeats(s.calls)
    && (forall t :: t in s.workers ==> ReplyOk(s.workers[t], t, s.calls, s.accepted))
    && (forall id :: id in s.rows && s.rows[id].state == Delivered ==> id in s.accepted)
  }

  predicate Inv(s: System) {
    && RowsOk(s.rows, s.clock, s.leases, s.enqueued) && LeasesOk(s.leases, s.rows, s.enqueued)
    && WorkersOk(s.workers, s.rows, s.clock, s.leases) && CallsOk(s)
  }

  lemma TickKeeps(s: System, tick: nat)
    requires Inv(s)
    ensures Inv(s.(clock := s.clock + tick))
  {
    var later := s.clock + tick;
    forall id | id in s.rows ensures RowOk(s.rows[id], id, later, s.leases) {
      assert RowOk(s.rows[id], id, s.clock, s.leases);
    }
    forall t | t in s.workers ensures WorkerOk(s.workers[t], t, s.rows, later, s.leases) {
      assert WorkerOk(s.workers[t], t, s.rows, s.clock, s.leases);
    }
  }

  lemma SweepKeeps(s: System)
    requires Inv(s)
    ensures Inv(s.(rows := Sweep(s.rows, s.closing, s.clock)))
  {
    var swept := Sweep(s.rows, s.closing, s.clock);
    assert RowsOk(swept, s.clock, s.leases, s.enqueued) by {
      forall id | id in swept ensures RowOk(swept[id], id, s.clock, s.leases) {
        assert RowOk(s.rows[id], id, s.clock, s.leases);
      }
    }
    assert LeasesOk(s.leases, swept, s.enqueued) by {
      forall t | t in s.leases ensures LeaseOk(s.leases[t], swept, s.enqueued) {
        assert LeaseOk(s.leases[t], s.rows, s.enqueued);
      }
    }
    forall t | t in s.workers ensures WorkerOk(s.workers[t], t, swept, s.clock, s.leases) {
      assert WorkerOk(s.workers[t], t, s.rows, s.clock, s.leases);
    }
  }

  /** Taking a lease on an unleased or expired row. */
  lemma LeaseKeeps(s: System, token: Token, id: RowId)
    requires Inv(s) && token !in s.leases && id in s.rows && s.rows[id].Claimable(s.clock)
    ensures var r := s.rows[id];
      Inv(s.(rows := s.rows[id := LeasedRow(r, token, s.clock)],
             workers := s.workers[token := Worker(id, r.user, r.attempts + 1, s.clock + LEASE, None)],
             leases := s.leases[token := Lease(id, r.attempts + 1)], until := s.until[token := s.clock + LEASE]))
  {
    var r := s.rows[id];
    var rows := s.rows[id := LeasedRow(r, token, s.clock)];
    var leases := s.leases[token := Lease(id, r.attempts + 1)];
    var workers := s.workers[token := Worker(id, r.user, r.attempts + 1, s.clock + LEASE, None)];
    assert RowOk(r, id, s.clock, s.leases);
    assert RowsOk(rows, s.clock, leases, s.enqueued) by {
      forall k | k in rows ensures RowOk(rows[k], k, s.clock, leases) {
        assert k != id ==> RowOk(s.rows[k], k, s.clock, s.leases);
      }
    }
    assert LeasesOk(leases, rows, s.enqueued) by {
      forall t | t in leases ensures LeaseOk(leases[t], rows, s.enqueued) {
        assert t != token ==> LeaseOk(s.leases[t], s.rows, s.enqueued);
      }
    }
    assert WorkersOk(workers, rows, s.clock, leases) by {
      forall t | t in workers ensures WorkerOk(workers[t], t, rows, s.clock, leases) {
        assert t != token ==> WorkerOk(s.workers[t], t, s.rows, s.clock, s.leases);
      }
    }
    assert CallsOk(s.(rows := rows, workers := workers, leases := leases)) by {
      forall t | t in workers ensures ReplyOk(workers[t], t, s.calls, s.accepted) {
        assert t != token ==> ReplyOk(s.workers[t], t, s.calls, s.accepted);
      }
    }
  }

  lemma CompleteKeeps(s: System, token: Token)
    requires Inv(s)
    ensures Inv(DoComplete(s, token))
  {
    if token in s.workers && s.workers[token].reply.Some? {
      var w := s.workers[token];
      var rows := Record(s.rows, w.id, token, w.attempt, w.reply.value, s.clock);
      assert WorkerOk(w, token, s.rows, s.clock, s.leases) && ReplyOk(w, token, s.calls, s.accepted);
      assert RowsOk(rows, s.clock, s.leases, s.enqueued) by {
        forall k | k in rows ensures RowOk(rows[k], k, s.clock, s.leases) {
          assert RowOk(s.rows[k], k, s.clock, s.leases);
        }
      }
      assert LeasesOk(s.leases, rows, s.enqueued) by {
        forall t | t in s.leases ensures LeaseOk(s.leases[t], rows, s.enqueued) {
          assert LeaseOk(s.leases[t], s.rows, s.enqueued);
        }
      }
      forall t | t in s.workers && t != token ensures WorkerOk(s.workers[t], t, rows, s.clock, s.leases) {
        assert WorkerOk(s.workers[t], t, s.rows, s.clock, s.leases);
      }
    }
  }

  lemma DeliverKeeps(s: System, token: Token, answer: Reply)
    requires Inv(s)
    ensures Inv(DoDeliver(s, token, answer))
  {
    hide RowsOk, LeasesOk;
    if token in s.workers && s.workers[token].reply.None? {
      var s' := DoDeliver(s, token, answer);
      assert WorkerOk(s.workers[token], token, s.rows, s.clock, s.leases);
      forall t | t in s'.workers && t != token
        ensures WorkerOk(s'.workers[t], t, s'.rows, s'.clock, s'.leases) && ReplyOk(s'.workers[t], t, s'.calls, s'.accepted)
      {
        assert WorkerOk(s.workers[t], t, s.rows, s.clock, s.leases) && ReplyOk(s.workers[t], t, s.calls, s.accepted);
      }
    }
  }

  lemma EnqueueKeeps(s: System, id: RowId, user: UserId, recipient: Recipient)
    requires Inv(s)
    ensures Inv(DoEnqueue(s, id, user, recipient))
  {
    if id !in s.enqueued && user !in s.closing && recipient !in s.silenced {
      var r := Row(user, recipient, Queued, 0, s.clock, None, None, s.clock);
      NewRowKeeps(s.rows, s.leases, s.workers, s.clock, s.enqueued, id, r);
      assert CallsOk(s.(rows := s.rows[id := r], enqueued := s.enqueued + {id}));
    }
  }

  lemma NewRowKeeps(
    rows: map<RowId, Row>, leases: map<Token, Lease<RowId>>, workers: map<Token, Worker>, clock: int, enqueued: set<RowId>, id: RowId, r: Row)
    requires RowsOk(rows, clock, leases, enqueued) && LeasesOk(leases, rows, enqueued) && WorkersOk(workers, rows, clock, leases)
    requires id !in enqueued && r.state == Queued && r.attempts == 0 && r.leaseToken.None?
    ensures RowsOk(rows[id := r], clock, leases, enqueued + {id}) && LeasesOk(leases, rows[id := r], enqueued + {id})
    ensures WorkersOk(workers, rows[id := r], clock, leases)
  {
    var next := rows[id := r];
    assert id !in rows.Keys;
    forall k | k in next ensures RowOk(next[k], k, clock, leases) { if k != id { assert RowOk(rows[k], k, clock, leases); } }
    forall t | t in leases ensures LeaseOk(leases[t], next, enqueued + {id}) { assert LeaseOk(leases[t], rows, enqueued); }
    forall t | t in workers ensures WorkerOk(workers[t], t, next, clock, leases) {
      assert WorkerOk(workers[t], t, rows, clock, leases) && LeaseOk(leases[t], rows, enqueued);
    }
  }

  lemma CancelKeeps(s: System, user: UserId, recipient: Recipient)
    requires Inv(s)
    ensures Inv(DoBeginDeletion(s, user, recipient))
  {
    var rows := CancelQueued(s.rows, user, recipient);
    forall k | k in rows ensures RowOk(rows[k], k, s.clock, s.leases) {
      assert RowOk(s.rows[k], k, s.clock, s.leases);
    }
    forall t | t in s.leases ensures LeaseOk(s.leases[t], rows, s.enqueued) {
      assert LeaseOk(s.leases[t], s.rows, s.enqueued);
    }
    forall t | t in s.workers ensures WorkerOk(s.workers[t], t, rows, s.clock, s.leases) {
      assert WorkerOk(s.workers[t], t, s.rows, s.clock, s.leases);
    }
  }

  lemma EraseKeeps(s: System, user: UserId, recipient: Recipient, replacement: Recipient)
    requires Inv(s)
    ensures Inv(DoErase(s, user, recipient, replacement))
  {
    var s' := DoErase(s, user, recipient, replacement);
    forall k | k in s'.rows ensures RowOk(s'.rows[k], k, s'.clock, s'.leases) {
      assert RowOk(s.rows[k], k, s.clock, s.leases);
    }
    forall t | t in s'.leases ensures LeaseOk(s'.leases[t], s'.rows, s'.enqueued) {
      assert LeaseOk(s.leases[t], s.rows, s.enqueued);
    }
    forall t | t in s'.workers ensures WorkerOk(s'.workers[t], t, s'.rows, s'.clock, s'.leases) {
      assert WorkerOk(s.workers[t], t, s.rows, s.clock, s.leases);
    }
  }

  lemma CrashKeeps(s: System, token: Token)
    requires Inv(s)
    ensures Inv(DoCrash(s, token))
  {
  }

  lemma ReopenKeeps(s: System, recipient: Recipient)
    requires Inv(s)
    ensures Inv(s.(silenced := s.silenced - {recipient}))
  {
    hide RowsOk, LeasesOk, WorkersOk;
  }

  lemma ClaimKeeps(s: System, token: Token, pick: Option<RowId>)
    requires Inv(s)
    ensures Inv(DoClaim(s, token, pick))
  {
    hide Inv, Sweep, LeasedRow;
    SweepKeeps(s);
    var swept := s.(rows := Sweep(s.rows, s.closing, s.clock));
    if token !in s.leases && pick.Some? && pick.value in swept.rows && swept.rows[pick.value].Claimable(s.clock) {
      LeaseKeeps(swept, token, pick.value);
    }
  }

  lemma ApplyKeeps(s: System, action: Action)
    requires Inv(s)
    ensures Inv(Apply(s, action))
  {
    hide Inv, DoEnqueue, DoClaim, DoDeliver, DoComplete, DoCrash, DoBeginDeletion, DoErase;
    match action
    case Enqueue(id, user, recipient) => EnqueueKeeps(s, id, user, recipient);
    case Claim(token, pick) => ClaimKeeps(s, token, pick);
    case Deliver(token, answer) => DeliverKeeps(s, token, answer);
    case Complete(token) => CompleteKeeps(s, token);
    case Crash(token) => CrashKeeps(s, token);
    case BeginDeletion(user, recipient) => CancelKeeps(s, user, recipient);
    case Erase(user, recipient, replacement) => EraseKeeps(s, user, recipient, replacement);
    case Reopen(recipient) => ReopenKeeps(s, recipient);
    case Idle =>
  }

  lemma StepKeeps(s: System, step: Step)
    requires Inv(s)
    ensures Inv(Next(s, step))
  {
    hide Inv, Apply;
    TickKeeps(s, step.tick);
    ApplyKeeps(s.(clock := s.clock + step.tick), step.action);
  }

  lemma {:induction false} RunKeeps(s: System, steps: seq<Step>)
    requires Inv(s)
    ensures Inv(Run(s, steps))
    decreases |steps|
  {
    hide Inv, Next;
    if steps != [] {
      StepKeeps(s, steps[0]);
      RunKeeps(Next(s, steps[0]), steps[1..]);
    }
  }

  /** Every reachable state satisfies the invariant. */
  lemma Reachable(steps: seq<Step>)
    ensures Inv(Run(INITIAL, steps))
  {
    RunKeeps(INITIAL, steps);
  }

  // ---- fencing ----

  /** A lease that has neither run out nor been given up by completing still owns its row, even if its holder crashed. */
  predicate OwnsRow(s: System, t: Token)
    requires t in s.leases && t in s.until
  {
    t !in s.released && s.until[t] > s.clock ==>
      && s.leases[t].id in s.rows && s.rows[s.leases[t].id].state == Sending
      && s.rows[s.leases[t].id].leaseToken == Some(t) && s.rows[s.leases[t].id].leaseUntil == Some(s.until[t])
  }

  predicate Owned(s: System) {
    && s.until.Keys == s.leases.Keys && s.released <= s.leases.Keys
    && (forall t :: t in s.leases && t in s.until ==> OwnsRow(s, t))
    && (forall t :: t in s.workers ==> t !in s.released && t in s.until && s.until[t] == s.workers[t].until)
  }

  lemma OwnedKeys(s: System, t: Token)
    requires Owned(s)
    ensures t in s.leases <==> t in s.until
  {
    assert t in s.leases.Keys <==> t in s.until.Keys;
  }

  lemma SweptOwned(s: System)
    requires Owned(s)
    ensures Owned(s.(rows := Sweep(s.rows, s.closing, s.clock)))
  {
    var s' := s.(rows := Sweep(s.rows, s.closing, s.clock));
    forall t | t in s'.leases && t in s'.until ensures OwnsRow(s', t) { assert OwnsRow(s, t); }
  }

  lemma LeasedOwned(s: System, token: Token, id: RowId)
    requires Owned(s) && token !in s.leases && id in s.rows && s.rows[id].Claimable(s.clock)
    ensures var r := s.rows[id];
      Owned(s.(rows := s.rows[id := LeasedRow(r, token, s.clock)],
               workers := s.workers[token := Worker(id, r.user, r.attempts + 1, s.clock + LEASE, None)],
               leases := s.leases[token := Lease(id, r.attempts + 1)], until := s.until[token := s.clock + LEASE]))
  {
    var r := s.rows[id];
    var s' := s.(rows := s.rows[id := LeasedRow(r, token, s.clock)],
                 workers := s.workers[token := Worker(id, r.user, r.attempts + 1, s.clock + LEASE, None)],
                 leases := s.leases[token := Lease(id, r.attempts + 1)], until := s.until[token := s.clock + LEASE]);
    OwnedKeys(s, token);
    forall t | t in s'.leases && t in s'.until ensures OwnsRow(s', t) {
      if t != token { assert OwnsRow(s, t); }
    }
  }

  lemma ClaimOwned(s: System, token: Token, pick: Option<RowId>)
    requires Owned(s)
    ensures Owned(DoClaim(s, token, pick))
  {
    hide Owned, Sweep, LeasedRow;
    SweptOwned(s);
    var swept := s.(rows := Sweep(s.rows, s.closing, s.clock));
    if token !in s.leases && pick.Some? && pick.value in swept.rows && swept.rows[pick.value].Claimable(s.clock) {
      LeasedOwned(swept, token, pick.value);
    }
  }

  lemma CompleteOwned(s: System, token: Token)
    requires Inv(s) && Owned(s)
    ensures Owned(DoComplete(s, token))
  {
    hide RowsOk, LeasesOk, CallsOk;
    var s' := DoComplete(s, token);
    if token in s.workers { assert WorkerOk(s.workers[token], token, s.rows, s.clock, s.leases); }
    forall t | t in s'.leases && t in s'.until ensures OwnsRow(s', t) { assert OwnsRow(s, t); }
  }

  lemma OtherOwned(s: System, a: Action)
    requires Inv(s) && Owned(s) && !a.Claim? && !a.Complete?
    ensures Owned(Apply(s, a))
  {
    hide LeasesOk, WorkersOk, CallsOk, RowOk;
    var s' := Apply(s, a);
    forall t | t in s'.leases && t in s'.until ensures OwnsRow(s', t) {
      assert OwnsRow(s, t);
      assert s.leases[t].id in s.rows ==> s.leases[t].id in s.rows.Keys;
    }
  }

  lemma TickOwned(s: System, tick: nat)
    requires Owned(s)
    ensures Owned(s.(clock := s.clock + tick))
  {
    var s' := s.(clock := s.clock + tick);
    forall t | t in s'.leases && t in s'.until ensures OwnsRow(s', t) { assert OwnsRow(s, t); }
  }

  lemma {:induction false} RunOwned(s: System, steps: seq<Step>)
    requires Inv(s) && Owned(s)
    ensures Owned(Run(s, steps))
    decreases |steps|
  {
    hide Inv, Owned, DoClaim, DoComplete, DoEnqueue, DoDeliver, DoCrash, DoBeginDeletion, DoErase;
    if steps != [] {
      var at, a := s.(clock := s.clock + steps[0].tick), steps[0].action;
      TickKeeps(s, steps[0].tick);
      TickOwned(s, steps[0].tick);
      if a.Claim? {
        ClaimOwned(at, a.token, a.pick);
      } else if a.Complete? {
        CompleteOwned(at, a.token);
      } else {
        OtherOwned(at, a);
      }
      StepKeeps(s, steps[0]);
      RunOwned(Next(s, steps[0]), steps[1..]);
    }
  }

  /**
   Of all leases ever handed out for a row, whether their holders are at work or have crashed, at most one
   has neither run out nor been completed. Every worker in flight holds one that was not completed.
   */
  lemma OneUnexpiredLease(steps: seq<Step>, t: Token, u: Token)
    ensures var s := Run(INITIAL, steps);
      s.until.Keys == s.leases.Keys && forall x :: x in s.workers ==> x in s.leases && x !in s.released && s.until[x] == s.workers[x].until
    ensures var s := Run(INITIAL, steps);
      (t in s.leases && u in s.leases && s.leases[t].id == s.leases[u].id && t !in s.released && u !in s.released
       && s.until[t] > s.clock && s.until[u] > s.clock) ==> t == u
  {
    hide Run, Inv;
    EmptyOk();
    RunOwned(INITIAL, steps);
    var s := Run(INITIAL, steps);
    OwnedKeys(s, t);
    OwnedKeys(s, u);
    if t in s.leases && u in s.leases { assert OwnsRow(s, t) && OwnsRow(s, u); }
    forall x | x in s.workers ensures x in s.leases { OwnedKeys(s, x); }
  }

  lemma EmptyOk()
    ensures Inv(INITIAL) && Owned(INITIAL)
  {
  }

  /** The lease `t` was handed out and has run out or been taken over. */
  predicate Lost(s: System, t: Token) {
    t in s.leases && !Holds(s.rows, s.leases[t].id, t, s.clock)
  }

  /** A row only ever gains a token that is new; it never gets an old one back, nor a longer lease under it. */
  lemma LostByAction(s: System, action: Action, t: Token)
    requires Inv(s) && Lost(s, t)
    ensures Lost(Apply(s, action), t)
  {
    assert LeaseOk(s.leases[t], s.rows, s.enqueued);
  }

  lemma LostStays(s: System, step: Step, t: Token)
    requires Inv(s) && Lost(s, t)
    ensures Lost(Next(s, step), t)
  {
    hide Inv, Apply;
    TickKeeps(s, step.tick);
    LostByAction(s.(clock := s.clock + step.tick), step.action, t);
  }

  /** Once a worker has lost its lease, no later moment lets it change the table. */
  lemma {:induction false} LostForever(s: System, steps: seq<Step>, t: Token)
    requires Inv(s) && Lost(s, t)
    ensures Lost(Run(s, steps), t)
    ensures DoComplete(Run(s, steps), t).rows == Run(s, steps).rows
    decreases |steps|
  {
    hide Next;
    if steps == [] {
      if t in s.workers { assert WorkerOk(s.workers[t], t, s.rows, s.clock, s.leases); }
    } else {
      LostStays(s, steps[0], t);
      StepKeeps(s, steps[0]);
      LostForever(Next(s, steps[0]), steps[1..], t);
    }
  }

  /** The reachable states of a row once it is terminal: it stays exactly as it is until it is erased. */
  lemma TerminalByAction(s: System, action: Action, id: RowId)
    requires Inv(s) && id in s.rows && s.rows[id].Terminal()
    ensures var s' := Apply(s, action); id in s'.enqueued && (id in s'.rows ==> s'.rows[id] == s.rows[id])
  {
    assert RowOk(s.rows[id], id, s.clock, s.leases);
  }

  predicate Settled(s: System, id: RowId, r: Row) {
    id in s.enqueued && (id in s.rows ==> s.rows[id] == r)
  }

  lemma ErasedByAction(s: System, action: Action, id: RowId)
    requires id in s.enqueued && id !in s.rows
    ensures id in Apply(s, action).enqueued && id !in Apply(s, action).rows
  {
  }

  lemma SettledStep(s: System, step: Step, id: RowId, r: Row)
    requires Inv(s) && Settled(s, id, r) && r.Terminal()
    ensures Settled(Next(s, step), id, r)
  {
    hide Inv, Apply;
    TickKeeps(s, step.tick);
    var at := s.(clock := s.clock + step.tick);
    if id in s.rows { TerminalByAction(at, step.action, id); } else { ErasedByAction(at, step.action, id); }
  }

  /** DELIVERED, FAILED and CANCELLED are absorbing. */
  lemma {:induction false} TerminalForever(s: System, steps: seq<Step>, id: RowId, r: Row)
    requires Inv(s) && Settled(s, id, r) && r.Terminal()
    ensures Settled(Run(s, steps), id, r)
    decreases |steps|
  {
    hide Inv, Next;
    if steps != [] {
      SettledStep(s, steps[0], id, r);
      StepKeeps(s, steps[0]);
      TerminalForever(Next(s, steps[0]), steps[1..], id, r);
    }
  }

  /** A delivered row was accepted by the provider. */
  lemma DeliveredWasAccepted(steps: seq<Step>, id: RowId)
    requires var s := Run(INITIAL, steps); id in s.rows && s.rows[id].state == Delivered
    ensures id in Run(INITIAL, steps).accepted
  {
    Reachable(steps);
  }

  // ---- bounded attempts ----

  lemma ReachableLeases(steps: seq<Step>)
    ensures var s := Run(INITIAL, steps);
      AttemptsInRange(s.leases, MAX_ATTEMPTS) && Distinct(s.leases) && NoRepeats(s.calls) && (forall t :: t in s.calls ==> t in s.leases)
      && forall t :: t in s.leases ==> s.leases[t].id in s.enqueued
  {
    Reachable(steps);
    var s := Run(INITIAL, steps);
    forall t | t in s.leases ensures s.leases[t].id in s.enqueued && 1 <= s.leases[t].attempt <= MAX_ATTEMPTS {
      assert LeaseOk(s.leases[t], s.rows, s.enqueued);
    }
  }

  /**
   Over every run with crashes the log of provider calls has at most five entries for any row. Every call was made under a
   lease, and delivering again under a lease that has seen its call does nothing.
   */
  lemma AtMostFiveCalls(steps: seq<Step>, id: RowId)
    ensures var s := Run(INITIAL, steps); |CallsFor(s.leases, s.calls, id)| <= MAX_ATTEMPTS && forall t :: t in s.calls ==> t in s.leases
    ensures var s := Run(INITIAL, steps); forall t: Token, answer: Reply :: t in s.calls ==> DoDeliver(s, t, answer) == s
  {
    hide Run;
    ReachableLeases(steps);
    Reachable(steps);
    var s := Run(INITIAL, steps);
    CallsOfRow(s.leases, s.calls, id, MAX_ATTEMPTS);
    forall t: Token, answer: Reply | t in s.calls ensures DoDeliver(s, t, answer) == s { NoSecondCall(s, t, answer); }
  }

  lemma NoSecondCall(s: System, t: Token, answer: Reply)
    requires Inv(s) && t in s.calls
    ensures DoDeliver(s, t, answer) == s
  {
    if t in s.workers { assert ReplyOk(s.workers[t], t, s.calls, s.accepted); }
  }

  /** At most five leases per enqueued row are ever handed out; every claim that hands one out uses up one of them. */
  lemma ClaimsAreBounded(steps: seq<Step>, token: Token, pick: Option<RowId>)
    ensures var s := Run(INITIAL, steps); |s.leases.Keys| <= MAX_ATTEMPTS * |s.enqueued|
    ensures var s := Run(INITIAL, steps); var s' := DoClaim(s, token, pick);
      s'.workers != s.workers ==> s'.leases.Keys == s.leases.Keys + {token} && token !in s.leases
  {
    ReachableLeases(steps);
    var s := Run(INITIAL, steps);
    LeasesPerRow(s.leases, s.leases.Keys, s.enqueued, MAX_ATTEMPTS);
  }

  // ---- progress ----

  predicate Waiting(r: Row, now: int) {
    || r.Terminal()
    || (r.state == Queued && r.availableAt > now)
    || (r.state == Sending && !r.Expired(now))
  }

  /** A claim finds nothing exactly when every row is terminal, not yet due, or under an unexpired lease. */
  lemma IdleIff(s: System)
    requires Inv(s)
    ensures var swept := Sweep(s.rows, s.closing, s.clock);
      (forall id :: id in swept ==> !swept[id].Claimable(s.clock)) <==>
      (forall id :: id in swept ==> Waiting(swept[id], s.clock))
  {
    SweepKeeps(s);
    var swept := Sweep(s.rows, s.closing, s.clock);
    forall id | id in swept
      ensures !swept[id].Claimable(s.clock) <==> Waiting(swept[id], s.clock)
    {
      assert RowOk(swept[id], id, s.clock, s.leases);
    }
  }

  /** The row waits in the queue until `due`, or has been cancelled or erased, or `due` has passed. */
  predicate WaitsUntil(s: System, id: RowId, attempts: nat, due: int) {
    && id in s.enqueued
    && (s.clock >= due || (id in s.rows ==>
          s.rows[id].attempts == attempts
          && (s.rows[id].Terminal() || (s.rows[id].state == Queued && s.rows[id].availableAt == due))))
  }

  lemma WaitByAction(s: System, action: Action, id: RowId, attempts: nat, due: int)
    requires Inv(s) && WaitsUntil(s, id, attempts, due) && s.clock < due && id in s.rows
    ensures WaitsUntil(Apply(s, action), id, attempts, due)
  {
    assert RowOk(s.rows[id], id, s.clock, s.leases);
  }

  lemma ClockByAction(s: System, action: Action)
    ensures Apply(s, action).clock == s.clock && s.enqueued <= Apply(s, action).enqueued
  {
  }

  lemma WaitStep(s: System, step: Step, id: RowId, attempts: nat, due: int)
    requires Inv(s) && WaitsUntil(s, id, attempts, due)
    ensures WaitsUntil(Next(s, step), id, attempts, due)
  {
    hide Inv, Apply;
    TickKeeps(s, step.tick);
    var at := s.(clock := s.clock + step.tick);
    ClockByAction(at, step.action);
    if at.clock < due {
      if id in at.rows { WaitByAction(at, step.action, id, attempts, due); } else { ErasedByAction(at, step.action, id); }
    }
  }

  lemma {:induction false} WaitRun(s: System, steps: seq<Step>, id: RowId, attempts: nat, due: int)
    requires Inv(s) && WaitsUntil(s, id, attempts, due)
    ensures WaitsUntil(Run(s, steps), id, attempts, due)
    decreases |steps|
  {
    hide Inv, Next, WaitsUntil;
    if steps != [] {
      WaitStep(s, steps[0], id, attempts, due);
      StepKeeps(s, steps[0]);
      WaitRun(Next(s, steps[0]), steps[1..], id, attempts, due);
    }
  }

  lemma BackoffDoubles(k: nat)
    requires k < MAX_ATTEMPTS
    ensures Backoff(k) == 30 * Pow2(k) * SECOND
  {
    assert Pow2(0) == 1 && Pow2(1) == 2 && Pow2(2) == 4 && Pow2(3) == 8 && Pow2(4) == 16;
  }

  /** After attempt `k` is recorded as failed and requeued, the row is not attempted again for `30 * 2^k` seconds. */
  lemma RetryWaits(s: System, token: Token, steps: seq<Step>)
    requires Inv(s) && token in s.workers && s.workers[token].reply.Some?
    requires var w := s.workers[token];
      Holds(s.rows, w.id, token, s.clock) && DoComplete(s, token).rows[w.id].state == Queued
    ensures var w, later := s.workers[token], Run(DoComplete(s, token), steps);
      w.id in later.rows && later.rows[w.id].attempts > w.attempt ==> later.clock >= s.clock + 30 * Pow2(w.attempt) * SECOND
  {
    var w := s.workers[token];
    assert WorkerOk(w, token, s.rows, s.clock, s.leases) && RowOk(s.rows[w.id], w.id, s.clock, s.leases);
    CompleteKeeps(s, token);
    BackoffDoubles(w.attempt);
    WaitRun(DoComplete(s, token), steps, w.id, w.attempt, s.clock + Backoff(w.attempt));
  }

  // ---- closing accounts ----

  lemma {:induction false} ClosingGrows(s: System, steps: seq<Step>)
    ensures s.closing <= Run(s, steps).closing
    decreases |steps|
  {
    if steps != [] { ClosingGrows(Next(s, steps[0]), steps[1..]); }
  }

  /** After an account starts closing, no later claim hands out one of its rows. */
  lemma {:induction false} ClosingNeverClaimed(s: System, steps: seq<Step>, step: Step, user: UserId, t: Token)
    requires user in s.closing
    requires var before := Run(s, steps); t !in before.leases && t in Next(before, step).leases
    ensures var after := Next(Run(s, steps), step); t in after.workers && after.workers[t].user != user
  {
    ClosingGrows(s, steps);
  }

  // ---- mail to the address of a closed account ----

  /** Mail to the address is held back, and no row to it can be sent any more: each is finished, cancelled with its sender, or on its last attempt. */
  predicate QuietRow(r: Row, closing: set<UserId>) {
    r.Terminal() || r.user in closing || (r.state == Sending && r.attempts >= MAX_ATTEMPTS)
  }

  predicate Quiet(s: System, recipient: Recipient) {
    recipient in s.silenced && forall id :: id in s.rows && s.rows[id].recipient == recipient ==> QuietRow(s.rows[id], s.closing)
  }

  /** A row by somebody who is not leaving is being sent to the address, with attempts to spare. */
  predicate Exposed(s: System, recipient: Recipient, id: RowId) {
    && id in s.rows && s.rows[id].recipient == recipient && s.rows[id].state == Sending && s.rows[id].attempts < MAX_ATTEMPTS
    && s.rows[id].user !in s.closing
  }

  /** The step hands out the new lease `t` on a row to the address. */
  predicate HandsOut(s: System, step: Step, t: Token, recipient: Recipient) {
    var after := Next(s, step);
    t !in s.leases && t in after.leases && after.leases[t].id in after.rows && after.rows[after.leases[t].id].recipient == recipient
  }

  predicate KeepsSilence(steps: seq<Step>, recipient: Recipient) {
    forall k :: 0 <= k < |steps| ==> steps[k].action != Reopen(recipient)
  }

  /** No continuation in which the address stays closed hands out a row to it. */
  ghost predicate NeverHandedOut(s: System, recipient: Recipient) {
    forall steps: seq<Step>, step: Step, t: Token ::
      KeepsSilence(steps, recipient) && step.action != Reopen(recipient) ==> !HandsOut(Run(s, steps), step, t, recipient)
  }

  lemma QuietCompleted(s: System, token: Token, recipient: Recipient)
    requires Inv(s) && Quiet(s, recipient)
    ensures Quiet(DoComplete(s, token), recipient)
  {
    hide LeasesOk, CallsOk;
    if token in s.workers && s.workers[token].reply.Some? {
      var w := s.workers[token];
      assert WorkerOk(w, token, s.rows, s.clock, s.leases);
      if Holds(s.rows, w.id, token, s.clock) { assert RowOk(s.rows[w.id], w.id, s.clock, s.leases); }
    }
  }

  lemma QuietClaimed(s: System, token: Token, pick: Option<RowId>, recipient: Recipient)
    requires Quiet(s, recipient)
    ensures Quiet(DoClaim(s, token, pick), recipient)
  {
  }

  lemma QuietByAction(s: System, a: Action, recipient: Recipient)
    requires Inv(s) && Quiet(s, recipient) && a != Reopen(recipient)
    ensures Quiet(Apply(s, a), recipient)
  {
    hide Inv, DoComplete, DoClaim;
    if a.Complete? {
      QuietCompleted(s, a.token, recipient);
    } else if a.Claim? {
      QuietClaimed(s, a.token, a.pick, recipient);
    }
  }

  lemma QuietHandsOutNothing(s: System, step: Step, t: Token, recipient: Recipient)
    requires Quiet(s, recipient)
    ensures !HandsOut(s, step, t, recipient)
  {
  }

  lemma {:induction false} QuietForever(s: System, steps: seq<Step>, recipient: Recipient)
    requires Inv(s) && Quiet(s, recipient) && KeepsSilence(steps, recipient)
    ensures Quiet(Run(s, steps), recipient)
    decreases |steps|
  {
    hide Inv, Apply;
    if steps != [] {
      var at := s.(clock := s.clock + steps[0].tick);
      TickKeeps(s, steps[0].tick);
      assert Quiet(at, recipient);
      QuietByAction(at, steps[0].action, recipient);
      ApplyKeeps(at, steps[0].action);
      QuietForever(Next(s, steps[0]), steps[1..], recipient);
    }
  }

  /** An exposed row is handed out again as soon as its lease has run out. */
  lemma ExposedIsHandedOut(s: System, recipient: Recipient, id: RowId) returns (step: Step, t: Token)
    requires Inv(s) && Exposed(s, recipient, id)
    ensures step.action != Reopen(recipient) && HandsOut(s, step, t, recipient)
  {
    hide LeasesOk, WorkersOk, CallsOk;
    assert RowOk(s.rows[id], id, s.clock, s.leases);
    t := Unused(s.leases.Keys);
    var until := s.rows[id].leaseUntil.value;
    step := Step(if until > s.clock then until - s.clock else 0, Claim(t, Some(id)));
    assert t !in s.leases;
    assert Sweep(s.rows, s.closing, s.clock + step.tick)[id] == s.rows[id];
  }

  lemma DepartureExposes(s: System, user: UserId, recipient: Recipient)
    ensures var after := DoBeginDeletion(s, user, recipient);
      Quiet(after, recipient) <==> forall id :: !Exposed(after, recipient, id)
  {
    var after := DoBeginDeletion(s, user, recipient);
    forall id | id in after.rows && after.rows[id].recipient == recipient
      ensures QuietRow(after.rows[id], after.closing) <==> !Exposed(after, recipient, id)
    {
    }
  }

  /**
   From the moment an account starts closing, no row to its address is handed out while the address stays closed, if and only
   if none by another open account was being sent at that moment with attempts to spare: such a row is not withdrawn.
   */
  lemma DepartedAddressIff(s: System, user: UserId, recipient: Recipient)
    requires Inv(s)
    ensures var after := DoBeginDeletion(s, user, recipient);
      NeverHandedOut(after, recipient) <==> forall id :: !Exposed(after, recipient, id)
  {
    var after := DoBeginDeletion(s, user, recipient);
    CancelKeeps(s, user, recipient);
    hide Inv, DoBeginDeletion, Exposed, Run, Quiet, HandsOut;
    DepartureExposes(s, user, recipient);
    if forall id :: !Exposed(after, recipient, id) {
      forall steps: seq<Step>, step: Step, t: Token | KeepsSilence(steps, recipient) && step.action != Reopen(recipient)
        ensures !HandsOut(Run(after, steps), step, t, recipient)
      {
        QuietForever(after, steps, recipient);
        QuietHandsOutNothing(Run(after, steps), step, t, recipient);
      }
    } else {
      var id :| Exposed(after, recipient, id);
      var step, t := ExposedIsHandedOut(after, recipient, id);
      NothingDone(after);
      assert KeepsSilence([], recipient);
      assert HandsOut(Run(after, []), step, t, recipient);
    }
  }

  lemma NothingDone(s: System)
    ensures Run(s, []) == s
  {
  }

  /** A run: user 1 writes to the address of user 2, the row is claimed, and only then does user 2 leave. */
  function LateDeparture(): seq<Step> {
    [Step(0, Enqueue(0, 1, Mailbox(2))), Step(0, Claim(0, Some(0))), Step(0, BeginDeletion(2, Mailbox(2)))]
  }

  /** After it, the row is handed out again, to the address of an account that is closing. */
  lemma DepartedAddressCanBeMailed() returns (step: Step, t: Token)
    ensures var s := Run(INITIAL, LateDeparture()); 2 in s.closing && Mailbox(2) in s.silenced && HandsOut(s, step, t, Mailbox(2))
  {
    var steps := LateDeparture();
    var s1 := Next(INITIAL, steps[0]);
    assert s1.rows == map[0 := Row(1, Mailbox(2), Queued, 0, 0, None, None, 0)];
    var s2 := Next(s1, steps[1]);
    assert Sweep(s1.rows, {}, 0)[0] == s1.rows[0];
    assert 0 in s2.rows && s2.rows[0] == Row(1, Mailbox(2), Sending, 1, 0, Some(0), Some(LEASE), 0);
    var s3 := Next(s2, steps[2]);
    LateRun(s1, s2, s3);
    assert Exposed(s3, Mailbox(2), 0);
    Reachable(steps);
    step, t := ExposedIsHandedOut(s3, Mailbox(2), 0);
  }

  lemma LateRun(s1: System, s2: System, s3: System)
    requires var steps := LateDeparture(); s1 == Next(INITIAL, steps[0]) && s2 == Next(s1, steps[1]) && s3 == Next(s2, steps[2])
    ensures Run(INITIAL, LateDeparture()) == s3
  {
    hide Next;
    var steps := LateDeparture();
    assert steps[1..][0] == steps[1] && steps[1..][1..][0] == steps[2] && steps[1..][1..][1..] == [];
    assert Run(s1, steps[1..]) == Run(s2, steps[1..][1..]);
    assert Run(s2, steps[1..][1..]) == Run(s3, []);
  }
}
