/**
 The informational alert outbox: idempotent enqueueing, leased delivery with a
 superseding token, and completion in a second transaction.

 Alert identities are the events themselves, since the digest that names a row is
 injective. Each transaction is one atomic step.
 */
module AlertOutbox {
  import opened Common
  import opened Leases

  const LEASE: int := 60 * SECOND
  const MAX_ATTEMPTS: nat := 3
  const BATCH: nat := 100

  datatype Channel = Web | Email | Telegram

  datatype Event = ResearchCompleted | StateChanged | SignalExpired | MaterialInvalidation

  datatype AlertId = AlertId(job: nat, event: Event, key: string, channel: Channel)

  datatype State = Pending | Retry | Delivering | Delivered | Failed | Blocked

  datatype Alert = Alert(state: State, attempts: nat, token: Option<Token>, leaseUntil: Option<int>) {
    predicate Active() { state == Pending || state == Retry || state == Delivering }

    /** May be taken now: not being delivered, or its delivery lease has run out. */
    predicate Eligible(now: int) {
      Active() && (state == Delivering ==> leaseUntil.Some? && leaseUntil.value <= now)
    }
  }

  type Alerts = map<AlertId, Alert>

  /** A research job as far as enqueueing looks at it: whether it is complete or rejected. */
  datatype Job = Job(finished: bool)

  datatype Refusal = NotAResearchEvent | ResearchNotComplete

  // ---- the transactions ----

  function EnqueueRefusal(id: AlertId, job: Option<Job>): Option<Refusal> {
    if job.None? || id.key == "" || |id.key| > 200 then Some(NotAResearchEvent)
    else if id.event == ResearchCompleted && !job.value.finished then Some(ResearchNotComplete)
    else None
  }

  function Enqueued(alerts: Alerts, id: AlertId, job: Option<Job>): Alerts {
    if EnqueueRefusal(id, job).Some? || id in alerts then alerts
    else alerts[id := Alert(if id.channel == Web then Delivered else Pending, 0, None, None)]
  }

  /** Which providers are configured, and whether each supports idempotency. */
  type Providers = map<Channel, bool>

  predicate Deliverable(id: AlertId, providers: Providers) {
    id.channel == Web || (id.channel in providers && providers[id.channel])
  }

  function Claimed(a: Alert, token: Token, now: int): Alert {
    a.(state := Delivering, attempts := a.attempts + 1, token := Some(token), leaseUntil := Some(now + LEASE))
  }

  /** What the first transaction does to the row it picked. */
  function Taken(id: AlertId, a: Alert, providers: Providers, token: Token, now: int): Alert {
    if !Deliverable(id, providers) then a.(state := Blocked)
    else if a.attempts >= MAX_ATTEMPTS then a.(state := Failed)
    else Claimed(a, token, now)
  }

  /** The second transaction: only the latest delivery token may record a result. */
  function Completed(alerts: Alerts, id: AlertId, token: Token, delivered: bool): Alerts {
    if id in alerts && alerts[id].token == Some(token)
    then alerts[id := alerts[id].(state := if delivered then Delivered else Retry)] else alerts
  }

  /** The first eligible position among the first hundred active rows. */
  predicate FirstEligible(alerts: Alerts, order: seq<AlertId>, now: int, k: nat) {
    && k < |order| && k < BATCH && order[k] in alerts && alerts[order[k]].Eligible(now)
    && forall m :: 0 <= m < k ==> order[m] in alerts && !alerts[order[m]].Eligible(now)
  }

  class Outbox {
    var alerts: Alerts

    constructor ()
      ensures alerts == map[]
    {
      alerts := map[];
    }

    /** Adds the event's one row unless it is there or is refused; every row already there is untouched. */
    method Enqueue(id: AlertId, job: Option<Job>) returns (r: Result<AlertId, Refusal>)
      modifies this
      ensures forall x :: x in old(alerts) ==> x in alerts && alerts[x] == old(alerts)[x]
      ensures r.Ok? ==> r.value == id && alerts.Keys == old(alerts).Keys + {id}
      ensures r.Err? ==> alerts == old(alerts)
      ensures r.Ok? && id !in old(alerts) ==> (if id.channel == Web then alerts[id].state == Delivered else alerts[id].Eligible(0))
      ensures alerts == Enqueued(old(alerts), id, job)
      ensures match EnqueueRefusal(id, job) case Some(e) => r == Err(e) case None => r == Ok(id)
    {
      if job.None? || id.key == "" || |id.key| > 200 { return Err(NotAResearchEvent); }
      if id.event == ResearchCompleted && !job.value.finished { return Err(ResearchNotComplete); }
      if id !in alerts {
        alerts := alerts[id := Alert(if id.channel == Web then Delivered else Pending, 0, None, None)];
      }
      r := Ok(id);
    }

    /**
     Takes one row of `order`, the active rows by creation time: nothing is taken only when none of the
     first hundred is eligible.
     */
    method Claim(order: seq<AlertId>, providers: Providers, token: Token, now: int) returns (taken: Option<AlertId>)
      requires forall k :: 0 <= k < |order| ==> order[k] in alerts && alerts[order[k]].Active()
      modifies this
      ensures match taken
        case None => alerts == old(alerts) && forall k :: 0 <= k < |order| && k < BATCH ==> !alerts[order[k]].Eligible(now)
        case Some(id) =>
          && (exists k: nat :: FirstEligible(old(alerts), order, now, k) && order[k] == id)
          && alerts == old(alerts)[id := Taken(id, old(alerts)[id], providers, token, now)]
    {
      var k := 0;
      while k < |order| && k < BATCH && !alerts[order[k]].Eligible(now)
        invariant 0 <= k <= |order| && k <= BATCH
        invariant forall m :: 0 <= m < k ==> !alerts[order[m]].Eligible(now)
      {
        k := k + 1;
      }
      if k == |order| || k == BATCH { return None; }
      var id := order[k];
      assert FirstEligible(alerts, order, now, k);
      var row := alerts[id];
      if id.channel != Web && (id.channel !in providers || !providers[id.channel]) {
        alerts := alerts[id := row.(state := Blocked)];
      } else if row.attempts >= MAX_ATTEMPTS {
        alerts := alerts[id := row.(state := Failed)];
      } else {
        alerts := alerts[id := Claimed(row, token, now)];
      }
      taken := Some(id);
    }

    /** Without the row's latest token it changes nothing; with it, it decides that row and touches no other. */
    method Complete(id: AlertId, token: Token, delivered: bool)
      modifies this
      ensures alerts == Completed(old(alerts), id, token, delivered)
      ensures !(id in old(alerts) && old(alerts)[id].token == Some(token)) ==> alerts == old(alerts)
      ensures alerts.Keys == old(alerts).Keys && forall x :: x in alerts && x != id ==> alerts[x] == old(alerts)[x]
      ensures id in old(alerts) && old(alerts)[id].token == Some(token) ==>
        && (alerts[id].state == Delivered <==> delivered) && (alerts[id].state == Retry <==> !delivered)
        && alerts[id].attempts == old(alerts)[id].attempts
    {
      if id in alerts && alerts[id].token == Some(token) {
        alerts := alerts[id := alerts[id].(state := if delivered then Delivered else Retry)];
      }
    }
  }

  // ---- the whole system ----

  /** A worker between its claim and its completion; without a provider there is nothing to call. */
  datatype Worker = Worker(id: AlertId, attempt: nat, provider: Option<bool>, delivered: Option<bool>)

  /** The table, the workers in flight, and so far: the leases, every provider call in order with its idempotency support, and the successes. */
  datatype System = System(
    clock: int, alerts: Alerts, workers: map<Token, Worker>, leases: map<Token, Lease<AlertId>>,
    calls: seq<Token>, support: map<Token, bool>, succeeded: set<AlertId>)

  datatype Action =
    | Enqueue(id: AlertId, job: Option<Job>)
    | Claim(pick: AlertId, providers: Providers, token: Token)
    | Deliver(token: Token, success: bool)
    | Complete(token: Token)
    | Crash(token: Token)

  datatype Step = Step(tick: nat, action: Action)

  const INITIAL: System := System(0, map[], map[], map[], [], map[], {})

  function DoClaim(s: System, id: AlertId, providers: Providers, token: Token): System {
    if token in s.leases || id !in s.alerts || !s.alerts[id].Eligible(s.clock) then s
    else
      var a := s.alerts[id];
      var taken := s.(alerts := s.alerts[id := Taken(id, a, providers, token, s.clock)]);
      if !Deliverable(id, providers) || a.attempts >= MAX_ATTEMPTS then taken
      else
        var provider := if id.channel in providers then Some(providers[id.channel]) else None;
        taken.(workers := s.workers[token := Worker(id, a.attempts + 1, provider, None)],
               leases := s.leases[token := Lease(id, a.attempts + 1)])
  }

  /** The provider, when there is one, is called with its idempotency support on record. */
  function DoDeliver(s: System, token: Token, success: bool): System {
    if token !in s.workers || s.workers[token].delivered.Some? then s
    else
      var w := s.workers[token];
      if w.provider.None? then s.(workers := s.workers[token := w.(delivered := Some(true))])
      else s.(workers := s.workers[token := w.(delivered := Some(success))], calls := s.calls + [token],
              support := s.support[token := w.provider.value],
              succeeded := if success then s.succeeded + {w.id} else s.succeeded)
  }

  function DoComplete(s: System, token: Token): System {
    if token !in s.workers || s.workers[token].delivered.None? then s
    else
      var w := s.workers[token];
      s.(alerts := Completed(s.alerts, w.id, token, w.delivered.value), workers := s.workers - {token})
  }

  function Apply(s: System, action: Action): System {
    match action
    case Enqueue(id, job) => s.(alerts := Enqueued(s.alerts, id, job))
    case Claim(id, providers, token) => DoClaim(s, id, providers, token)
    case Deliver(token, success) => DoDeliver(s, token, success)
    case Complete(token) => DoComplete(s, token)
    case Crash(token) => s.(workers := s.workers - {token})
  }

  function Next(s: System, step: Step): System {
    Apply(s.(clock := s.clock + step.tick), step.action)
  }

  function Run(s: System, steps: seq<Step>): System
    decreases |steps|
  {
    if steps == [] then s else Run(Next(s, steps[0]), steps[1..])
  }

  // ---- what every step keeps ----

  predicate AlertOk(a: Alert, id: AlertId, s: System) {
    && a.attempts <= MAX_ATTEMPTS
    && (id.channel == Web ==> a.state == Delivered)
    && (a.state == Delivered ==> id.channel == Web || id in s.succeeded)
    && (a.token.Some? ==> a.token.value in s.leases && s.leases[a.token.value] == Lease(id, a.attempts))
    && (a.state == Delivered && a.token.Some? ==> a.token.value !in s.workers)
  }

  predicate LeaseOk(l: Lease<AlertId>, alerts: Alerts) {
    l.id in alerts && 1 <= l.attempt <= alerts[l.id].attempts
  }

  predicate WorkerOk(w: Worker, t: Token, s: System) {
    && t in s.leases && s.leases[t] == Lease(w.id, w.attempt)
    && w.id.channel != Web && w.provider == Some(true)
    && (w.delivered.None? ==> t !in s.calls)
    && (w.delivered == Some(true) ==> w.id in s.succeeded)
  }

  predicate Inv(s: System) {
    && (forall id :: id in s.alerts ==> AlertOk(s.alerts[id], id, s))
    && (forall t :: t in s.leases ==> LeaseOk(s.leases[t], s.alerts)) && Distinct(s.leases)
    && (forall t :: t in s.workers ==> WorkerOk(s.workers[t], t, s))
    && NoRepeats(s.calls) && (forall t :: t in s.calls ==> t in s.leases && t in s.support && s.support[t])
  }

  lemma TickKeeps(s: System, tick: nat)
    requires Inv(s)
    ensures Inv(s.(clock := s.clock + tick))
  {
    var s' := s.(clock := s.clock + tick);
    forall id | id in s'.alerts ensures AlertOk(s'.alerts[id], id, s') { assert AlertOk(s.alerts[id], id, s); }
    forall t | t in s'.workers ensures WorkerOk(s'.workers[t], t, s') { assert WorkerOk(s.workers[t], t, s); }
  }

  lemma EnqueueKeeps(s: System, id: AlertId, job: Option<Job>)
    requires Inv(s)
    ensures Inv(s.(alerts := Enqueued(s.alerts, id, job)))
  {
    var s' := s.(alerts := Enqueued(s.alerts, id, job));
    forall k | k in s'.alerts ensures AlertOk(s'.alerts[k], k, s') { assert k in s.alerts ==> AlertOk(s.alerts[k], k, s); }
    forall t | t in s'.leases ensures LeaseOk(s'.leases[t], s'.alerts) { assert LeaseOk(s.leases[t], s.alerts); }
    forall t | t in s'.workers ensures WorkerOk(s'.workers[t], t, s') { assert WorkerOk(s.workers[t], t, s); }
  }

  lemma StopKeeps(s: System, id: AlertId, state: State)
    requires Inv(s) && id in s.alerts && s.alerts[id].Active() && (state == Blocked || state == Failed)
    ensures Inv(s.(alerts := s.alerts[id := s.alerts[id].(state := state)]))
  {
    var s' := s.(alerts := s.alerts[id := s.alerts[id].(state := state)]);
    forall k | k in s'.alerts ensures AlertOk(s'.alerts[k], k, s') { assert AlertOk(s.alerts[k], k, s); }
    forall t | t in s'.leases ensures LeaseOk(s'.leases[t], s'.alerts) { assert LeaseOk(s.leases[t], s.alerts); }
    forall t | t in s'.workers ensures WorkerOk(s'.workers[t], t, s') { assert WorkerOk(s.workers[t], t, s); }
  }

  function Leased(s: System, id: AlertId, provider: Option<bool>, token: Token): System
    requires id in s.alerts
  {
    var a := s.alerts[id];
    s.(alerts := s.alerts[id := Claimed(a, token, s.clock)],
       workers := s.workers[token := Worker(id, a.attempts + 1, provider, None)],
       leases := s.leases[token := Lease(id, a.attempts + 1)])
  }

  lemma LeaseKeeps(s: System, id: AlertId, token: Token)
    requires Inv(s) && token !in s.leases && id in s.alerts && s.alerts[id].Active() && s.alerts[id].attempts < MAX_ATTEMPTS
    ensures Inv(Leased(s, id, Some(true), token))
  {
    var s' := Leased(s, id, Some(true), token);
    assert AlertOk(s.alerts[id], id, s);
    forall k | k in s'.alerts ensures AlertOk(s'.alerts[k], k, s') { assert AlertOk(s.alerts[k], k, s); }
    forall t | t in s'.leases ensures LeaseOk(s'.leases[t], s'.alerts) && (t != token ==> s'.leases[t] != s'.leases[token]) {
      assert t in s.leases ==> LeaseOk(s.leases[t], s.alerts);
    }
    assert Distinct(s'.leases);
    forall t | t in s'.workers ensures WorkerOk(s'.workers[t], t, s') { assert t in s.workers ==> WorkerOk(s.workers[t], t, s); }
  }

  lemma ClaimKeeps(s: System, id: AlertId, providers: Providers, token: Token)
    requires Inv(s)
    ensures Inv(DoClaim(s, id, providers, token))
  {
    if token !in s.leases && id in s.alerts && s.alerts[id].Eligible(s.clock) {
      assert AlertOk(s.alerts[id], id, s);
      hide Inv;
      if !Deliverable(id, providers) {
        StopKeeps(s, id, Blocked);
      } else if s.alerts[id].attempts >= MAX_ATTEMPTS {
        StopKeeps(s, id, Failed);
      } else {
        LeaseKeeps(s, id, token);
        assert DoClaim(s, id, providers, token) == Leased(s, id, Some(true), token);
      }
    }
  }

  lemma DeliverKeeps(s: System, token: Token, success: bool)
    requires Inv(s)
    ensures Inv(DoDeliver(s, token, success))
  {
    if token in s.workers && s.workers[token].delivered.None? {
      var s' := DoDeliver(s, token, success);
      assert WorkerOk(s.workers[token], token, s);
      forall k | k in s'.alerts ensures AlertOk(s'.alerts[k], k, s') { assert AlertOk(s.alerts[k], k, s); }
      forall t | t in s'.workers ensures WorkerOk(s'.workers[t], t, s') { assert WorkerOk(s.workers[t], t, s); }
    }
  }

  lemma CompleteKeeps(s: System, token: Token)
    requires Inv(s)
    ensures Inv(DoComplete(s, token))
  {
    if token in s.workers && s.workers[token].delivered.Some? {
      var s' := DoComplete(s, token);
      assert WorkerOk(s.workers[token], token, s);
      forall k | k in s'.alerts ensures AlertOk(s'.alerts[k], k, s') { assert AlertOk(s.alerts[k], k, s); }
      forall t | t in s'.leases ensures LeaseOk(s'.leases[t], s'.alerts) { assert LeaseOk(s.leases[t], s.alerts); }
      forall t | t in s'.workers ensures WorkerOk(s'.workers[t], t, s') { assert WorkerOk(s.workers[t], t, s); }
    }
  }

  lemma CrashKeeps(s: System, token: Token)
    requires Inv(s)
    ensures Inv(s.(workers := s.workers - {token}))
  {
    var s' := s.(workers := s.workers - {token});
    forall k | k in s'.alerts ensures AlertOk(s'.alerts[k], k, s') { assert AlertOk(s.alerts[k], k, s); }
    forall t | t in s'.workers ensures WorkerOk(s'.workers[t], t, s') { assert WorkerOk(s.workers[t], t, s); }
  }

  lemma ApplyKeeps(s: System, action: Action)
    requires Inv(s)
    ensures Inv(Apply(s, action))
  {
    hide Inv, Enqueued, DoClaim, DoDeliver, DoComplete;
    match action
    case Enqueue(id, job) => EnqueueKeeps(s, id, job);
    case Claim(id, providers, token) => ClaimKeeps(s, id, providers, token);
    case Deliver(token, success) => DeliverKeeps(s, token, success);
    case Complete(token) => CompleteKeeps(s, token);
    case Crash(token) => CrashKeeps(s, token);
  }

  lemma {:induction false} RunKeeps(s: System, steps: seq<Step>)
    requires Inv(s)
    ensures Inv(Run(s, steps))
    decreases |steps|
  {
    hide Inv, Apply;
    if steps != [] {
      TickKeeps(s, steps[0].tick);
      ApplyKeeps(s.(clock := s.clock + steps[0].tick), steps[0].action);
      RunKeeps(Next(s, steps[0]), steps[1..]);
    }
  }

  /** Every reachable state satisfies the invariant. */
  lemma Reachable(steps: seq<Step>)
    ensures Inv(Run(INITIAL, steps))
  {
    RunKeeps(INITIAL, steps);
  }

  // ---- the promises ----

  lemma {:induction false} AlertsStay(s: System, steps: seq<Step>, id: AlertId)
    requires id in s.alerts
    ensures id in Run(s, steps).alerts
    decreases |steps|
  {
    if steps != [] { AlertsStay(Next(s, steps[0]), steps[1..], id); }
  }

  /** Once an event is enqueued, enqueueing it again at any later time changes nothing. */
  lemma EnqueueIsIdempotent(s: System, steps: seq<Step>, id: AlertId, job: Option<Job>, again: Option<Job>)
    requires EnqueueRefusal(id, job).None?
    ensures var later := Run(Apply(s, Enqueue(id, job)), steps);
      id in later.alerts && Apply(later, Enqueue(id, again)) == later
  {
    AlertsStay(Apply(s, Enqueue(id, job)), steps, id);
  }

  /**
   Over every run the log of provider calls has at most three entries for any alert, each made under a lease and with
   idempotency support, and delivering again under a lease that has seen its call does nothing.
   */
  lemma AtMostThreeCalls(steps: seq<Step>, id: AlertId)
    ensures var s := Run(INITIAL, steps);
      |CallsFor(s.leases, s.calls, id)| <= MAX_ATTEMPTS && forall t :: t in s.calls ==> t in s.leases && t in s.support && s.support[t]
    ensures var s := Run(INITIAL, steps); forall t: Token, success: bool :: t in s.calls ==> DoDeliver(s, t, success) == s
  {
    hide Run;
    Reachable(steps);
    var s := Run(INITIAL, steps);
    forall t | t in s.leases ensures 1 <= s.leases[t].attempt <= MAX_ATTEMPTS {
      assert LeaseOk(s.leases[t], s.alerts);
      assert AlertOk(s.alerts[s.leases[t].id], s.leases[t].id, s);
    }
    CallsOfRow(s.leases, s.calls, id, MAX_ATTEMPTS);
    forall t: Token, success: bool | t in s.calls ensures DoDeliver(s, t, success) == s { NoSecondCall(s, t, success); }
  }

  lemma NoSecondCall(s: System, t: Token, success: bool)
    requires Inv(s) && t in s.calls
    ensures DoDeliver(s, t, success) == s
  {
    if t in s.workers { assert WorkerOk(s.workers[t], t, s); }
  }

  /** A newer claim has replaced token `t` on its row. */
  predicate Superseded(s: System, t: Token) {
    t in s.leases && s.leases[t].id in s.alerts && s.alerts[s.leases[t].id].token != Some(t)
  }

  lemma SupersededByAction(s: System, action: Action, t: Token)
    requires Inv(s) && Superseded(s, t)
    ensures Superseded(Apply(s, action), t)
  {
  }

  lemma SupersededStep(s: System, step: Step, t: Token)
    requires Inv(s) && Superseded(s, t)
    ensures Superseded(Next(s, step), t)
  {
    hide Inv, Apply;
    TickKeeps(s, step.tick);
    SupersededByAction(s.(clock := s.clock + step.tick), step.action, t);
  }

  /** A superseded delivery never changes the row, at any later moment. */
  lemma {:induction false} SupersededForever(s: System, steps: seq<Step>, t: Token)
    requires Inv(s) && Superseded(s, t)
    ensures Superseded(Run(s, steps), t)
    ensures DoComplete(Run(s, steps), t).alerts == Run(s, steps).alerts
    decreases |steps|
  {
    hide Next;
    if steps == [] {
      if t in s.workers { assert WorkerOk(s.workers[t], t, s); }
    } else {
      SupersededStep(s, steps[0], t);
      RunKeeps(s, [steps[0]]);
      assert Run(s, [steps[0]]) == Next(s, steps[0]) by { assert [steps[0]][1..] == []; }
      SupersededForever(Next(s, steps[0]), steps[1..], t);
    }
  }

  lemma DeliveredByAction(s: System, action: Action, id: AlertId)
    requires Inv(s) && id in s.alerts && s.alerts[id].state == Delivered
    ensures id in Apply(s, action).alerts && Apply(s, action).alerts[id] == s.alerts[id]
  {
    assert AlertOk(s.alerts[id], id, s);
    if action.Complete? && action.token in s.workers { assert WorkerOk(s.workers[action.token], action.token, s); }
  }

  /** DELIVERED is absorbing. */
  lemma {:induction false} DeliveredForever(s: System, steps: seq<Step>, id: AlertId)
    requires Inv(s) && id in s.alerts && s.alerts[id].state == Delivered
    ensures id in Run(s, steps).alerts && Run(s, steps).alerts[id] == s.alerts[id]
    decreases |steps|
  {
    hide Inv, Apply;
    if steps != [] {
      var at := s.(clock := s.clock + steps[0].tick);
      TickKeeps(s, steps[0].tick);
      ApplyKeeps(at, steps[0].action);
      DeliveredByAction(at, steps[0].action, id);
      DeliveredForever(Next(s, steps[0]), steps[1..], id);
    }
  }

  /** A delivered alert is a web alert or one whose provider call succeeded. */
  lemma DeliveredIsReal(steps: seq<Step>, id: AlertId)
    requires var s := Run(INITIAL, steps); id in s.alerts && s.alerts[id].state == Delivered
    ensures id.channel == Web || id in Run(INITIAL, steps).succeeded
  {
    Reachable(steps);
    var s := Run(INITIAL, steps);
    assert AlertOk(s.alerts[id], id, s);
  }
}
