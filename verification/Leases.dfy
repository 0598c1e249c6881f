/** Leases handed out by an outbox: each names a row and the attempt it was for. */
module Leases {
  import opened Common

  type Token = nat

  datatype Lease<Id> = Lease(id: Id, attempt: nat)

  /** A lease is identified by its row and attempt number. */
  predicate Distinct<Id(==)>(leases: map<Token, Lease<Id>>) {
    forall t, u :: t in leases && u in leases && leases[t] == leases[u] ==> t == u
  }

  predicate AttemptsInRange<Id>(leases: map<Token, Lease<Id>>, limit: nat) {
    forall t :: t in leases ==> 1 <= leases[t].attempt <= limit
  }

  /** A row has at most as many leases as it may have attempts. */
  lemma LeasesOfRow<Id>(leases: map<Token, Lease<Id>>, ts: set<Token>, id: Id, limit: nat)
    requires ts <= leases.Keys && AttemptsInRange(leases, limit) && Distinct(leases)
    requires forall t :: t in ts ==> leases[t].id == id
    ensures |ts| <= limit
  {
    var rank := map t | t in leases :: leases[t].attempt;
    forall t, u | t in ts && u in ts && rank[t] == rank[u] ensures t == u {
      assert leases[t] == leases[u];
    }
    InjectionBound(ts, rank, limit);
  }

  /** A log in which no lease appears twice. */
  predicate NoRepeats(calls: seq<Token>) { forall k, m :: 0 <= k < m < |calls| ==> calls[k] != calls[m] }

  /** The entries of a log of calls that were made for one row. */
  function CallsFor<Id(==)>(leases: map<Token, Lease<Id>>, calls: seq<Token>, id: Id): set<nat> {
    set k: nat | k < |calls| && calls[k] in leases && leases[calls[k]].id == id
  }

  /** With at most one call per lease, a row has at most as many calls as it may have attempts. */
  lemma CallsOfRow<Id>(leases: map<Token, Lease<Id>>, calls: seq<Token>, id: Id, limit: nat)
    requires AttemptsInRange(leases, limit) && Distinct(leases) && NoRepeats(calls)
    ensures |CallsFor(leases, calls, id)| <= limit
  {
    var ks := CallsFor(leases, calls, id);
    var rank := map k | k in ks :: leases[calls[k]].attempt;
    forall k, m | k in ks && m in ks && rank[k] == rank[m] ensures k == m {
      assert leases[calls[k]] == leases[calls[m]];
    }
    InjectionBound(ks, rank, limit);
  }

  /** Over all rows, the leases are bounded by rows times attempts. */
  lemma {:induction false} LeasesPerRow<Id>(leases: map<Token, Lease<Id>>, ts: set<Token>, ids: set<Id>, limit: nat)
    requires ts <= leases.Keys && AttemptsInRange(leases, limit) && Distinct(leases)
    requires forall t :: t in ts ==> leases[t].id in ids
    ensures |ts| <= limit * |ids|
    decreases |ids|
  {
    hide AttemptsInRange, Distinct;
    if ids == {} {
      assert ts == {};
    } else {
      var id :| id in ids;
      var here := set t | t in ts && leases[t].id == id;
      LeasesOfRow(leases, here, id, limit);
      LeasesPerRow(leases, ts - here, ids - {id}, limit);
      assert ts == here + (ts - here);
      assert limit * |ids| == limit * |ids - {id}| + limit;
    }
  }
}
