/** Shared value types, units of time and small arithmetic. */
module Common {

  /** Instants and durations count microseconds. */
  const SECOND: int := 1_000_000
  const MINUTE: int := 60 * SECOND
  const DAY: int := 1440 * MINUTE

  type UserId = nat

  /** A normalised e-mail address, or the one an erased account is given. Anyone may type the latter too. */
  datatype Address = Mailbox(name: nat) | Tombstone(user: UserId)

  function Larger(a: real, b: real): real { if a >= b then a else b }

  function Smaller(a: real, b: real): real { if a <= b then a else b }

  function Pow2(k: nat): nat { if k == 0 then 1 else 2 * Pow2(k - 1) }

  datatype Option<+T> = None | Some(value: T)

  datatype Result<+T, +E> = Ok(value: T) | Err(error: E) {
    predicate IsFailure() { Err? }

    function PropagateFailure<U>(): Result<U, E>
      requires Err?
    {
      Err(error)
    }

    function Extract(): T
      requires Ok?
    {
      value
    }
  }

  /** An injection into `1..k` bounds the size of its domain. */
  lemma {:induction false} InjectionBound<A>(s: set<A>, rank: map<A, nat>, k: nat)
    requires s <= rank.Keys
    requires forall a :: a in s ==> 1 <= rank[a] <= k
    requires forall a, b :: a in s && b in s && rank[a] == rank[b] ==> a == b
    ensures |s| <= k
  {
    if k == 0 {
      assert forall a :: a !in s;
      assert s == {};
    } else {
      var top := set a | a in s && rank[a] == k;
      var rest := s - top;
      InjectionBound(rest, rank, k - 1);
      if top != {} {
        var a :| a in top;
        assert top == {a};
      }
      assert s == rest + top;
    }
  }

  ghost predicate IsLeast(m: nat, s: set<nat>) { m in s && forall x :: x in s ==> m <= x }

  /** The least element of a non-empty set. */
  ghost function Least(s: set<nat>): (m: nat)
    requires s != {}
    ensures IsLeast(m, s)
  {
    HasLeast(s);
    var m :| IsLeast(m, s);
    m
  }

  lemma {:induction false} HasLeast(s: set<nat>)
    requires s != {}
    ensures exists m :: IsLeast(m, s)
    decreases |s|
  {
    var m :| m in s;
    if s == {m} {
      assert IsLeast(m, s);
    } else {
      HasLeast(s - {m});
      var k :| IsLeast(k, s - {m});
      assert forall x :: x in s ==> x == m || x in s - {m};
      assert IsLeast(if k <= m then k else m, s);
    }
  }

  method Smallest(s: set<nat>) returns (m: nat)
    requires s != {}
    ensures IsLeast(m, s)
  {
    HasLeast(s);
    assert exists k :: k in s && forall x :: x in s ==> k <= x by {
      var k :| IsLeast(k, s);
    }
    m :| m in s && forall x :: x in s ==> m <= x;
  }

  lemma {:induction false} SubsetSize<T>(a: set<T>, b: set<T>)
    requires a <= b
    ensures |a| <= |b|
    decreases a
  {
    if a != {} {
      var x :| x in a;
      SubsetSize(a - {x}, b - {x});
    }
  }

  /** An element of least rank. */
  method LeastRanked(s: set<nat>, rank: map<nat, int>) returns (m: nat)
    requires s != {} && s <= rank.Keys
    ensures m in s && forall x :: x in s ==> rank[m] <= rank[x]
  {
    m :| m in s;
    var rest := s - {m};
    while rest != {}
      invariant m in s && rest <= s
      invariant forall x :: x in s - rest ==> rank[m] <= rank[x]
      decreases rest
    {
      var x :| x in rest;
      if rank[x] < rank[m] { m := x; }
      rest := rest - {x};
    }
  }

  /** Some number is in no finite set. */
  lemma {:induction false} Unused(s: set<nat>) returns (n: nat)
    ensures n !in s && forall x :: x in s ==> x < n
    decreases |s|
  {
    n := 0;
    if s != {} {
      var m :| m in s;
      var k := Unused(s - {m});
      n := if k > m then k else m + 1;
      assert forall x :: x in s ==> x == m || x in s - {m};
    }
  }
}
