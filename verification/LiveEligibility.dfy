/**
 The live eligibility service: broker membership, cached for at most one refresh
 interval, joined on every call with freshly read, independently expiring reviews.

 The broker, the review source and the clock are arbitrary: each call supplies
 what they answered. The ethics and mandate rules are one predicate of an
 instrument and an instant.
 */
module LiveEligibility {
  import opened Common
  import Isin

  /** A broker row as received; any field may be missing. */
  datatype BrokerRow = BrokerRow(ticker: Option<string>, isin: Option<string>, currency: Option<string>, kind: Option<string>)

  datatype Clearance = Clearance(isins: seq<string>, contentHash: nat)

  datatype Metadata = Metadata(
    ticker: string, quoteCurrency: string, provider: string, instrumentType: string, clearance: Option<Clearance>)

  datatype Identifiers = Identifiers(
    ticker: string, brokerId: string, isin: string, quoteCurrency: string, verifiedAt: int, validUntil: int)

  datatype Review = Review(metadata: Metadata, identifiers: Identifiers, ethicalProof: nat) {
    /** The review's own contract, re-checked on every access. */
    predicate Valid() {
      && Isin.Valid(identifiers.isin) && identifiers.verifiedAt < identifiers.validUntil
      && metadata.ticker == identifiers.ticker && metadata.quoteCurrency == identifiers.quoteCurrency
      && metadata.provider != "money-demo"
      && (metadata.clearance.Some? ==>
            identifiers.isin in metadata.clearance.value.isins && ethicalProof == metadata.clearance.value.contentHash)
    }

    predicate CurrentAt(now: int) { identifiers.verifiedAt <= now < identifiers.validUntil }

    predicate MatchedBy(row: BrokerRow) {
      && row.isin == Some(identifiers.isin) && row.currency == Some(metadata.quoteCurrency)
      && row.kind == Some(metadata.instrumentType)
    }
  }

  /** True when the instrument fails the research mandate at the instant. */
  type Rule = (Metadata, int) -> bool

  // ---- the uncached join ----

  predicate Listed(rows: seq<BrokerRow>, r: Review) {
    exists k :: 0 <= k < |rows| && rows[k].ticker == Some(r.identifiers.brokerId) && r.MatchedBy(rows[k])
  }

  /** A currently valid review of a listed, permitted instrument. */
  predicate Qualifies(rows: seq<BrokerRow>, r: Review, now: int, fails: Rule) {
    r.Valid() && r.CurrentAt(now) && Listed(rows, r) && !fails(r.metadata, now)
  }

  function Join(rows: seq<BrokerRow>, reviews: seq<Review>, now: int, fails: Rule): seq<Metadata> {
    if reviews == [] then []
    else
      var last := reviews[|reviews| - 1];
      Join(rows, reviews[..|reviews| - 1], now, fails) + if Qualifies(rows, last, now, fails) then [last.metadata] else []
  }

  // ---- the index over broker rows ----

  type Index = map<string, BrokerRow>

  /** Rows are usable when every ticker is present, non-empty and unique. */
  predicate Unambiguous(rows: seq<BrokerRow>) {
    && (forall k :: 0 <= k < |rows| ==> rows[k].ticker.Some? && rows[k].ticker.value != "")
    && (forall k, m :: 0 <= k < m < |rows| ==> rows[k].ticker != rows[m].ticker)
  }

  predicate Indexes(index: Index, rows: seq<BrokerRow>) {
    && (forall t :: t in index ==> exists k :: 0 <= k < |rows| && rows[k].ticker == Some(t) && rows[k] == index[t])
    && (forall k :: 0 <= k < |rows| ==> rows[k].ticker.Some? && rows[k].ticker.value in index && index[rows[k].ticker.value] == rows[k])
  }

  lemma IndexGrows(index: Index, rows: seq<BrokerRow>, row: BrokerRow)
    requires Unambiguous(rows) && Indexes(index, rows)
    requires row.ticker.Some? && row.ticker.value != "" && row.ticker.value !in index
    ensures Unambiguous(rows + [row]) && Indexes(index[row.ticker.value := row], rows + [row])
  {
    var next, all := index[row.ticker.value := row], rows + [row];
    forall t | t in next ensures exists k :: 0 <= k < |all| && all[k].ticker == Some(t) && all[k] == next[t] {
      if t == row.ticker.value {
        assert all[|rows|] == row;
      } else {
        var k :| 0 <= k < |rows| && rows[k].ticker == Some(t) && rows[k] == index[t];
        assert all[k] == rows[k];
      }
    }
  }

  lemma IndexClashes(index: Index, rows: seq<BrokerRow>, k: nat)
    requires k < |rows| && Indexes(index, rows[..k])
    requires rows[k].ticker.Some? ==> rows[k].ticker.value == "" || rows[k].ticker.value in index
    ensures !Unambiguous(rows)
  {
    if rows[k].ticker.Some? && rows[k].ticker.value in index {
      var m :| 0 <= m < k && rows[..k][m].ticker == rows[k].ticker;
      assert rows[m].ticker == rows[k].ticker;
    }
  }

  method BuildIndex(rows: seq<BrokerRow>) returns (index: Option<Index>)
    ensures index.Some? <==> Unambiguous(rows)
    ensures index.Some? ==> Indexes(index.value, rows)
  {
    hide Unambiguous, Indexes;
    var built: Index := map[];
    NothingIndexed();
    assert rows[..0] == [];
    for k := 0 to |rows|
      invariant Unambiguous(rows[..k]) && Indexes(built, rows[..k])
    {
      var ticker := rows[k].ticker;
      if ticker.None? || ticker.value == "" || ticker.value in built {
        IndexClashes(built, rows, k);
        return None;
      }
      IndexGrows(built, rows[..k], rows[k]);
      assert rows[..k + 1] == rows[..k] + [rows[k]];
      built := built[ticker.value := rows[k]];
    }
    assert rows[..|rows|] == rows;
    index := Some(built);
  }

  lemma NothingIndexed()
    ensures Unambiguous([]) && Indexes(map[], [])
  {
  }

  /** Looking a review up in the index finds the row a scan would find. */
  lemma LookupIsScan(index: Index, rows: seq<BrokerRow>, r: Review)
    requires Indexes(index, rows)
    ensures (r.identifiers.brokerId in index && r.MatchedBy(index[r.identifiers.brokerId])) <==> Listed(rows, r)
  {
  }

  // ---- the service ----

  datatype Fetch = Fails | Fetched(rows: seq<BrokerRow>)

  /** What the outside answered during one call: clock, broker, reviews, clock again. A naive timestamp is no reading. */
  datatype Call = Call(first: Option<int>, broker: Fetch, reviews: Option<seq<Review>>, second: Option<int>)

  datatype Error = TimestampInvalid | BrokerUnavailable | MetadataAmbiguous | ReviewsUnavailable | MetadataStale | DuplicateIdentity

  predicate DistinctIdentities(reviews: seq<Review>) {
    forall k, m :: 0 <= k < m < |reviews| ==>
      reviews[k].metadata.ticker != reviews[m].metadata.ticker && reviews[k].identifiers.brokerId != reviews[m].identifiers.brokerId
  }

  /** What is cached: the rows of one broker answer and when the call that fetched them started. */
  datatype Cache = Empty | Cached(rows: seq<BrokerRow>, at: int)

  predicate Fresh(c: Cache, now: int, interval: int) {
    c.Cached? && c.at <= now < c.at + interval
  }

  /** The cache after the refresh phase, or the error that ended the call. */
  function Refreshed(c: Cache, call: Call, interval: int): Result<Cache, Error>
    requires call.first.Some?
  {
    if Fresh(c, call.first.value, interval) then Ok(c)
    else if call.broker.Fails? then Err(BrokerUnavailable)
    else if !Unambiguous(call.broker.rows) then Err(MetadataAmbiguous)
    else Ok(Cached(call.broker.rows, call.first.value))
  }

  datatype Served = Served(cache: Cache, result: Result<seq<Metadata>, Error>)

  /** One call against a cache. */
  function Serve(c: Cache, call: Call, interval: int, fails: Rule): Served {
    if call.first.None? then Served(c, Err(TimestampInvalid))
    else
      var refreshed := Refreshed(c, call, interval);
      if refreshed.Err? then Served(Empty, Err(refreshed.error))
      else
        var d := refreshed.value;
        if call.reviews.None? then Served(d, Err(ReviewsUnavailable))
        else if call.second.None? then Served(d, Err(TimestampInvalid))
        else if !Fresh(d, call.second.value, interval) then Served(Empty, Err(MetadataStale))
        else if !DistinctIdentities(call.reviews.value) then Served(d, Err(DuplicateIdentity))
        else Served(d, Ok(Join(d.rows, call.reviews.value, call.second.value, fails)))
  }

  class Service {
    const interval: int
    const fails: Rule
    var metadata: Index
    var fetchedAt: Option<int>
    /** The broker answer the index was built from. */
    ghost var source: seq<BrokerRow>

    /** Refuses a refresh interval outside 50 seconds to 10 minutes. */
    static method Open(interval: int, fails: Rule) returns (s: Service?)
      ensures s == null <==> !(50_000_000 <= interval <= 600_000_000)
      ensures s != null ==> fresh(s) && s.Valid() && s.Contents() == Empty && s.interval == interval && s.fails == fails
    {
      if !(50_000_000 <= interval <= 600_000_000) { return null; }
      s := new Service(interval, fails);
    }

    constructor (interval: int, fails: Rule)
      ensures Valid() && Contents() == Empty && this.interval == interval && this.fails == fails
    {
      this.interval, this.fails := interval, fails;
      metadata, fetchedAt, source := map[], None, [];
    }

    ghost predicate Valid()
      reads this
    {
      if fetchedAt.None? then metadata == map[] else Indexes(metadata, source)
    }

    ghost function Contents(): Cache
      reads this
    {
      if fetchedAt.None? then Empty else Cached(source, fetchedAt.value)
    }

    predicate IsFresh(now: int)
      reads this
    {
      fetchedAt.Some? && fetchedAt.value <= now < fetchedAt.value + interval
    }

    method Refresh(now: int, broker: Fetch) returns (failure: Option<Error>)
      requires Valid()
      modifies this`metadata, this`fetchedAt, this`source
      ensures Valid()
      ensures var call := Call(Some(now), broker, None, None);
        match Refreshed(old(Contents()), call, interval)
        case Ok(cache) => failure.None? && Contents() == cache && Contents().Cached?
        case Err(e) => failure == Some(e) && Contents() == Empty
    {
      failure := None;
      if !IsFresh(now) {
        metadata, fetchedAt := map[], None;
        if broker.Fails? { return Some(BrokerUnavailable); }
        var index := BuildIndex(broker.rows);
        if index.None? { return Some(MetadataAmbiguous); }
        metadata, fetchedAt, source := index.value, Some(now), broker.rows;
      }
    }

    method Verify(reviews: seq<Review>, now: int) returns (verified: seq<Metadata>)
      requires Valid() && fetchedAt.Some?
      ensures verified == Join(source, reviews, now, fails)
    {
      verified := [];
      for k := 0 to |reviews|
        invariant verified == Join(source, reviews[..k], now, fails)
      {
        var review := reviews[k];
        LookupIsScan(metadata, source, review);
        assert reviews[..k + 1][..k] == reviews[..k];
        if review.Valid() && review.CurrentAt(now) {
          var id := review.identifiers.brokerId;
          if id in metadata && review.MatchedBy(metadata[id]) && !fails(review.metadata, now) {
            verified := verified + [review.metadata];
          }
        }
      }
      assert reviews[..|reviews|] == reviews;
    }

    /** The locked section of every public lookup. */
    method Adapter(call: Call) returns (r: Result<seq<Metadata>, Error>)
      requires Valid()
      modifies this`metadata, this`fetchedAt, this`source
      ensures Valid()
      ensures Served(Contents(), r) == Serve(old(Contents()), call, interval, fails)
    {
      if call.first.None? { return Err(TimestampInvalid); }
      var failure := Refresh(call.first.value, call.broker);
      if failure.Some? { return Err(failure.value); }
      if call.reviews.None? { return Err(ReviewsUnavailable); }
      if call.second.None? { return Err(TimestampInvalid); }
      var now, reviews := call.second.value, call.reviews.value;
      if !IsFresh(now) {
        metadata, fetchedAt := map[], None;
        return Err(MetadataStale);
      }
      if !DistinctIdentities(reviews) { return Err(DuplicateIdentity); }
      var verified := Verify(reviews, now);
      r := Ok(verified);
    }
  }

  // ---- every call sequence refines the uncached join ----

  /** The cache after a sequence of calls. */
  function After(calls: seq<Call>, interval: int, fails: Rule): Cache {
    if calls == [] then Empty
    else Serve(After(calls[..|calls| - 1], interval, fails), calls[|calls| - 1], interval, fails).cache
  }

  /** Call `j` found nothing fresh, so it asked the broker, and got these rows at this instant. */
  predicate FetchedBy(calls: seq<Call>, j: int, rows: seq<BrokerRow>, at: int, interval: int, fails: Rule) {
    && 0 <= j < |calls| && calls[j].broker == Fetched(rows) && calls[j].first == Some(at) && Unambiguous(rows)
    && !Fresh(After(calls[..j], interval, fails), at, interval)
  }

  lemma {:induction false} CacheComesFromAFetch(calls: seq<Call>, interval: int, fails: Rule)
    ensures var c := After(calls, interval, fails);
      c.Cached? ==> exists j :: FetchedBy(calls, j, c.rows, c.at, interval, fails)
  {
    if calls != [] {
      var before, last := calls[..|calls| - 1], calls[|calls| - 1];
      CacheComesFromAFetch(before, interval, fails);
      var b, c := After(before, interval, fails), After(calls, interval, fails);
      if c.Cached? {
        if c == b {
          var j :| FetchedBy(before, j, b.rows, b.at, interval, fails);
          assert calls[..j] == before[..j];
          assert FetchedBy(calls, j, c.rows, c.at, interval, fails);
        } else {
          assert FetchedBy(calls, |calls| - 1, c.rows, c.at, interval, fails);
        }
      }
    }
  }

  /**
   Whatever the broker, the reviews and the clock did before, a successful call answers exactly the uncached join
   of its own reviews with rows fetched less than one interval before its evaluation instant.
   */
  lemma {:induction false} SuccessIsRecentJoin(calls: seq<Call>, call: Call, interval: int, fails: Rule) returns (j: int)
    requires Serve(After(calls, interval, fails), call, interval, fails).result.Ok?
    ensures var all := calls + [call];
      && 0 <= j < |all| && all[j].broker.Fetched? && all[j].first.Some?
      && call.second.Some? && call.reviews.Some? && DistinctIdentities(call.reviews.value)
      && FetchedBy(all, j, all[j].broker.rows, all[j].first.value, interval, fails)
      && all[j].first.value <= call.second.value < all[j].first.value + interval
      && Serve(After(calls, interval, fails), call, interval, fails).result
         == Ok(Join(all[j].broker.rows, call.reviews.value, call.second.value, fails))
  {
    var all := calls + [call];
    assert all[..|calls|] == calls;
    CacheComesFromAFetch(all, interval, fails);
    var c := After(all, interval, fails);
    j :| FetchedBy(all, j, c.rows, c.at, interval, fails);
  }

  /** A call succeeds exactly when both clock readings and the reviews are usable and the rows are fresh at both instants. */
  lemma SucceedsIff(c: Cache, call: Call, interval: int, fails: Rule)
    ensures Serve(c, call, interval, fails).result.Ok? <==>
      && call.first.Some? && call.second.Some? && call.reviews.Some? && DistinctIdentities(call.reviews.value)
      && (Fresh(c, call.first.value, interval) || (call.broker.Fetched? && Unambiguous(call.broker.rows)))
      && var at := if Fresh(c, call.first.value, interval) then c.at else call.first.value;
         at <= call.second.value < at + interval
  {
  }

  /** The call failed because the broker gave no usable rows, or because its rows were stale when they were needed. */
  predicate LostRows(e: Error) { e == BrokerUnavailable || e == MetadataAmbiguous || e == MetadataStale }

  /** The result of the `k`-th of these calls. */
  function ResultAt(calls: seq<Call>, k: nat, interval: int, fails: Rule): Result<seq<Metadata>, Error>
    requires k < |calls|
  {
    Serve(After(calls[..k], interval, fails), calls[k], interval, fails).result
  }

  /** Call `j` found nothing fresh, asked the broker and got usable rows. */
  predicate Fetches(calls: seq<Call>, j: int, interval: int, fails: Rule) {
    && 0 <= j < |calls| && calls[j].broker.Fetched? && calls[j].first.Some?
    && FetchedBy(calls, j, calls[j].broker.rows, calls[j].first.value, interval, fails)
  }

  lemma {:induction false} FetchedSince(calls: seq<Call>, m: nat, k: nat, interval: int, fails: Rule)
    requires m < k < |calls| && After(calls[..m + 1], interval, fails) == Empty && After(calls[..k + 1], interval, fails).Cached?
    ensures exists j :: m < j <= k && Fetches(calls, j, interval, fails)
    decreases k
  {
    assert calls[..k + 1][..k] == calls[..k];
    if After(calls[..k + 1], interval, fails) == After(calls[..k], interval, fails) {
      FetchedSince(calls, m, k - 1, interval, fails);
    } else {
      assert Fetches(calls, k, interval, fails);
    }
  }

  /** After a failed refresh or a stale reading, no call succeeds until one of them asks the broker and gets usable rows. */
  lemma NoSuccessUntilFetched(calls: seq<Call>, m: nat, k: nat, interval: int, fails: Rule)
    requires m < k < |calls| && ResultAt(calls, m, interval, fails).Err? && LostRows(ResultAt(calls, m, interval, fails).error)
    requires ResultAt(calls, k, interval, fails).Ok?
    ensures exists j :: m < j <= k && Fetches(calls, j, interval, fails)
  {
    assert calls[..m + 1][..m] == calls[..m] && calls[..k + 1][..k] == calls[..k];
    FetchedSince(calls, m, k, interval, fails);
  }
}
