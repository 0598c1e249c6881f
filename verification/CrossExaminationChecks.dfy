/**
 The two validators in their own form, each proved to accept exactly the packets
 its meaning describes, and so to agree with the other.
 */
module CrossExaminationChecks {
  import opened Common
  import opened CrossExamination

  // ---- facts shared by the two replays ----

  /** Sound rounds are numbered consecutively and every exchange in them is sound. */
  lemma {:induction false} SoundRounds(pending: Pending, rounds: seq<Round>, first: int, h: Hash, r: nat)
    requires Outstanding(pending, rounds, first, h).Some? && r < |rounds|
    ensures rounds[r].number == first + r
    ensures forall k :: 0 <= k < |rounds[r].exchanges| ==> ExchangeOk(rounds[r].exchanges[k], h)
    decreases |rounds|
  {
    if r > 0 {
      SoundRounds(pending - ResolvedIn(rounds[0].exchanges), rounds[1..], first + 1, h, r - 1);
    } else {
      assert forall k :: 0 <= k < |rounds[0].exchanges| ==> Addresses(rounds[0].exchanges[k], pending, h);
    }
  }

  lemma ResolvedInMore(xs: seq<Exchange>, k: nat)
    requires k < |xs|
    ensures ResolvedIn(xs[..k + 1]) == ResolvedIn(xs[..k]) + if xs[k].resolved then {xs[k].challenge.id} else {}
  {
    assert forall m :: 0 <= m < k ==> xs[..k + 1][m] == xs[..k][m];
    if xs[k].resolved { assert xs[..k + 1][k].challenge.id in ResolvedIn(xs[..k + 1]); }
    forall id | id in ResolvedIn(xs[..k]) ensures id in ResolvedIn(xs[..k + 1]) {
      var m :| 0 <= m < k && xs[..k][m].resolved && xs[..k][m].challenge.id == id;
      assert xs[..k + 1][m].resolved;
    }
  }

  lemma NothingResolvedYet(xs: seq<Exchange>)
    ensures ResolvedIn(xs[..0]) == {} && ResolvedIn(xs[..|xs|]) == ResolvedIn(xs)
    ensures ToSet(ExchangeIds(xs[..0])) == {} && NoDuplicates(ExchangeIds(xs[..0]))
    ensures ExchangeIds(xs[..|xs|]) == ExchangeIds(xs)
  {
    assert xs[..|xs|] == xs;
  }

  lemma IdListed(xs: seq<Exchange>, k: nat)
    requires k < |xs|
    ensures xs[k].challenge.id in ToSet(ExchangeIds(xs))
  {
    assert ExchangeIds(xs)[k] in ExchangeIds(xs);
  }

  lemma NotYetResolved(xs: seq<Exchange>, k: nat)
    requires k < |xs| && NoDuplicates(ExchangeIds(xs))
    ensures xs[k].challenge.id !in ResolvedIn(xs[..k])
  {
    forall m | 0 <= m < k ensures xs[..k][m].challenge.id != xs[k].challenge.id {
      assert ExchangeIds(xs)[m] != ExchangeIds(xs)[k];
    }
  }

  // ---- the sealing validator ----

  method SealExchange(x: Exchange, challenge: Challenge, h: Hash) returns (ok: bool)
    ensures ok <==> x.challenge == challenge && ExchangeOk(x, h)
  {
    if x.challenge != challenge { return false; }
    if (x.response.Some? && x.response.value.invocation == Some(Demo)) || x.verificationInvocation == Some(Demo) { return false; }
    if x.response.Some? && !ResponseOk(x.response.value, challenge, h) { return false; }
    if x.verification.Some? && !Within(x.verification.value.evidence, challenge.evidence) { return false; }
    if !ChecksOk(x.checks, challenge) { return false; }
    ok := !x.resolved || Resolves(x);
  }

  /** One round: compares identity sets, then walks the exchanges deleting resolved challenges. */
  method SealRound(xs: seq<Exchange>, pending: Pending, h: Hash) returns (ok: bool, left: Pending)
    ensures ok <==> RoundOk(xs, pending, h)
    ensures ok ==> left == pending - ResolvedIn(xs)
  {
    hide ExchangeOk, NoDuplicates, ResolvedIn, ToSet, ExchangeIds;
    left := pending;
    NothingResolvedYet(xs);
    ListsBySet(ExchangeIds(xs), pending.Keys);
    if ToSet(ExchangeIds(xs)) != pending.Keys || |xs| != |pending.Keys| { return false, left; }
    for k := 0 to |xs|
      invariant left == pending - ResolvedIn(xs[..k])
      invariant forall m :: 0 <= m < k ==> Addresses(xs[m], pending, h)
    {
      IdListed(xs, k);
      NotYetResolved(xs, k);
      ResolvedInMore(xs, k);
      var challenge := left[xs[k].challenge.id];
      var sound := SealExchange(xs[k], challenge, h);
      if !sound { return false, left; }
      if xs[k].resolved { left := left - {challenge.id}; }
    }
    ok := true;
  }

  method BuildPending(cs: seq<Challenge>) returns (pending: Pending)
    ensures pending == ById(cs)
  {
    pending := map[];
    for k := 0 to |cs|
      invariant pending == ById(cs[..k])
    {
      pending := pending[cs[k].id := cs[k]];
      assert cs[..k + 1][..k] == cs[..k];
    }
    assert cs[..|cs|] == cs;
  }

  method SealHeader(p: Packet) returns (ok: bool)
    ensures ok <==> HeaderOk(p)
  {
    hide Lists, NoDuplicates, ToSet, Names, Ids;
    if |p.challenges| > 24 || |p.rounds| > 2 || !(forall k :: 0 <= k < |p.challenges| ==> ClaimIdentity(p.challenges[k])) {
      return false;
    }
    var pending := BuildPending(p.challenges);
    SetSize(Ids(p.challenges));
    if |pending.Keys| != |p.challenges| { return false; }
    var originals := DictOf(p.reportHashes);
    ListsBySet(Names(p.reportHashes), Required(p.qlibEnabled));
    if |p.reportHashes| != |Required(p.qlibEnabled)| || originals.Keys != Required(p.qlibEnabled) { return false; }
    originals := originals[Lean := p.leanHash][Cio := p.auditHash];
    ok := forall k :: 0 <= k < |p.challenges| ==>
      p.challenges[k].respondent in originals && originals[p.challenges[k].respondent] == p.challenges[k].reportHash;
  }

  /** The replay over all rounds, whose numbers have already been compared. */
  method SealRounds(start: Pending, rounds: seq<Round>, h: Hash) returns (ok: bool, left: Pending)
    requires forall r :: 0 <= r < |rounds| ==> rounds[r].number == r + 1
    ensures Outstanding(start, rounds, 1, h) == if ok then Some(left.Keys) else None
  {
    hide RoundOk, ResolvedIn;
    left := start;
    for r := 0 to |rounds|
      invariant Outstanding(start, rounds, 1, h) == Outstanding(left, rounds[r..], r + 1, h)
    {
      var sound, rest := SealRound(rounds[r].exchanges, left, h);
      if !sound { return false, left; }
      assert rounds[r..][1..] == rounds[r + 1..];
      left := rest;
    }
    ok := true;
  }

  /** Accepts exactly the coherent packets. */
  method Seal(p: Packet) returns (ok: bool)
    ensures ok <==> Coherent(p)
  {
    hide HeaderOk, ById;
    if !(forall r :: 0 <= r < |p.rounds| ==> p.rounds[r].number == r + 1) {
      ghost var r :| 0 <= r < |p.rounds| && p.rounds[r].number != r + 1;
      if Outstanding(ById(p.challenges), p.rounds, 1, p.snapshotHash).Some? {
        SoundRounds(ById(p.challenges), p.rounds, 1, p.snapshotHash, r);
      }
      return false;
    }
    if p.materialDisagreement != (p.unresolved != []) { return false; }
    var header := SealHeader(p);
    if !header { return false; }
    var pending := BuildPending(p.challenges);
    var sound, left := SealRounds(pending, p.rounds, p.snapshotHash);
    if !sound { return false; }
    ListsBySet(p.unresolved, left.Keys);
    ok := ToSet(p.unresolved) == left.Keys && |p.unresolved| == |left.Keys|;
  }

  // ---- the browser's re-check ----

  method RecheckExchange(x: Exchange, original: Challenge, h: Hash) returns (ok: bool)
    requires NoDemo(x) && x.challenge == original
    ensures ok <==> ExchangeOk(x, h)
  {
    if x.response.Some? && !ResponseOk(x.response.value, original, h) { return false; }
    if x.verification.Some? && !Within(x.verification.value.evidence, original.evidence) { return false; }
    if !ChecksOk(x.checks, original) { return false; }
    ok := !x.resolved || Resolves(x);
  }

  /** One round: tests each exchange against the pending map and a set of identities already seen. */
  method RecheckRound(xs: seq<Exchange>, pending: Pending, h: Hash) returns (ok: bool, left: Pending)
    requires forall k :: 0 <= k < |xs| ==> NoDemo(xs[k])
    ensures ok <==> RoundOk(xs, pending, h)
    ensures ok ==> left == pending - ResolvedIn(xs)
  {
    hide ExchangeOk, NoDuplicates, ResolvedIn, ToSet, ExchangeIds;
    left := pending;
    NothingResolvedYet(xs);
    ListsBySize(ExchangeIds(xs), pending.Keys);
    if |xs| != |pending.Keys| { return false, left; }
    var seen: set<string> := {};
    for k := 0 to |xs|
      invariant left == pending - ResolvedIn(xs[..k])
      invariant forall m :: 0 <= m < k ==> Addresses(xs[m], pending, h)
      invariant seen == ToSet(ExchangeIds(xs[..k])) && NoDuplicates(ExchangeIds(xs[..k]))
    {
      var id := xs[k].challenge.id;
      ResolvedInMore(xs, k);
      SeenMore(xs, k);
      if id !in left || id in seen || left[id] != xs[k].challenge {
        if RoundOk(xs, pending, h) {
          assert Addresses(xs[k], pending, h);
          NotYetResolved(xs, k);
          SeenBefore(xs, k);
        }
        return false, left;
      }
      seen := seen + {id};
      var sound := RecheckExchange(xs[k], left[id], h);
      if !sound { return false, left; }
      if xs[k].resolved { left := left - {id}; }
    }
    AllAddressed(xs, pending, h);
    ok := true;
  }

  lemma SeenMore(xs: seq<Exchange>, k: nat)
    requires k < |xs|
    ensures ExchangeIds(xs[..k + 1]) == ExchangeIds(xs[..k]) + [xs[k].challenge.id]
    ensures ToSet(ExchangeIds(xs[..k + 1])) == ToSet(ExchangeIds(xs[..k])) + {xs[k].challenge.id}
    ensures xs[k].challenge.id !in ToSet(ExchangeIds(xs[..k])) && NoDuplicates(ExchangeIds(xs[..k]))
        ==> NoDuplicates(ExchangeIds(xs[..k + 1]))
  {
    assert ExchangeIds(xs[..k + 1]) == ExchangeIds(xs[..k]) + [xs[k].challenge.id];
  }

  lemma SeenBefore(xs: seq<Exchange>, k: nat)
    requires k < |xs| && NoDuplicates(ExchangeIds(xs))
    ensures xs[k].challenge.id !in ToSet(ExchangeIds(xs[..k]))
  {
    forall m | 0 <= m < k ensures ExchangeIds(xs[..k])[m] != xs[k].challenge.id {
      assert ExchangeIds(xs)[m] != ExchangeIds(xs)[k];
    }
  }

  lemma AllAddressed(xs: seq<Exchange>, pending: Pending, h: Hash)
    requires |xs| == |pending.Keys| && NoDuplicates(ExchangeIds(xs))
    requires forall m :: 0 <= m < |xs| ==> Addresses(xs[m], pending, h)
    ensures RoundOk(xs, pending, h)
  {
    SetSize(ExchangeIds(xs));
    ListsBySize(ExchangeIds(xs), pending.Keys);
    assert forall m :: 0 <= m < |xs| ==> ExchangeIds(xs)[m] in pending.Keys;
    assert ToSet(ExchangeIds(xs)) <= pending.Keys;
  }

  /** The schema has no place for a demo runtime. */
  predicate NoDemoAnywhere(p: Packet) {
    forall r, k :: 0 <= r < |p.rounds| && 0 <= k < |p.rounds[r].exchanges| ==> NoDemo(p.rounds[r].exchanges[k])
  }

  method RecheckHeader(p: Packet) returns (ok: bool)
    ensures ok <==> HeaderOk(p) && EvidenceInside(p)
  {
    hide Lists, NoDuplicates, ToSet, Names, Ids, InsideOwn, ClaimIdentity;
    if |p.challenges| > 24 || |p.rounds| > 2 { return false; }
    var originals, required := DictOf(p.reportHashes), Required(p.qlibEnabled);
    ListsBySize(Names(p.reportHashes), required);
    if |p.reportHashes| != |required| || |originals.Keys| != |required| || !(required <= originals.Keys) { return false; }
    originals := originals[Lean := p.leanHash][Cio := p.auditHash];
    var pending := BuildPending(p.challenges);
    SetSize(Ids(p.challenges));
    if |pending.Keys| != |p.challenges| { return false; }
    for k := 0 to |p.challenges|
      invariant forall m :: 0 <= m < k ==> ChallengeOk(p, p.challenges[m]) && InsideOwn(p.challenges[m])
    {
      var c := p.challenges[k];
      if c.respondent !in originals || originals[c.respondent] != c.reportHash || !ClaimIdentity(c) || !InsideOwn(c) {
        return false;
      }
    }
    ok := true;
  }

  method RecheckRounds(start: Pending, rounds: seq<Round>, h: Hash) returns (ok: bool, left: Pending)
    requires forall r, k :: 0 <= r < |rounds| && 0 <= k < |rounds[r].exchanges| ==> NoDemo(rounds[r].exchanges[k])
    ensures Outstanding(start, rounds, 1, h) == if ok then Some(left.Keys) else None
  {
    hide RoundOk, ResolvedIn;
    left := start;
    for r := 0 to |rounds|
      invariant Outstanding(start, rounds, 1, h) == Outstanding(left, rounds[r..], r + 1, h)
    {
      if rounds[r].number != r + 1 { return false, left; }
      var sound, rest := RecheckRound(rounds[r].exchanges, left, h);
      if !sound { return false, left; }
      assert rounds[r..][1..] == rounds[r + 1..];
      left := rest;
    }
    ok := true;
  }

  /** Accepts exactly the coherent packets whose original claims stay inside their challenges' evidence. */
  method Recheck(p: Packet) returns (ok: bool)
    ensures ok <==> Coherent(p) && EvidenceInside(p)
  {
    hide HeaderOk, ById, EvidenceInside;
    if !NoDemoAnywhere(p) {
      ghost var r, k :| 0 <= r < |p.rounds| && 0 <= k < |p.rounds[r].exchanges| && !NoDemo(p.rounds[r].exchanges[k]);
      if Outstanding(ById(p.challenges), p.rounds, 1, p.snapshotHash).Some? {
        SoundRounds(ById(p.challenges), p.rounds, 1, p.snapshotHash, r);
      }
      return false;
    }
    var header := RecheckHeader(p);
    if !header { return false; }
    var pending := BuildPending(p.challenges);
    var sound, left := RecheckRounds(pending, p.rounds, p.snapshotHash);
    if !sound { return false; }
    ListsBySize(p.unresolved, left.Keys);
    ok := p.materialDisagreement == (|left.Keys| > 0) && |p.unresolved| == |left.Keys|
      && |ToSet(p.unresolved)| == |left.Keys| && ToSet(p.unresolved) <= left.Keys;
  }

  // ---- what acceptance means ----

  function AllResolved(rounds: seq<Round>): set<string> {
    if rounds == [] then {} else ResolvedIn(rounds[0].exchanges) + AllResolved(rounds[1..])
  }

  /** What is left after sound rounds is exactly what no exchange ever resolved. */
  lemma {:induction false} LeftWasNeverResolved(pending: Pending, rounds: seq<Round>, first: int, h: Hash)
    requires Outstanding(pending, rounds, first, h).Some?
    ensures Outstanding(pending, rounds, first, h).value == pending.Keys - AllResolved(rounds)
    decreases |rounds|
  {
    hide RoundOk, ResolvedIn;
    if rounds != [] {
      LeftWasNeverResolved(pending - ResolvedIn(rounds[0].exchanges), rounds[1..], first + 1, h);
    }
  }

  /** In an accepted packet a challenge is listed as unresolved exactly when no exchange of any round resolved it. */
  lemma UnresolvedIsHonest(p: Packet, k: nat)
    requires Coherent(p) && k < |p.challenges|
    ensures p.challenges[k].id in p.unresolved <==> p.challenges[k].id !in AllResolved(p.rounds)
  {
    LeftWasNeverResolved(ById(p.challenges), p.rounds, 1, p.snapshotHash);
    assert Ids(p.challenges)[k] in ToSet(Ids(p.challenges));
    assert p.challenges[k].id in p.unresolved <==> p.challenges[k].id in ToSet(p.unresolved);
  }

  /** The browser is strictly stricter: a packet the seal accepts whose original claim cites evidence outside its challenge. */
  lemma BrowserIsStricter() returns (p: Packet)
    ensures Coherent(p) && !EvidenceInside(p)
  {
    var claim := Claim("claim", "statement", ["outside"]);
    var c := Challenge("challenge-1", TradingAgents, Some("claim"), 7, "question", [], Some(claim));
    p := Packet(1, false, [(TradingAgents, 7), (AiHedgeFund, 8)], 9, 10, [c], [], ["challenge-1"], true);
    assert Names(p.reportHashes) == [TradingAgents, AiHedgeFund];
    assert Ids([c]) == ["challenge-1"];
    assert p.reportHashes[..1] == [(TradingAgents, 7)];
    assert Outstanding(ById([c]), [], 1, 1) == Some(ToSet(Ids([c])));
    assert !InsideOwn(p.challenges[0]) by { assert !Within(claim.evidence, c.evidence) by { assert claim.evidence[0] == "outside"; } }
  }
}
