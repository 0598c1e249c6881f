/**
 Cross-examination packets and their two validators: the sealing validator, which
 replays the rounds by deleting resolved challenges from a dictionary, and the
 browser's re-check, which replays them with a map and a set of seen identities.

 Content hashes are opaque values; the packet's own hash is not part of the model.
 */
module CrossExamination {
  import opened Common

  type Hash = nat

  datatype Respondent = TradingAgents | AiHedgeFund | Qlib | Lean | Cio

  datatype Runtime = Live | Demo | Deterministic

  datatype Position = Maintain | Withdraw | InsufficientEvidence

  datatype FindingState = Verified | Unsupported | Contradicted | Warn

  datatype Claim = Claim(id: string, statement: string, evidence: seq<string>)

  datatype Challenge = Challenge(
    id: string, respondent: Respondent, claimId: Option<string>, reportHash: Hash, question: string,
    evidence: seq<string>, originalClaim: Option<Claim>)

  datatype Response = Response(
    challengeId: string, respondent: Respondent, snapshotHash: Hash, reportHash: Hash, position: Position,
    evidence: seq<string>, corrected: Option<Claim>, invocation: Option<Runtime>)

  datatype Finding = Finding(auditor: string, claimId: Option<string>, state: FindingState, explanation: string, evidence: seq<string>)

  datatype SourceCheck = SourceCheck(evidenceId: string, recordHash: Hash)

  datatype Reason = ResponderUnavailable | VerificationUnavailable | IndependentlyVerified | DisagreementUnresolved | WithdrawnOrUnsupported

  datatype Exchange = Exchange(
    challenge: Challenge, response: Option<Response>, verification: Option<Finding>, verificationInvocation: Option<Runtime>,
    checks: seq<SourceCheck>, resolved: bool, reason: Reason)

  datatype Round = Round(number: int, exchanges: seq<Exchange>)

  datatype Packet = Packet(
    snapshotHash: Hash, qlibEnabled: bool, reportHashes: seq<(Respondent, Hash)>, leanHash: Hash, auditHash: Hash,
    challenges: seq<Challenge>, rounds: seq<Round>, unresolved: seq<string>, materialDisagreement: bool)

  // ---- sequences that list a set ----

  function ToSet<T>(xs: seq<T>): set<T> { set x | x in xs }

  predicate NoDuplicates<T(==)>(xs: seq<T>) {
    forall i, j :: 0 <= i < j < |xs| ==> xs[i] != xs[j]
  }

  /** `xs` holds each element of `s` exactly once and nothing else. */
  predicate Lists<T(==)>(xs: seq<T>, s: set<T>) {
    NoDuplicates(xs) && ToSet(xs) == s
  }

  /** Repetition shows as a set smaller than the sequence. */
  lemma {:induction false} SetSize<T>(xs: seq<T>)
    ensures |ToSet(xs)| <= |xs|
    ensures |ToSet(xs)| == |xs| <==> NoDuplicates(xs)
  {
    if xs == [] {
      assert ToSet(xs) == {};
    } else {
      var init, last := xs[..|xs| - 1], xs[|xs| - 1];
      SetSize(init);
      assert xs == init + [last];
      assert ToSet(xs) == ToSet(init) + {last};
      if last in init {
        var i :| 0 <= i < |init| && init[i] == last;
        assert xs[i] == xs[|xs| - 1];
        assert ToSet(xs) == ToSet(init);
      } else {
        assert NoDuplicates(init) ==> NoDuplicates(xs);
        assert NoDuplicates(xs) ==> NoDuplicates(init) by {
          assert forall i :: 0 <= i < |init| ==> init[i] == xs[i];
        }
      }
    }
  }

  lemma SubsetSameSize<T>(a: set<T>, b: set<T>)
    requires a <= b && |a| == |b|
    ensures a == b
  {
    assert |b - a| == |b| - |a|;
  }

  /** Comparing lengths and sets, as the sealing validator does. */
  lemma ListsBySet<T>(xs: seq<T>, s: set<T>)
    ensures Lists(xs, s) <==> ToSet(xs) == s && |xs| == |s|
  {
    SetSize(xs);
  }

  /** Comparing lengths and sizes and testing membership, as the browser does. */
  lemma ListsBySize<T>(xs: seq<T>, s: set<T>)
    ensures Lists(xs, s) <==> |xs| == |s| && |ToSet(xs)| == |s| && ToSet(xs) <= s
    ensures Lists(xs, s) <==> |xs| == |s| && |ToSet(xs)| == |s| && s <= ToSet(xs)
  {
    SetSize(xs);
    if ToSet(xs) <= s && |ToSet(xs)| == |s| { SubsetSameSize(ToSet(xs), s); }
    if s <= ToSet(xs) && |ToSet(xs)| == |s| { SubsetSameSize(s, ToSet(xs)); }
  }

  // ---- what a sound packet is ----

  function Required(qlibEnabled: bool): set<Respondent> {
    {TradingAgents, AiHedgeFund} + if qlibEnabled then {Qlib} else {}
  }

  function Names(pairs: seq<(Respondent, Hash)>): (names: seq<Respondent>)
    ensures |names| == |pairs|
  {
    seq(|pairs|, k requires 0 <= k < |pairs| => pairs[k].0)
  }

  /** A dictionary built from pairs: a later pair wins. */
  function DictOf(pairs: seq<(Respondent, Hash)>): (d: map<Respondent, Hash>)
    ensures d.Keys == ToSet(Names(pairs))
  {
    if pairs == [] then map[]
    else
      var init, last := pairs[..|pairs| - 1], pairs[|pairs| - 1];
      assert Names(pairs) == Names(init) + [last.0];
      DictOf(init)[last.0 := last.1]
  }

  /** The sealed first-pass hashes challenges must refer to. */
  function Originals(p: Packet): map<Respondent, Hash> {
    DictOf(p.reportHashes)[Lean := p.leanHash][Cio := p.auditHash]
  }

  function Ids(cs: seq<Challenge>): (ids: seq<string>)
    ensures |ids| == |cs|
  {
    seq(|cs|, k requires 0 <= k < |cs| => cs[k].id)
  }

  function ExchangeIds(xs: seq<Exchange>): (ids: seq<string>)
    ensures |ids| == |xs|
  {
    seq(|xs|, k requires 0 <= k < |xs| => xs[k].challenge.id)
  }

  type Pending = map<string, Challenge>

  function ById(cs: seq<Challenge>): (d: Pending)
    ensures d.Keys == ToSet(Ids(cs))
  {
    if cs == [] then map[]
    else
      var init, last := cs[..|cs| - 1], cs[|cs| - 1];
      assert Ids(cs) == Ids(init) + [last.id];
      ById(init)[last.id := last]
  }

  predicate Within(xs: seq<string>, permitted: seq<string>) {
    forall k :: 0 <= k < |xs| ==> xs[k] in permitted
  }

  predicate SharesOne(xs: seq<string>, ys: seq<string>) {
    exists k :: 0 <= k < |xs| && xs[k] in ys
  }

  predicate ResponseOk(r: Response, c: Challenge, snapshotHash: Hash) {
    && r.challengeId == c.id && r.respondent == c.respondent && r.snapshotHash == snapshotHash && r.reportHash == c.reportHash
    && Within(r.evidence, c.evidence)
    && (r.corrected.Some? ==> Within(r.corrected.value.evidence, c.evidence))
  }

  predicate ChecksOk(checks: seq<SourceCheck>, c: Challenge) {
    forall k :: 0 <= k < |checks| ==> checks[k].evidenceId in c.evidence
  }

  /** Independent, cited verification of a maintained position. */
  predicate Resolves(x: Exchange) {
    && x.response.Some? && x.response.value.position == Maintain
    && x.verification.Some? && x.verification.value.state == Verified
    && x.verification.value.claimId == x.challenge.claimId
    && SharesOne(x.verification.value.evidence, x.response.value.evidence)
  }

  predicate NoDemo(x: Exchange) {
    && (x.response.Some? ==> x.response.value.invocation != Some(Demo))
    && x.verificationInvocation != Some(Demo)
  }

  predicate ExchangeOk(x: Exchange, snapshotHash: Hash) {
    && NoDemo(x)
    && (x.response.Some? ==> ResponseOk(x.response.value, x.challenge, snapshotHash))
    && (x.verification.Some? ==> Within(x.verification.value.evidence, x.challenge.evidence))
    && ChecksOk(x.checks, x.challenge)
    && (x.resolved ==> Resolves(x))
  }

  /** The exchange addresses a pending challenge, unrevised, and is itself sound. */
  predicate Addresses(x: Exchange, pending: Pending, snapshotHash: Hash) {
    x.challenge.id in pending && pending[x.challenge.id] == x.challenge && ExchangeOk(x, snapshotHash)
  }

  /** A round addresses every pending challenge exactly once. */
  predicate RoundOk(xs: seq<Exchange>, pending: Pending, snapshotHash: Hash) {
    Lists(ExchangeIds(xs), pending.Keys) && forall k :: 0 <= k < |xs| ==> Addresses(xs[k], pending, snapshotHash)
  }

  function ResolvedIn(xs: seq<Exchange>): set<string> {
    set k | 0 <= k < |xs| && xs[k].resolved :: xs[k].challenge.id
  }

  /** The identities still pending after rounds numbered from `first`, or nothing when some round is unsound. */
  function Outstanding(pending: Pending, rounds: seq<Round>, first: int, snapshotHash: Hash): Option<set<string>>
    decreases |rounds|
  {
    if rounds == [] then Some(pending.Keys)
    else if rounds[0].number != first || !RoundOk(rounds[0].exchanges, pending, snapshotHash) then None
    else Outstanding(pending - ResolvedIn(rounds[0].exchanges), rounds[1..], first + 1, snapshotHash)
  }

  predicate ClaimIdentity(c: Challenge) {
    c.originalClaim.Some? ==> c.claimId == Some(c.originalClaim.value.id)
  }

  predicate ChallengeOk(p: Packet, c: Challenge) {
    ClaimIdentity(c) && c.respondent in Originals(p) && Originals(p)[c.respondent] == c.reportHash
  }

  /** The meaning of an acceptable packet, independent of how a validator walks it. */
  predicate Coherent(p: Packet) {
    && HeaderOk(p)
    && Outstanding(ById(p.challenges), p.rounds, 1, p.snapshotHash) == Some(ToSet(p.unresolved))
    && NoDuplicates(p.unresolved)
    && p.materialDisagreement == (p.unresolved != [])
  }

  /** The sealed hashes are exactly the configured firms', and the challenges are distinct and refer to them. */
  predicate HeaderOk(p: Packet) {
    && |p.challenges| <= 24 && |p.rounds| <= 2
    && Lists(Names(p.reportHashes), Required(p.qlibEnabled))
    && NoDuplicates(Ids(p.challenges))
    && forall k :: 0 <= k < |p.challenges| ==> ChallengeOk(p, p.challenges[k])
  }

  /** What the browser demands beyond that: the evidence of an original claim lies inside its challenge. */
  predicate EvidenceInside(p: Packet) {
    forall k :: 0 <= k < |p.challenges| ==> InsideOwn(p.challenges[k])
  }

  predicate InsideOwn(c: Challenge) {
    c.originalClaim.Some? ==> Within(c.originalClaim.value.evidence, c.evidence)
  }
}
