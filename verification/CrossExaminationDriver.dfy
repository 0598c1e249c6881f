/**
 The bounded cross-examination run: challenges are derived from the initial audit,
 put to untrusted responders for at most two rounds, and a separate verifier alone
 can resolve one. Responders and the verifier are arbitrary: each may answer
 anything, differently for every challenge and round, or raise.
 */
module CrossExaminationDriver {
  import opened Common
  import opened CrossExamination
  import opened CrossExaminationChecks

  datatype Snapshot = Snapshot(id: nat, hash: Hash, qlibEnabled: bool, evidence: seq<SourceCheck>)

  datatype Report = Report(firm: Respondent, claims: seq<Claim>, snapshotId: nat, snapshotHash: Hash, contentHash: Hash)

  datatype LeanReport = LeanReport(snapshotId: nat, contentHash: Hash)

  datatype Audit = Audit(snapshotId: nat, completed: bool, findings: seq<Finding>, materialDisagreement: bool, contentHash: Hash)

  datatype Verification =
    | Plain(finding: Finding)
    | Detailed(finding: Finding, invocation: Option<Runtime>, checks: seq<SourceCheck>)

  type Responder = (Challenge, int) -> Option<Response>

  type Verifier = (Challenge, Response, int) -> Option<Verification>

  datatype Case = Case(
    snapshot: Snapshot, reports: seq<Report>, lean: LeanReport, audit: Audit, firstPassLocked: bool,
    responders: map<Respondent, Responder>, verifier: Option<Verifier>, maximumRounds: int, maximumChallenges: int)

  datatype Failure =
    | NotLocked | RoundLimit | ChallengeLimit | ReportsMissing | SnapshotDiffers | DuplicateClaims | BudgetExceeded
    | UnknownClaim | EmptyQuestion | EvidenceOutsideSnapshot
    | ResponderRaised | DemoResponse | ResponseProvenance | BadCorrection
    | VerifierRaised | SourceCheckDiffers | DemoVerification | VerificationProvenance
    | SealRefused

  // ---- deriving the challenges ----

  function Firms(reports: seq<Report>): (firms: seq<Respondent>)
    ensures |firms| == |reports|
  {
    seq(|reports|, k requires 0 <= k < |reports| => reports[k].firm)
  }

  function ClaimIds(claims: seq<Claim>): seq<string> {
    seq(|claims|, k requires 0 <= k < |claims| => claims[k].id)
  }

  function AllClaimIds(reports: seq<Report>): seq<string> {
    if reports == [] then [] else AllClaimIds(reports[..|reports| - 1]) + ClaimIds(reports[|reports| - 1].claims)
  }

  /** The report that owns a claim, as a dictionary filled in report order finds it. */
  function OwnerOf(reports: seq<Report>, id: string): (owner: Option<Report>)
    ensures owner.Some? ==> owner.value in reports
  {
    if reports == [] then None
    else if id in ClaimIds(reports[|reports| - 1].claims) then Some(reports[|reports| - 1])
    else OwnerOf(reports[..|reports| - 1], id)
  }

  function FindClaim(claims: seq<Claim>, id: Option<string>): (c: Option<Claim>)
    ensures c.Some? ==> id == Some(c.value.id)
  {
    if claims == [] then None
    else if id == Some(claims[0].id) then Some(claims[0])
    else FindClaim(claims[1..], id)
  }

  const ANALYST := "CIO Contradiction Analyst"

  /** The audit findings that need an answer; a bare disagreement challenges every claim, or the audit itself. */
  function Findings(c: Case): seq<Finding> {
    var material := Material(c.audit.findings);
    if material != [] || !c.audit.materialDisagreement then material
    else
      var ids := AllClaimIds(c.reports);
      if ids == [] then
        [Finding(ANALYST, None, Unsupported, "Initial CIO audit records unresolved material disagreement without supported claims.", [])]
      else
        seq(|ids|, k requires 0 <= k < |ids| =>
          Finding(ANALYST, Some(ids[k]), Unsupported, "Initial CIO audit records unresolved material disagreement.", []))
  }

  function Material(fs: seq<Finding>): seq<Finding> {
    if fs == [] then []
    else
      var last := fs[|fs| - 1];
      Material(fs[..|fs| - 1]) + if last.state == Unsupported || last.state == Contradicted then [last] else []
  }

  /** First occurrences, in order. */
  function Deduplicated(xs: seq<string>): (ys: seq<string>)
    ensures forall x :: x in ys <==> x in xs
  {
    if xs == [] then []
    else
      var init, last := Deduplicated(xs[..|xs| - 1]), xs[|xs| - 1];
      assert xs == xs[..|xs| - 1] + [last];
      if last in init then init else init + [last]
  }

  function Decimal(n: nat): (s: string)
    ensures |s| >= 1 && (|s| == 1 <==> n < 10)
  {
    if n < 10 then [('0' as int + n) as char] else Decimal(n / 10) + [('0' as int + n % 10) as char]
  }

  function ChallengeName(index: nat): string { "challenge-" + Decimal(index + 1) }

  function EvidenceIds(evidence: seq<SourceCheck>): seq<string> {
    seq(|evidence|, k requires 0 <= k < |evidence| => evidence[k].evidenceId)
  }

  /** A dictionary of evidence hashes: a later record wins. */
  function RecordedHash(evidence: seq<SourceCheck>, id: string): Option<Hash> {
    if evidence == [] then None
    else if evidence[|evidence| - 1].evidenceId == id then Some(evidence[|evidence| - 1].recordHash)
    else RecordedHash(evidence[..|evidence| - 1], id)
  }

  function ChallengeFrom(c: Case, index: nat, f: Finding): Result<Challenge, Failure> {
    var owner := OwnerOf(c.reports, if f.claimId.Some? then f.claimId.value else "");
    if f.claimId.Some? && f.claimId.value != "" && owner.None? then Err(UnknownClaim)
    else
      var target := if owner.Some? then owner.value.firm else if f.auditor == "LEAN Auditor" then Lean else Cio;
      var hash := if owner.Some? then owner.value.contentHash else if target == Lean then c.lean.contentHash else c.audit.contentHash;
      var original := if owner.Some? then FindClaim(owner.value.claims, f.claimId) else None;
      var permitted := Deduplicated(f.evidence + if original.Some? then original.value.evidence else []);
      if f.explanation == "" then Err(EmptyQuestion)
      else if !Within(permitted, EvidenceIds(c.snapshot.evidence)) then Err(EvidenceOutsideSnapshot)
      else Ok(Challenge(ChallengeName(index), target, f.claimId, hash, f.explanation, permitted, original))
  }

  function Challenges(c: Case, fs: seq<Finding>): Result<seq<Challenge>, Failure> {
    if fs == [] then Ok([])
    else
      var init :- Challenges(c, fs[..|fs| - 1]);
      var last :- ChallengeFrom(c, |fs| - 1, fs[|fs| - 1]);
      Ok(init + [last])
  }

  // ---- one exchange, one round, all rounds ----

  predicate Answers(r: Response, c: Challenge, h: Hash) {
    && r.challengeId == c.id && r.respondent == c.respondent && r.snapshotHash == h && r.reportHash == c.reportHash
    && Within(r.evidence, c.evidence)
  }

  /** A correction is a new claim with permitted, non-empty evidence. */
  predicate CorrectionOk(c: Case, ch: Challenge, claim: Claim) {
    claim.id !in AllClaimIds(c.reports) && claim.evidence != [] && Within(claim.evidence, ch.evidence)
  }

  predicate ChecksMatch(c: Case, ch: Challenge, checks: seq<SourceCheck>) {
    forall k :: 0 <= k < |checks| ==>
      RecordedHash(c.snapshot.evidence, checks[k].evidenceId) == Some(checks[k].recordHash) && checks[k].evidenceId in ch.evidence
  }

  /** What an independent verification makes of a maintained response. */
  function Verdict(c: Case, ch: Challenge, r: Response, v: Verification): Result<Exchange, Failure> {
    var invocation := if v.Detailed? then v.invocation else None;
    var checks := if v.Detailed? then v.checks else [];
    if !ChecksMatch(c, ch, checks) then Err(SourceCheckDiffers)
    else if invocation == Some(Demo) then Err(DemoVerification)
    else if v.finding.claimId != ch.claimId || !Within(v.finding.evidence, ch.evidence) then Err(VerificationProvenance)
    else
      var resolved := v.finding.state == Verified && SharesOne(v.finding.evidence, r.evidence);
      Ok(Exchange(ch, Some(r), Some(v.finding), invocation, checks, resolved,
                  if resolved then IndependentlyVerified else DisagreementUnresolved))
  }

  function Exchanged(c: Case, ch: Challenge, number: int): Result<Exchange, Failure> {
    if ch.respondent !in c.responders then Ok(Exchange(ch, None, None, None, [], false, ResponderUnavailable))
    else
      var answer := c.responders[ch.respondent](ch, number);
      if answer.None? then Err(ResponderRaised)
      else
        var r := answer.value;
        if r.invocation == Some(Demo) then Err(DemoResponse)
        else if !Answers(r, ch, c.snapshot.hash) then Err(ResponseProvenance)
        else if r.corrected.Some? && !CorrectionOk(c, ch, r.corrected.value) then Err(BadCorrection)
        else if r.position != Maintain then Ok(Exchange(ch, Some(r), None, None, [], false, WithdrawnOrUnsupported))
        else if c.verifier.None? then Ok(Exchange(ch, Some(r), None, None, [], false, VerificationUnavailable))
        else
          var v := c.verifier.value(ch, r, number);
          if v.None? then Err(VerifierRaised) else Verdict(c, ch, r, v.value)
  }

  function RoundOf(c: Case, pending: seq<Challenge>, number: int): Result<seq<Exchange>, Failure> {
    if pending == [] then Ok([])
    else
      var init :- RoundOf(c, pending[..|pending| - 1], number);
      var last :- Exchanged(c, pending[|pending| - 1], number);
      Ok(init + [last])
  }

  /** The challenges a round leaves unresolved, in order. */
  function Open(xs: seq<Exchange>): seq<Challenge> {
    if xs == [] then []
    else Open(xs[..|xs| - 1]) + if xs[|xs| - 1].resolved then [] else [xs[|xs| - 1].challenge]
  }

  predicate Answered(xs: seq<Exchange>) {
    exists k :: 0 <= k < |xs| && xs[k].response.Some?
  }

  datatype Rounds = Rounds(rounds: seq<Round>, open: seq<Challenge>)

  /** Rounds from `number` on: until nothing is open, the limit is reached, or nobody answered. */
  function RoundsFrom(c: Case, pending: seq<Challenge>, number: int): Result<Rounds, Failure>
    decreases c.maximumRounds - number
  {
    if number > c.maximumRounds || pending == [] then Ok(Rounds([], pending))
    else
      var xs :- RoundOf(c, pending, number);
      if !Answered(xs) then Ok(Rounds([Round(number, xs)], Open(xs)))
      else
        var rest :- RoundsFrom(c, Open(xs), number + 1);
        Ok(Rounds([Round(number, xs)] + rest.rounds, rest.open))
  }

  // ---- the packet ----

  predicate ReportsComplete(c: Case) {
    |c.reports| == |Required(c.snapshot.qlibEnabled)| && ToSet(Firms(c.reports)) == Required(c.snapshot.qlibEnabled)
  }

  function Admission(c: Case): Option<Failure> {
    if !c.firstPassLocked || !c.audit.completed then Some(NotLocked)
    else if !(0 <= c.maximumRounds <= 2) then Some(RoundLimit)
    else if !(1 <= c.maximumChallenges <= 24) then Some(ChallengeLimit)
    else if !ReportsComplete(c) then Some(ReportsMissing)
    else if c.lean.snapshotId != c.snapshot.id || c.audit.snapshotId != c.snapshot.id
            || exists k :: 0 <= k < |c.reports| && (c.reports[k].snapshotId != c.snapshot.id || c.reports[k].snapshotHash != c.snapshot.hash) then
      Some(SnapshotDiffers)
    else if !NoDuplicates(AllClaimIds(c.reports)) then Some(DuplicateClaims)
    else if |Findings(c)| > c.maximumChallenges then Some(BudgetExceeded)
    else None
  }

  function HashOf(reports: seq<Report>, firm: Respondent): Hash {
    if reports == [] then 0
    else if reports[|reports| - 1].firm == firm then reports[|reports| - 1].contentHash
    else HashOf(reports[..|reports| - 1], firm)
  }

  /** The sealed report hashes, sorted by firm name. */
  function ReportHashes(c: Case): seq<(Respondent, Hash)> {
    [(AiHedgeFund, HashOf(c.reports, AiHedgeFund))]
    + (if c.snapshot.qlibEnabled then [(Qlib, HashOf(c.reports, Qlib))] else [])
    + [(TradingAgents, HashOf(c.reports, TradingAgents))]
  }

  function Assembled(c: Case, challenges: seq<Challenge>, rounds: Rounds): Packet {
    Packet(c.snapshot.hash, c.snapshot.qlibEnabled, ReportHashes(c), c.lean.contentHash, c.audit.contentHash,
           challenges, rounds.rounds, Ids(rounds.open), rounds.open != [])
  }

  /** The packet of a run, or why the run stops without one. */
  function Driven(c: Case): Result<Packet, Failure> {
    var refused := Admission(c);
    if refused.Some? then Err(refused.value)
    else
      var challenges :- Challenges(c, Findings(c));
      var rounds :- RoundsFrom(c, challenges, 1);
      Ok(Assembled(c, challenges, rounds))
  }

  // ---- the challenges are sound ----

  lemma {:induction false} DecimalInjective(a: nat, b: nat)
    requires Decimal(a) == Decimal(b)
    ensures a == b
  {
    var s, t := Decimal(a), Decimal(b);
    assert s[|s| - 1] == t[|t| - 1];
    if a >= 10 {
      assert Decimal(a / 10) == s[..|s| - 1] && Decimal(b / 10) == t[..|t| - 1];
      DecimalInjective(a / 10, b / 10);
    }
  }

  lemma NamesDiffer(i: nat, j: nat)
    requires ChallengeName(i) == ChallengeName(j)
    ensures i == j
  {
    assert ChallengeName(i)[10..] == Decimal(i + 1) && ChallengeName(j)[10..] == Decimal(j + 1);
    DecimalInjective(i + 1, j + 1);
  }

  lemma {:induction false} ChallengesAreNamed(c: Case, fs: seq<Finding>, k: nat)
    requires Challenges(c, fs).Ok?
    ensures |Challenges(c, fs).value| == |fs|
    ensures k < |fs| ==> ChallengeFrom(c, k, fs[k]) == Ok(Challenges(c, fs).value[k])
  {
    if fs != [] {
      ChallengesAreNamed(c, fs[..|fs| - 1], k);
    }
  }

  lemma ChallengesDistinct(c: Case, fs: seq<Finding>)
    requires Challenges(c, fs).Ok?
    ensures NoDuplicates(Ids(Challenges(c, fs).value))
  {
    var cs := Challenges(c, fs).value;
    ChallengesAreNamed(c, fs, 0);
    forall i, j | 0 <= i < j < |cs| ensures cs[i].id != cs[j].id {
      ChallengesAreNamed(c, fs, i);
      ChallengesAreNamed(c, fs, j);
      if ChallengeName(i) == ChallengeName(j) { NamesDiffer(i, j); }
    }
  }

  lemma {:induction false} OwnHash(reports: seq<Report>, r: Report)
    requires r in reports && NoDuplicates(Firms(reports))
    ensures HashOf(reports, r.firm) == r.contentHash
  {
    var init, last := reports[..|reports| - 1], reports[|reports| - 1];
    var k :| 0 <= k < |reports| && reports[k] == r;
    if last.firm == r.firm {
      assert Firms(reports)[k] == Firms(reports)[|reports| - 1];
    } else {
      assert init[k] == r;
      assert forall i :: 0 <= i < |init| ==> Firms(init)[i] == Firms(reports)[i];
      OwnHash(init, r);
    }
  }

  lemma TwoHashes(a: Hash, t: Hash)
    ensures var pairs := [(AiHedgeFund, a), (TradingAgents, t)];
      && DictOf(pairs) == map[AiHedgeFund := a, TradingAgents := t] && Names(pairs) == [AiHedgeFund, TradingAgents]
  {
    DictAppend([], (AiHedgeFund, a));
    assert [] + [(AiHedgeFund, a)] == [(AiHedgeFund, a)];
    DictAppend([(AiHedgeFund, a)], (TradingAgents, t));
    assert [(AiHedgeFund, a)] + [(TradingAgents, t)] == [(AiHedgeFund, a), (TradingAgents, t)];
  }

  lemma ThreeHashes(a: Hash, q: Hash, t: Hash)
    ensures var pairs := [(AiHedgeFund, a), (Qlib, q), (TradingAgents, t)];
      && DictOf(pairs) == map[AiHedgeFund := a, Qlib := q, TradingAgents := t] && Names(pairs) == [AiHedgeFund, Qlib, TradingAgents]
  {
    DictAppend([], (AiHedgeFund, a));
    assert [] + [(AiHedgeFund, a)] == [(AiHedgeFund, a)];
    DictAppend([(AiHedgeFund, a)], (Qlib, q));
    assert [(AiHedgeFund, a)] + [(Qlib, q)] == [(AiHedgeFund, a), (Qlib, q)];
    DictAppend([(AiHedgeFund, a), (Qlib, q)], (TradingAgents, t));
    assert [(AiHedgeFund, a), (Qlib, q)] + [(TradingAgents, t)] == [(AiHedgeFund, a), (Qlib, q), (TradingAgents, t)];
  }

  lemma FirmsAreListed()
    ensures Lists([AiHedgeFund, TradingAgents], Required(false)) && Lists([AiHedgeFund, Qlib, TradingAgents], Required(true))
  {
  }

  lemma HashesOfFirms(c: Case)
    ensures Lists(Names(ReportHashes(c)), Required(c.snapshot.qlibEnabled))
    ensures forall firm :: firm in Required(c.snapshot.qlibEnabled) ==>
      firm in DictOf(ReportHashes(c)) && DictOf(ReportHashes(c))[firm] == HashOf(c.reports, firm)
  {
    hide DictOf, Names, Lists, HashOf;
    var a, q, t := HashOf(c.reports, AiHedgeFund), HashOf(c.reports, Qlib), HashOf(c.reports, TradingAgents);
    FirmsAreListed();
    TwoHashes(a, t);
    ThreeHashes(a, q, t);
    if c.snapshot.qlibEnabled {
      assert ReportHashes(c) == [(AiHedgeFund, a), (Qlib, q), (TradingAgents, t)];
    } else {
      assert ReportHashes(c) == [(AiHedgeFund, a), (TradingAgents, t)];
    }
  }

  lemma DictAppend(pairs: seq<(Respondent, Hash)>, pair: (Respondent, Hash))
    ensures DictOf(pairs + [pair]) == DictOf(pairs)[pair.0 := pair.1]
  {
    assert (pairs + [pair])[..|pairs|] == pairs;
  }

  lemma OwnerIsSealed(c: Case, owner: Report)
    requires ReportsComplete(c) && owner in c.reports
    ensures owner.firm in DictOf(ReportHashes(c)) && DictOf(ReportHashes(c))[owner.firm] == owner.contentHash
    ensures owner.firm != Lean && owner.firm != Cio
  {
    ListsBySet(Firms(c.reports), Required(c.snapshot.qlibEnabled));
    var k :| 0 <= k < |c.reports| && c.reports[k] == owner;
    assert Firms(c.reports)[k] in ToSet(Firms(c.reports));
    OwnHash(c.reports, owner);
    HashesOfFirms(c);
  }

  /** A derived challenge refers to the sealed hash of whoever must answer, and its original claim is inside its evidence. */
  lemma ChallengeIsSound(c: Case, index: nat, f: Finding, p: Packet)
    requires ReportsComplete(c) && ChallengeFrom(c, index, f).Ok?
    requires p.reportHashes == ReportHashes(c) && p.leanHash == c.lean.contentHash && p.auditHash == c.audit.contentHash
    ensures ChallengeOk(p, ChallengeFrom(c, index, f).value) && InsideOwn(ChallengeFrom(c, index, f).value)
  {
    hide ReportsComplete, ReportHashes, DictOf, Decimal;
    var owner := OwnerOf(c.reports, if f.claimId.Some? then f.claimId.value else "");
    if owner.Some? { OwnerIsSealed(c, owner.value); }
  }

  // ---- the rounds are sound ----

  lemma ExchangeIsSound(c: Case, ch: Challenge, number: int)
    requires Exchanged(c, ch, number).Ok?
    ensures Exchanged(c, ch, number).value.challenge == ch
    ensures ExchangeOk(Exchanged(c, ch, number).value, c.snapshot.hash)
  {
  }

  lemma {:induction false} RoundIsSound(c: Case, pending: seq<Challenge>, number: int, k: nat)
    requires RoundOf(c, pending, number).Ok?
    ensures var xs := RoundOf(c, pending, number).value;
      |xs| == |pending| && (k < |xs| ==> xs[k].challenge == pending[k] && ExchangeOk(xs[k], c.snapshot.hash))
  {
    hide Exchanged, ExchangeOk;
    if pending != [] {
      RoundIsSound(c, pending[..|pending| - 1], number, k);
      ExchangeIsSound(c, pending[|pending| - 1], number);
    }
  }

  lemma {:induction false} LookUp(cs: seq<Challenge>, k: nat)
    requires NoDuplicates(Ids(cs)) && k < |cs|
    ensures cs[k].id in ById(cs) && ById(cs)[cs[k].id] == cs[k]
  {
    var init := cs[..|cs| - 1];
    if k < |cs| - 1 {
      assert forall i :: 0 <= i < |init| ==> Ids(init)[i] == Ids(cs)[i];
      assert Ids(cs)[k] != Ids(cs)[|cs| - 1];
      LookUp(init, k);
    }
  }

  lemma AppendId(cs: seq<Challenge>, c: Challenge)
    ensures ById(cs + [c]) == ById(cs)[c.id := c]
    ensures Ids(cs + [c]) == Ids(cs) + [c.id]
    ensures NoDuplicates(Ids(cs)) && c.id !in ById(cs) ==> NoDuplicates(Ids(cs + [c]))
    ensures NoDuplicates(Ids(cs + [c])) ==> NoDuplicates(Ids(cs)) && c.id !in ById(cs)
  {
    assert (cs + [c])[..|cs|] == cs;
    assert Ids(cs + [c]) == Ids(cs) + [c.id];
    if NoDuplicates(Ids(cs + [c])) {
      assert forall i :: 0 <= i < |cs| ==> Ids(cs)[i] == Ids(cs + [c])[i] && Ids(cs + [c])[i] != Ids(cs + [c])[|cs|];
    }
  }

  lemma {:induction false} ResolvedWerePending(xs: seq<Exchange>, pending: seq<Challenge>)
    requires |xs| == |pending| && forall k :: 0 <= k < |xs| ==> xs[k].challenge == pending[k]
    ensures ResolvedIn(xs) <= ById(pending).Keys
  {
    forall k | 0 <= k < |xs| ensures xs[k].challenge.id in ById(pending) {
      assert Ids(pending)[k] in Ids(pending);
    }
  }

  lemma DeleteLast(pending: Pending, last: Challenge, resolved: set<string>)
    requires last.id !in pending && resolved <= pending.Keys
    ensures pending[last.id := last] - (resolved + {last.id}) == pending - resolved
    ensures pending[last.id := last] - (resolved + {}) == (pending - resolved)[last.id := last]
  {
  }

  /** Filtering out resolved exchanges and deleting resolved identities from the dictionary are the same. */
  lemma {:induction false} OpenIsRest(xs: seq<Exchange>, pending: seq<Challenge>)
    requires NoDuplicates(Ids(pending)) && |xs| == |pending|
    requires forall k :: 0 <= k < |xs| ==> xs[k].challenge == pending[k]
    ensures ById(pending) - ResolvedIn(xs) == ById(Open(xs))
    ensures NoDuplicates(Ids(Open(xs)))
  {
    hide NoDuplicates, ResolvedIn, ById, Ids;
    if xs == [] {
      NothingResolvedYet(xs);
      assert xs[..0] == xs && pending == [] && Open(xs) == [];
    } else {
      var n := |xs| - 1;
      var xInit, pInit, last := xs[..n], pending[..n], pending[n];
      assert pending == pInit + [last];
      AppendId(pInit, last);
      OpenIsRest(xInit, pInit);
      ResolvedWerePending(xInit, pInit);
      ResolvedInMore(xs, n);
      assert xs[..n + 1] == xs;
      DeleteLast(ById(pInit), last, ResolvedIn(xInit));
      if xs[n].resolved {
        assert Open(xs) == Open(xInit);
      } else {
        assert Open(xs) == Open(xInit) + [last];
        AppendId(Open(xInit), last);
      }
    }
  }

  lemma RoundMatches(c: Case, pending: seq<Challenge>, number: int)
    requires RoundOf(c, pending, number).Ok? && NoDuplicates(Ids(pending))
    ensures RoundOk(RoundOf(c, pending, number).value, ById(pending), c.snapshot.hash)
  {
    hide ExchangeOk;
    var xs := RoundOf(c, pending, number).value;
    RoundIsSound(c, pending, number, 0);
    forall k | 0 <= k < |xs| ensures xs[k].challenge == pending[k] && Addresses(xs[k], ById(pending), c.snapshot.hash) {
      RoundIsSound(c, pending, number, k);
      LookUp(pending, k);
    }
    assert ExchangeIds(xs) == Ids(pending);
  }

  /** Replaying the rounds of a run leads exactly to the challenges it left open. */
  lemma {:induction false} RoundsAreSound(c: Case, pending: seq<Challenge>, number: int)
    requires RoundsFrom(c, pending, number).Ok? && NoDuplicates(Ids(pending))
    ensures var r := RoundsFrom(c, pending, number).value;
      && Outstanding(ById(pending), r.rounds, number, c.snapshot.hash) == Some(ToSet(Ids(r.open)))
      && NoDuplicates(Ids(r.open))
      && (number <= c.maximumRounds + 1 ==> |r.rounds| <= c.maximumRounds + 1 - number)
    decreases c.maximumRounds - number
  {
    hide RoundOk, ResolvedIn, NoDuplicates, Answered, RoundOf, Open;
    if number <= c.maximumRounds && pending != [] {
      var xs := RoundOf(c, pending, number).value;
      RoundMatches(c, pending, number);
      OpensRest(c, pending, number);
      if Answered(xs) {
        RoundsAreSound(c, Open(xs), number + 1);
        var rest := RoundsFrom(c, Open(xs), number + 1).value;
        assert ([Round(number, xs)] + rest.rounds)[1..] == rest.rounds;
      } else {
        assert [Round(number, xs)][1..] == [];
      }
    }
  }

  lemma OpensRest(c: Case, pending: seq<Challenge>, number: int)
    requires RoundOf(c, pending, number).Ok? && NoDuplicates(Ids(pending))
    ensures var xs := RoundOf(c, pending, number).value;
      ById(pending) - ResolvedIn(xs) == ById(Open(xs)) && NoDuplicates(Ids(Open(xs)))
  {
    hide ExchangeOk, ResolvedIn, ById, Open, NoDuplicates;
    var xs := RoundOf(c, pending, number).value;
    RoundIsSound(c, pending, number, 0);
    forall k | 0 <= k < |xs| ensures xs[k].challenge == pending[k] { RoundIsSound(c, pending, number, k); }
    OpenIsRest(xs, pending);
  }

  // ---- every packet of a run is accepted ----

  lemma ChallengesAreSound(c: Case, challenges: seq<Challenge>, p: Packet, k: nat)
    requires ReportsComplete(c) && Challenges(c, Findings(c)) == Ok(challenges) && k < |challenges|
    requires p.reportHashes == ReportHashes(c) && p.leanHash == c.lean.contentHash && p.auditHash == c.audit.contentHash
    ensures ChallengeOk(p, challenges[k]) && InsideOwn(challenges[k])
  {
    hide ChallengeFrom, ChallengeOk, InsideOwn, Findings, ReportsComplete;
    ChallengesAreNamed(c, Findings(c), k);
    ChallengeIsSound(c, k, Findings(c)[k], p);
  }

  lemma HeaderIsSound(c: Case, challenges: seq<Challenge>, rounds: Rounds)
    requires Admission(c).None? && Challenges(c, Findings(c)) == Ok(challenges) && |rounds.rounds| <= 2
    ensures HeaderOk(Assembled(c, challenges, rounds)) && EvidenceInside(Assembled(c, challenges, rounds))
  {
    assert ReportsComplete(c) && |Findings(c)| <= 24;
    hide ChallengeFrom, ChallengeOk, InsideOwn, NoDuplicates, Lists, Admission, Findings, ReportsComplete, Challenges;
    var p := Assembled(c, challenges, rounds);
    ChallengesAreNamed(c, Findings(c), 0);
    ChallengesDistinct(c, Findings(c));
    HashesOfFirms(c);
    forall k | 0 <= k < |challenges| ensures ChallengeOk(p, challenges[k]) && InsideOwn(challenges[k]) {
      ChallengesAreSound(c, challenges, p, k);
    }
  }

  /** For arbitrary responders and verifier, every packet a run builds is coherent and passes both validators. */
  lemma DrivenPacketsAreAccepted(c: Case)
    requires Driven(c).Ok?
    ensures Coherent(Driven(c).value) && EvidenceInside(Driven(c).value)
  {
    hide HeaderOk, EvidenceInside, RoundsFrom, Challenges, Outstanding, NoDuplicates;
    var challenges := Challenges(c, Findings(c)).value;
    var rounds := RoundsFrom(c, challenges, 1).value;
    ChallengesDistinct(c, Findings(c));
    RoundsAreSound(c, challenges, 1);
    HeaderIsSound(c, challenges, rounds);
  }

  // ---- nothing certifies itself ----

  lemma UnverifiedUnresolved(c: Case, ch: Challenge, number: int)
    requires c.verifier.None? && Exchanged(c, ch, number).Ok?
    ensures !Exchanged(c, ch, number).value.resolved
  {
  }

  /** A round is the round over all but the last challenge, and then the last exchange. */
  lemma RoundGrows(c: Case, pending: seq<Challenge>, number: int)
    requires pending != [] && RoundOf(c, pending, number).Ok?
    ensures var init, last := RoundOf(c, pending[..|pending| - 1], number), Exchanged(c, pending[|pending| - 1], number);
      init.Ok? && last.Ok? && RoundOf(c, pending, number).value == init.value + [last.value]
  {
    hide Exchanged;
  }

  lemma OpenGrows(xs: seq<Exchange>, x: Exchange)
    ensures Open(xs + [x]) == Open(xs) + if x.resolved then [] else [x.challenge]
  {
    assert (xs + [x])[..|xs|] == xs;
  }

  lemma {:induction false} UnverifiedStaysOpen(c: Case, pending: seq<Challenge>, number: int)
    requires c.verifier.None? && RoundOf(c, pending, number).Ok?
    ensures Open(RoundOf(c, pending, number).value) == pending
  {
    if pending != [] {
      hide Exchanged, ExchangeOk, RoundOf, Open;
      var init, last := pending[..|pending| - 1], pending[|pending| - 1];
      RoundGrows(c, pending, number);
      UnverifiedStaysOpen(c, init, number);
      OpenGrows(RoundOf(c, init, number).value, Exchanged(c, last, number).value);
      UnverifiedUnresolved(c, last, number);
      ExchangeIsSound(c, last, number);
      assert pending == init + [last];
    }
  }

  lemma {:induction false} UnverifiedLeavesAll(c: Case, pending: seq<Challenge>, number: int)
    requires c.verifier.None? && RoundsFrom(c, pending, number).Ok?
    ensures RoundsFrom(c, pending, number).value.open == pending
    decreases c.maximumRounds - number
  {
    hide RoundOf, Open, Answered;
    if number <= c.maximumRounds && pending != [] {
      UnverifiedStaysOpen(c, pending, number);
      if Answered(RoundOf(c, pending, number).value) { UnverifiedLeavesAll(c, pending, number + 1); }
    }
  }

  /** Without an independent verifier every challenge stays unresolved, whatever the responders say. */
  lemma NothingCertifiesItself(c: Case)
    requires c.verifier.None? && Driven(c).Ok?
    ensures Driven(c).value.unresolved == Ids(Driven(c).value.challenges)
    ensures Driven(c).value.materialDisagreement <==> Findings(c) != []
  {
    var challenges := Challenges(c, Findings(c)).value;
    ChallengesAreNamed(c, Findings(c), 0);
    UnverifiedLeavesAll(c, challenges, 1);
  }

  // ---- the run in its own form ----

  method Ask(c: Case, ch: Challenge, number: int) returns (r: Result<Exchange, Failure>)
    ensures r == Exchanged(c, ch, number)
  {
    if ch.respondent !in c.responders { return Ok(Exchange(ch, None, None, None, [], false, ResponderUnavailable)); }
    var answer := c.responders[ch.respondent](ch, number);
    if answer.None? { return Err(ResponderRaised); }
    var response := answer.value;
    if response.invocation == Some(Demo) { return Err(DemoResponse); }
    if !Answers(response, ch, c.snapshot.hash) { return Err(ResponseProvenance); }
    if response.corrected.Some? && !CorrectionOk(c, ch, response.corrected.value) { return Err(BadCorrection); }
    var verification, invocation, checks, resolved, reason := None, None, [], false, VerificationUnavailable;
    if c.verifier.Some? && response.position == Maintain {
      var checked := c.verifier.value(ch, response, number);
      if checked.None? { return Err(VerifierRaised); }
      var finding := checked.value.finding;
      verification := Some(finding);
      if checked.value.Detailed? {
        invocation, checks := checked.value.invocation, checked.value.checks;
        if !ChecksMatch(c, ch, checks) { return Err(SourceCheckDiffers); }
        if invocation == Some(Demo) { return Err(DemoVerification); }
      }
      if finding.claimId != ch.claimId || !Within(finding.evidence, ch.evidence) { return Err(VerificationProvenance); }
      resolved := finding.state == Verified && SharesOne(finding.evidence, response.evidence);
      reason := if resolved then IndependentlyVerified else DisagreementUnresolved;
    } else if response.position != Maintain {
      reason := WithdrawnOrUnsupported;
    }
    r := Ok(Exchange(ch, Some(response), verification, invocation, checks, resolved, reason));
  }

  lemma {:induction false} RoundErrorStays(c: Case, pending: seq<Challenge>, number: int, k: nat)
    requires k <= |pending| && RoundOf(c, pending[..k], number).Err?
    ensures RoundOf(c, pending, number) == Err(RoundOf(c, pending[..k], number).error)
    decreases |pending|
  {
    if k == |pending| {
      assert pending[..k] == pending;
    } else {
      assert pending[..|pending| - 1][..k] == pending[..k];
      RoundErrorStays(c, pending[..|pending| - 1], number, k);
    }
  }

  method RunRound(c: Case, pending: seq<Challenge>, number: int)
    returns (r: Result<seq<Exchange>, Failure>, open: seq<Challenge>, anyResponse: bool)
    ensures r == RoundOf(c, pending, number)
    ensures r.Ok? ==> open == Open(r.value) && (anyResponse <==> Answered(r.value))
  {
    hide Exchanged;
    var exchanges: seq<Exchange> := [];
    open, anyResponse := [], false;
    for k := 0 to |pending|
      invariant RoundOf(c, pending[..k], number) == Ok(exchanges)
      invariant open == Open(exchanges) && (anyResponse <==> Answered(exchanges))
    {
      var x := Ask(c, pending[k], number);
      assert pending[..k + 1][..k] == pending[..k];
      if x.Err? {
        RoundErrorStays(c, pending, number, k + 1);
        return Err(x.error), open, anyResponse;
      }
      assert (exchanges + [x.value])[..|exchanges|] == exchanges;
      AnsweredMore(exchanges, x.value);
      if x.value.response.Some? { anyResponse := true; }
      open := open + if x.value.resolved then [] else [pending[k]];
      ExchangeIsSound(c, pending[k], number);
      exchanges := exchanges + [x.value];
    }
    assert pending[..|pending|] == pending;
    r := Ok(exchanges);
  }

  lemma AnsweredMore(xs: seq<Exchange>, x: Exchange)
    ensures Answered(xs + [x]) <==> Answered(xs) || x.response.Some?
  {
    if k :| 0 <= k < |xs| && xs[k].response.Some? { assert (xs + [x])[k].response.Some?; }
    if x.response.Some? { assert (xs + [x])[|xs|].response.Some?; }
  }

  lemma {:induction false} ChallengeErrorStays(c: Case, fs: seq<Finding>, k: nat)
    requires k <= |fs| && Challenges(c, fs[..k]).Err?
    ensures Challenges(c, fs) == Err(Challenges(c, fs[..k]).error)
    decreases |fs|
  {
    if k == |fs| {
      assert fs[..k] == fs;
    } else {
      assert fs[..|fs| - 1][..k] == fs[..k];
      ChallengeErrorStays(c, fs[..|fs| - 1], k);
    }
  }

  method DeriveChallenges(c: Case) returns (r: Result<seq<Challenge>, Failure>)
    ensures r == Challenges(c, Findings(c))
  {
    hide ChallengeFrom, Findings;
    var fs := Findings(c);
    var challenges: seq<Challenge> := [];
    for k := 0 to |fs|
      invariant Challenges(c, fs[..k]) == Ok(challenges)
    {
      var challenge := ChallengeFrom(c, k, fs[k]);
      assert fs[..k + 1][..k] == fs[..k];
      if challenge.Err? {
        ChallengeErrorStays(c, fs, k + 1);
        return Err(challenge.error);
      }
      challenges := challenges + [challenge.value];
    }
    assert fs[..|fs|] == fs;
    r := Ok(challenges);
  }

  function Prepend(done: seq<Round>, r: Result<Rounds, Failure>): Result<Rounds, Failure> {
    if r.Err? then r else Ok(Rounds(done + r.value.rounds, r.value.open))
  }

  lemma PrependStep(done: seq<Round>, x: Round, r: Result<Rounds, Failure>)
    ensures Prepend(done, Prepend([x], r)) == Prepend(done + [x], r)
    ensures Prepend([], r) == r
    ensures r.Ok? && r.value.rounds == [] ==> Prepend(done, r) == Ok(Rounds(done, r.value.open))
  {
    if r.Ok? {
      assert done + ([x] + r.value.rounds) == (done + [x]) + r.value.rounds;
      assert [] + r.value.rounds == r.value.rounds;
      assert r.value.rounds == [] ==> done + r.value.rounds == done;
    }
  }

  method RunRounds(c: Case, challenges: seq<Challenge>) returns (r: Result<Rounds, Failure>)
    ensures r == RoundsFrom(c, challenges, 1)
  {
    hide RoundOf, Open, Answered;
    var unresolved, rounds: seq<Round> := challenges, [];
    var number := 1;
    PrependStep([], Round(0, []), RoundsFrom(c, challenges, 1));
    while number <= c.maximumRounds && unresolved != []
      invariant RoundsFrom(c, challenges, 1) == Prepend(rounds, RoundsFrom(c, unresolved, number))
      decreases c.maximumRounds - number
    {
      var exchanges, open, anyResponse := RunRound(c, unresolved, number);
      if exchanges.Err? { return Err(exchanges.error); }
      var round := Round(number, exchanges.value);
      if !anyResponse { return Ok(Rounds(rounds + [round], open)); }
      PrependStep(rounds, round, RoundsFrom(c, open, number + 1));
      rounds := rounds + [round];
      unresolved := open;
      number := number + 1;
    }
    PrependStep(rounds, Round(0, []), RoundsFrom(c, unresolved, number));
    r := Ok(Rounds(rounds, unresolved));
  }

  /** The whole run; constructing the packet seals it, and the seal never refuses. */
  method Examine(c: Case) returns (r: Result<Packet, Failure>)
    ensures r == Driven(c)
    ensures r != Err(SealRefused)
    ensures r.Ok? ==> Coherent(r.value) && EvidenceInside(r.value)
  {
    hide Coherent, EvidenceInside, RoundsFrom, Challenges;
    var refused := Admission(c);
    if refused.Some? { return Err(refused.value); }
    var challenges := DeriveChallenges(c);
    if challenges.Err? { NoSealFailure(c); return Err(challenges.error); }
    var rounds := RunRounds(c, challenges.value);
    if rounds.Err? { NoSealFailure(c); return Err(rounds.error); }
    var packet := Assembled(c, challenges.value, rounds.value);
    DrivenPacketsAreAccepted(c);
    var sealed := Seal(packet);
    if !sealed { return Err(SealRefused); }
    r := Ok(packet);
  }

  lemma {:induction false} ChallengesNeverSealFail(c: Case, fs: seq<Finding>)
    ensures Challenges(c, fs) != Err(SealRefused)
  {
    if fs != [] { ChallengesNeverSealFail(c, fs[..|fs| - 1]); }
  }

  lemma {:induction false} RoundNeverSealFails(c: Case, pending: seq<Challenge>, number: int)
    ensures RoundOf(c, pending, number) != Err(SealRefused)
  {
    if pending != [] { RoundNeverSealFails(c, pending[..|pending| - 1], number); }
  }

  lemma {:induction false} RoundsNeverSealFail(c: Case, pending: seq<Challenge>, number: int)
    ensures RoundsFrom(c, pending, number) != Err(SealRefused)
    decreases c.maximumRounds - number
  {
    hide RoundOf, Open, Answered;
    if number <= c.maximumRounds && pending != [] {
      RoundNeverSealFails(c, pending, number);
      if RoundOf(c, pending, number).Ok? { RoundsNeverSealFail(c, Open(RoundOf(c, pending, number).value), number + 1); }
    }
  }

  lemma NoSealFailure(c: Case)
    ensures Driven(c) != Err(SealRefused)
  {
    hide RoundsFrom, Challenges, Findings, ReportsComplete, NoDuplicates, Assembled;
    ChallengesNeverSealFail(c, Findings(c));
    if Challenges(c, Findings(c)).Ok? { RoundsNeverSealFail(c, Challenges(c, Findings(c)).value, 1); }
  }
}
