# Money: a verified model of its protocols and arithmetic

This project models the parts of Money whose correctness spans many operations, and
proves what they are meant to guarantee. It is written in Dafny 4.11;
`dafny verify dfyconfig.toml` checks all of it.

| files | what they model |
|---|---|
| `Accounts`, `AccountInvariants`, `AccountSteps`, `AccountRuns`, `AccountTheorems`, `AccountSeats`, `AccountEffects`, `AccountExample`, `AccountService` | identity, membership and offboarding |
| `CrossExamination`, `CrossExaminationChecks`, `CrossExaminationDriver` | the bounded cross-examination, its sealing validator and the browser's second validator |
| `Study`, `StudyCases`, `StudyReport`, `StudyExample`, `Drawdown`, `LeanVerdict` | the historical study and the verdict drawn from it |
| `EmailOutbox`, `AlertOutbox`, `Leases` | the leased outboxes |
| `AccountMail` | accounts and the e-mail outbox as one system |
| `LiveEligibility`, `Isin` | the eligibility cache and the ISIN check digit (ISO 6166, Annex B of ISO/IEC 7812-1) |

## How the protocols are modelled

Each protocol is a state machine. A state holds the tables; an action is one database
transaction or one outside event; a step lets time pass and attempts an action. A refused
action changes nothing. Theorems quantify over every sequence of steps, which covers every
interleaving of requests and workers. A crashed worker is one that never takes its
completion step. Beside each machine stands a class whose methods do the work step by step
on mutable tables; their postconditions tie them to the functions the machine is made of.
The account service also keeps the run it has performed: it is valid when its tables are those
of that run, every public method extends the run by its own action, and so every theorem about
runs holds of every service.

Most account requests read the caller on one connection and act in a later, locked
transaction. The earlier read is an arbitrary argument here, so it may be arbitrarily stale.

### Assumptions

- Row locks make each transaction atomic, and the clock does not go back. The eligibility
  cache does not need the second: its clock is arbitrary.
- Identifiers and tokens are drawn fresh; hashes and digests are injective. Rows are keyed
  by what they digest.
- A request authenticated before its own user was erased does not outlive that erasure. Only
  accepting an invitation relies on this.
- Prices and returns are real numbers. Bars are well formed: `0 < low <= open, close <= high`.
- Replies of the payment provider, mail server, broker, responders and verifier are arbitrary.
- Columns that only record history do not exist in the source and are marked as such: the
  hash a session was issued under and the provider reading that closed a workspace's billing.

### Where the code falls short of the stated property

Each has an exact condition and a concrete witness, both proved.

- **An erased account's new address.** Erasure renames the account to a reserved address and
  deletes the invitations it sent and those to the old address. An invitation somebody else had
  already sent to the reserved address survives and is then addressed to the erased account
  (`ErasedAccountCanHaveInvitation`). It survives if and only if one was pending before
  (`ErasureLeavesPendingIff`), and otherwise none is ever created (`ErasedAddressStaysSilent`).
- **Mail already on its way.** A departure cancels queued mail to the account's address, but a row by
  somebody else that is being sent at that moment is not withdrawn, and is handed out again if the
  attempt fails or its worker crashes (`DepartedAddressCanBeMailed`). That is the only way
  (`DepartedAddressIff`).
- **Two validators.** The browser rejects a packet the seal accepts exactly when an original
  claim cites evidence outside its challenge (`Seal`, `Recheck`, `BrowserIsStricter`). Driven
  packets never do. This is exact for packets as the server serialises them: on raw JSON the
  browser also tells a null `original_claim` or `claim_id` from an absent one, and it limits the
  length of lists and strings.
- **A validated result without a mean.** The engine-result validator admits a sensitivity run
  that has observations but no mean; comparing it raises, exactly when `VerdictRaisesIff` says.
  No result of the study itself is of that kind (`StudyVerdictDecides`).
- **One regime counted twice.** The verdict counts entries of the regime list, and the validator
  lets an entry repeat, so a validated result with a single regime can pass
  (`RepeatedRegimeCanPass`). A PASS names both exactly when the list has two distinct entries
  (`PassNamesBothIff`); a covered result of the study always shows both (`CoveredStudyShowsBoth`).
- **Overlapping windows.** Bars on distinct dates may be less than a day apart. The windows of two
  cases are disjoint exactly when the later starts past the calendar horizon of the earlier
  (`CaseWindowsDisjointIff`), and there is a history whose first two cases overlap (`CasesCanOverlap`).
- **The one swap an ISIN misses.** Adjacent 0 and 9 (`SwapRejectedUnlessZeroNine`, `SwapCanGoUnnoticed`).

## Model

| member | source | states |
|---|---|---|
| AccountRuns.Reachable | src/money/accounts/service.py:189-966 | after every interleaving of account transactions from the empty database the whole table invariant holds |
| AccountTheorems.OwnedOrClosing | src/money/accounts/service.py:374-966 | in every reachable state a workspace has exactly one OWNER, whose deletion is not requested, and no closure; or it has a closure and no members |
| AccountTheorems.ClosingForever | src/money/accounts/offboarding.py:77-210 | once a workspace has a closure row it keeps it, and never has a member again |
| AccountTheorems.LeavingNeverCollides | src/money/accounts/offboarding.py:144-201 | neither the closure insert nor the deletion-request insert ever meets an existing row |
| AccountTheorems.LeavingIsFinal | src/money/accounts/offboarding.py:165-201 | from the moment deletion commits, whatever was in flight, the user has no unrevoked session, unused token, membership or unused invitation of their own, forever |
| AccountTheorems.FormerAddressIsSilent | src/money/accounts/service.py:90-134 | the address a user left with has no unused invitation, unless the account is erased and an open account has registered that address |
| AccountTheorems.ErasureLeavesPendingIff | src/money/accounts/offboarding.py:685-730 | an unused invitation is addressed to the erased account's new address if and only if one already was before the erasure |
| AccountTheorems.ErasedAddressStaysSilent | src/money/accounts/service.py:111-134 | if erasure leaves no unused invitation to the new address, no later step creates one |
| AccountExample.ErasedAccountCanHaveInvitation | src/money/accounts/offboarding.py:688-719 | a concrete run ends with a live invitation addressed to an erased account |
| AccountTheorems.SessionsFollowPassword | src/money/accounts/service.py:277-311 | every unrevoked session was issued under its user's current password hash, and that user is not leaving |
| AccountTheorems.OneTokenEach | src/money/accounts/service.py:153-187 | at most one unused token per user and purpose |
| AccountTheorems.RedeemedOnce | src/money/accounts/service.py:227-258 | after a token was redeemed, no later attempt at any time redeems it, for either purpose |
| AccountSeats.SeatsNeverExceeded | src/money/accounts/service.py:747-904 | while a workspace's plan never shrinks, members plus live invitations never exceed its seats |
| AccountSeats.InvitationsAreDistinct | src/money/accounts/service.py:754-807 | at most one unused invitation per workspace and address, and none to a current member |
| AccountSeats.NeverRefusedForSeats | src/money/accounts/service.py:867-878 | accepting an invitation of such a workspace is never refused for lack of seats |
| AccountTheorems.ErasedOnlyWhenDue | src/money/accounts/offboarding.py:632-730 | an erased account waited at least the retention of the policy it was reviewed under, and every closure it requested is CLOSED |
| AccountTheorems.RequestsOnlyAdvance | src/money/accounts/offboarding.py:534-730 | over any continuation a request's state never moves back, and an ERASED row never changes |
| AccountTheorems.RequestsAdvanceStepwise | src/money/accounts/offboarding.py:555-646 | one step moves a request by at most one state, and a new request starts as REQUESTED |
| AccountTheorems.ClosuresAreProved | src/money/accounts/offboarding.py:259-410 | attempts stay within five, CLOSED rows never change, and a CLOSED row with a subscription had a provider reading of that identity as ended |
| AccountEffects.OwnerIsSole | src/money/accounts/service.py:722-745 | whoever passes the owner check in a reachable state is the workspace's only owner |
| AccountService.Service.Action | src/money/accounts/service.py:153-174 | earlier tokens of the purpose are used up and the new one expires after 30 or 1440 minutes |
| AccountService.Service.KeepsInvariant | src/money/accounts/service.py:189-966 | the table invariant holds of a service between any two calls |
| AccountService.Service.KeepsOut | src/money/accounts/offboarding.py:165-201 | whoever has left a service stays without session, token, membership or invitation, whatever is called later |
| AccountService.Service.Signup | src/money/accounts/service.py:189-214 | on success the address is registered, and no existing account is changed |
| AccountService.Service.VerifyEmail | src/money/accounts/service.py:216-258 | on success the user is verified and the link can never be redeemed again, at any time, for either purpose |
| AccountService.Service.ForgotPassword | src/money/accounts/service.py:409-422 | a token issued here is the user's only unused reset token and lasts 30 minutes |
| AccountService.Service.ResendVerification | src/money/accounts/service.py:424-441 | a token issued here is the user's only unused verification token and lasts 1440 minutes |
| AccountService.Service.Authenticate | src/money/accounts/service.py:313-334 | a read is handed out only for an open session issued under the current password |
| AccountService.Service.Login | src/money/accounts/service.py:277-311 | on success the session is open: unrevoked, issued under the password current at that moment, of a user who is not leaving; the service stays valid |
| AccountService.Service.Rotate | src/money/accounts/service.py:491-527 | on success the new session is open and the old one revoked; a refusal leaves the old one as it was |
| AccountService.Service.ResetPassword | src/money/accounts/service.py:443-460 | on success the link is spent forever, the password is the new one, and every session of the user is revoked |
| AccountService.Service.CreateWorkspace | src/money/accounts/service.py:374-407 | on success the creator is the sole owner and sole member, of at most five workspaces created |
| AccountService.Service.Invite | src/money/accounts/service.py:747-820 | on success members and live invitations fit the seats, and this is the address's only unused invitation to the workspace, which the address is not a member of |
| AccountService.Service.Accept | src/money/accounts/service.py:822-904 | on success an open account with the invited address joins with the invited role within the seats; if the seats were respected before, they still are, and lack of seats is never the refusal |
| AccountService.Service.ChangeMember | src/money/accounts/service.py:931-966 | on success the actor was and remains the sole owner, and no other membership changes |
| AccountService.Service.TransferOwnership | src/money/accounts/service.py:613-687 | on success sole ownership moves from the actor to a verified member, and nobody joins or leaves |
| AccountService.DecideClosing | src/money/accounts/offboarding.py:106-156 | whether one owned workspace must close with its owner, and the refusal when it cannot |
| AccountService.CloseWorkspaces | src/money/accounts/offboarding.py:83-164 | the loop over memberships opens exactly the closures due, withdraws their invitations, and otherwise reports the first refusal in workspace order |
| AccountService.Service.Depart | src/money/accounts/offboarding.py:165-201 | all tables after the departure: revoked, used, withdrawn, removed and requested |
| AccountService.Service.RequestDeletion | src/money/accounts/service.py:598-611 | on success nothing of the account is usable, its address has no pending invitation, and every workspace it owned is closing and empty; it never fails on an existing row |
| AccountService.Service.CloseBillingOnce | src/money/accounts/offboarding.py:259-386 | attempts the closure due longest, and nothing exactly when none is due; other rows and closed rows are untouched, the fifth failure in a row stops the attempts until an operator reviews it, and a closed subscription was read as ended |
| AccountService.Service.ReviewBillingClosure | src/money/accounts/offboarding.py:427-520 | a retry reopens only a failed closure and makes it due; a resolution closes only what has no known subscription; no other row changes |
| AccountService.Service.RequireClosedBilling | src/money/accounts/offboarding.py:593-629 | reports the first unsettled closure of the user in workspace order, and nothing exactly when all are settled |
| AccountService.Service.ReviewDeletion | src/money/accounts/offboarding.py:534-571 | on success every closure of the user is closed and the request is dated by its policy; an erased request is left alone |
| AccountService.Service.CheckErasure | src/money/accounts/offboarding.py:639-684 | no refusal means that billing is closed and the retention of the reviewed policy has run out |
| AccountService.Service.FulfilRequest | src/money/accounts/offboarding.py:632-737 | on success the account is erased no earlier than due with billing closed, and no session, token, membership, read or invitation names it; a second call changes nothing |
| CrossExaminationDriver.DrivenPacketsAreAccepted | src/money/crews/cross_examination.py:178-318 | for arbitrary responders and verifier, every packet a run builds passes the seal's and the browser's conditions |
| CrossExaminationDriver.RoundsAreSound | src/money/crews/cross_examination.py:245-312 | replaying a run's rounds leads exactly to the challenges it left open, within the allowed number of rounds |
| CrossExaminationDriver.ChallengesDistinct | src/money/crews/cross_examination.py:216-241 | the challenges derived for a case have distinct ids |
| CrossExaminationDriver.ChallengeIsSound | src/money/crews/cross_examination.py:216-241 | a challenge refers to the sealed hash of whoever must answer, and its original claim lies inside its evidence |
| CrossExaminationDriver.NothingCertifiesItself | src/money/crews/cross_examination.py:250-309 | without an independent verifier every challenge stays unresolved, whatever responders say |
| CrossExaminationDriver.Ask | src/money/crews/cross_examination.py:250-309 | one exchange is what the specification of a question and its verification says |
| CrossExaminationDriver.RunRounds | src/money/crews/cross_examination.py:245-312 | the round loop stops when nothing is open, the limit is reached or nobody answered, with the specified rounds and open challenges |
| CrossExaminationDriver.DeriveChallenges | src/money/crews/cross_examination.py:216-241 | the challenges for all findings, or the first failure |
| CrossExaminationDriver.Examine | src/money/crews/cross_examination.py:178-318 | the whole driver never fails at its final seal, and its packet passes both validators |
| CrossExaminationChecks.Seal | src/money/crews/cross_examination.py:108-165 | the deleting replay accepts exactly the coherent packets |
| CrossExaminationChecks.Recheck | apps/web/components/cross-examination.tsx:66-105 | the seen-set replay accepts exactly the coherent packets whose original claims stay inside their challenges |
| CrossExaminationChecks.UnresolvedIsHonest | src/money/crews/cross_examination.py:108-165 | in an accepted packet a challenge is listed as unresolved exactly when no exchange of any round resolved it |
| CrossExaminationChecks.LeftWasNeverResolved | src/money/crews/cross_examination.py:130-165 | what sound rounds leave is exactly what no exchange resolved |
| CrossExaminationChecks.BrowserIsStricter | apps/web/components/cross-examination.tsx:66-105 | a packet that the seal accepts and the browser rejects |
| Drawdown.Measure | src/money/backtest/study.py:131-137 | the running-peak loop computes the specified drawdown |
| Drawdown.DrawdownIsLargestFall | src/money/backtest/study.py:131-137 | it is attained by some ordered pair of instants and bounds the fall of every such pair |
| Drawdown.DrawdownIsFraction | src/money/backtest/study.py:131-137 | it lies in [0, 1] even when returns are below -100% |
| Drawdown.LowerReturnsFallFurther | src/money/backtest/study.py:131-137 | pointwise lower returns never have a smaller drawdown |
| StudyReport.CostOnlyShiftsReturns | src/money/backtest/study.py:53-128 | changing only the cost keeps the same cases and shifts every return by the same amount |
| StudyReport.CostNeverHidesDrawdown | src/money/backtest/study.py:117-137 | raising the round-trip cost never lowers the reported drawdown |
| Study.Atr14 | src/money/backtest/study.py:17-35 | the array filled in place holds the Wilder average true range at every index |
| Study.NoLookAhead | src/money/backtest/study.py:17-98 | histories that agree before an index and in its open make the same decision there, with the same levels and regime |
| StudyReport.CasesKnowNoFuture | src/money/backtest/study.py:17-128 | histories that agree before a bar have the same cases, number by number, among those whose windows end by it |
| StudyCases.WindowIsCalendarHorizon | src/money/backtest/study.py:96-100 | the bisected window is non-empty and holds exactly the bars inside the calendar horizon |
| StudyCases.WindowsDisjointIff | src/money/backtest/study.py:96-100 | a window ends before a later bar if and only if that bar lies past the horizon |
| StudyReport.CaseWindowsDisjointIff | src/money/backtest/study.py:52-100 | the windows of two measured cases are disjoint if and only if the later one starts past the calendar horizon of the earlier |
| StudyExample.CasesCanOverlap | src/money/backtest/study.py:52-100 | a history with distinct dates whose first two measured cases have overlapping windows |
| StudyReport.CaseWindowsDisjoint | src/money/backtest/study.py:52-100 | with bars at least a day apart the windows of distinct cases are non-empty and disjoint |
| StudyCases.Observe | src/money/backtest/study.py:104-116 | the window loop finds the first touch, invalidation before target on the same day |
| StudyCases.ExitIsConservative | src/money/backtest/study.py:96-117 | the outcome is at most that of every intraday path the daily bars could summarise |
| StudyReport.RecordIsConservative | src/money/backtest/study.py:96-128 | so is every recorded result before costs, with the levels decided for its case |
| StudyCases.ExitWithinExcursions | src/money/backtest/study.py:96-117 | at most one level day is set, it lies in the horizon, and the excursions enclose the outcome and zero |
| StudyReport.CasesAreSound | src/money/backtest/study.py:53-128 | the same bounds hold for every recorded case |
| StudyReport.MeasureCases | src/money/backtest/study.py:53-128 | the stepping loop appends exactly the specified cases |
| StudyReport.FoldsPartition | src/money/backtest/study.py:138-146 | the three folds are consecutive, cover every return once and differ in size by at most one |
| StudyReport.Variations | src/money/backtest/study.py:163-190 | all six neighbouring parameter sets are accepted whenever the base set is |
| StudyReport.RunEvaluation | src/money/backtest/study.py:38-160 | one evaluation yields the specified report or refusal |
| StudyReport.RunStudy | src/money/backtest/study.py:163-204 | the base run and its six sensitivity runs yield the specified report, none of the six being refused |
| LeanVerdict.StudyMeetsContract | src/money/backtest/lean.py:145-193 | every study result meets the engine-result schema bounds and consistency rules |
| LeanVerdict.SampleCoversFolds | src/money/backtest/lean.py:412-488 | thirty observations already give every fold its minimum |
| LeanVerdict.ScanRaisesIff | src/money/backtest/lean.py:412-488 | the sensitivity scan raises exactly when a run without a mean precedes every failing run |
| LeanVerdict.VerdictRaisesIff | src/money/backtest/lean.py:412-488 | on validated results the verdict raises exactly then, once all earlier controls hold |
| LeanVerdict.ValidatedResultCanRaise | src/money/backtest/lean.py:412-488 | a validated result on which the verdict raises |
| LeanVerdict.RepeatedRegimeCanPass | src/money/backtest/lean.py:427-462 | a validated result that passes with one regime listed twice |
| LeanVerdict.PassNamesBothIff | src/money/backtest/lean.py:427-462 | a PASS names both regimes if and only if its list has two distinct entries |
| LeanVerdict.CoveredStudyShowsBoth | src/money/backtest/study.py:157 | a covered study result has cases of both regimes |
| LeanVerdict.StudyVerdictDecides | src/money/backtest/lean.py:412-488 | on study results the verdict never compares a missing mean |
| LeanVerdict.PassIff | src/money/backtest/lean.py:412-488 | PASS is exactly a qualified, covered study with positive means and bounded drawdown, and meets what the adapter and the audit demand |
| EmailOutbox.Table.Claim | src/money/accounts/email_worker.py:48-114 | sweeps, then leases the oldest claimable row, whose account is not closing; nothing exactly when none is claimable; finished rows never change |
| EmailOutbox.PickOldest | src/money/accounts/email_worker.py:84-98 | the oldest claimable row, or none exactly when none is claimable |
| EmailOutbox.Table.Complete | src/money/accounts/email_worker.py:167-189 | without the unexpired lease nothing changes, other rows and finished rows never do, and the lease is given up, so no second completion under it can change anything |
| EmailOutbox.Reachable | src/money/accounts/email_worker.py:48-190 | the outbox invariant holds after every run with crashes, closures and erasures |
| EmailOutbox.OneUnexpiredLease | src/money/accounts/email_worker.py:84-114 | of all leases ever handed out for a row, including those of crashed holders, at most one has neither run out nor been completed |
| EmailOutbox.LostForever | src/money/accounts/email_worker.py:152-190 | a worker whose lease expired or was taken over never changes the table again |
| EmailOutbox.TerminalForever | src/money/accounts/email_worker.py:53-114 | DELIVERED, FAILED and CANCELLED are absorbing |
| EmailOutbox.DeliveredWasAccepted | src/money/accounts/email_worker.py:152-190 | a DELIVERED row was accepted by the mail provider |
| EmailOutbox.AtMostFiveCalls | src/money/accounts/email_worker.py:72-114 | the log of provider calls has at most five entries for any row, each under a lease, and a lease that has seen its call never sees another |
| EmailOutbox.ClaimsAreBounded | src/money/accounts/email_worker.py:72-114 | at most five leases per enqueued row are ever handed out, and each claim uses one up |
| EmailOutbox.IdleIff | src/money/accounts/email_worker.py:72-114 | a claim finds nothing exactly when every row is terminal, not due or under an unexpired lease |
| EmailOutbox.RetryWaits | src/money/accounts/email_worker.py:167-189 | after attempt k is requeued the next attempt is at least 30 * 2^k seconds later |
| EmailOutbox.ClosingNeverClaimed | src/money/accounts/email_worker.py:53-71 | after an account starts closing no later claim hands out one of its rows |
| EmailOutbox.DepartedAddressIff | src/money/accounts/offboarding.py:182-192 | from the commit of a departure no row to that address is handed out while the address stays closed, if and only if no row to it by another open account was being sent then with attempts to spare |
| EmailOutbox.DepartedAddressCanBeMailed | src/money/accounts/email_worker.py:53-114 | a run in which a row to the address of a closing account is handed out again |
| AccountMail.WorldsAgree | src/money/accounts/service.py:90-151 | over every course of both machines the outbox and the account tables agree on who is leaving and to which addresses mail is held back |
| AccountMail.DeletionIsFinal | src/money/accounts/offboarding.py:165-201 | end to end: after a departure nothing of the account is ever usable, and no later event hands a mail worker one of its rows |
| AccountMail.AddressIsFinal | src/money/accounts/offboarding.py:182-192 | an address left quiet by a departure stays quiet, and no row to it is handed out, until somebody registers it anew |
| AccountMail.DepartureIsQuietIff | src/money/accounts/offboarding.py:182-192 | a departure leaves its address quiet if and only if no row to it by another open account is being sent with attempts to spare |
| AlertOutbox.Outbox.Enqueue | src/money/alerts/delivery.py:36-75 | every existing row is untouched; success means exactly one row for the event, refusal means no change |
| AlertOutbox.Outbox.Claim | src/money/alerts/delivery.py:77-131 | takes the first eligible alert of the batch, or changes nothing when none is eligible |
| AlertOutbox.Outbox.Complete | src/money/alerts/delivery.py:143-160 | without the row's latest token nothing changes; with it that row alone is decided, delivered exactly on success |
| AlertOutbox.Reachable | src/money/alerts/delivery.py:36-161 | the alert invariant holds after every run |
| AlertOutbox.EnqueueIsIdempotent | src/money/alerts/delivery.py:36-75 | enqueueing an event again at any later time changes nothing |
| AlertOutbox.AtMostThreeCalls | src/money/alerts/delivery.py:77-131 | the log of provider calls has at most three entries for any alert, each under a lease and with idempotency support, and a lease that has seen its call never sees another |
| AlertOutbox.SupersededForever | src/money/alerts/delivery.py:143-160 | a superseded delivery token never changes the row |
| AlertOutbox.DeliveredForever | src/money/alerts/delivery.py:77-161 | DELIVERED is absorbing |
| AlertOutbox.DeliveredIsReal | src/money/alerts/delivery.py:77-161 | a DELIVERED alert is a web alert or had a successful provider call |
| LiveEligibility.BuildIndex | src/money/data/live_eligibility.py:91-96 | an index is built exactly when every ticker is present, non-empty and unique, and it holds exactly the rows |
| LiveEligibility.LookupIsScan | src/money/data/live_eligibility.py:112-132 | looking a review up in the index finds what a scan of the rows finds |
| LiveEligibility.Service.Refresh | src/money/data/live_eligibility.py:85-97 | fresh rows are kept, otherwise the cache holds the new answer or nothing |
| LiveEligibility.Service.Verify | src/money/data/live_eligibility.py:112-132 | the loop yields the uncached join of rows and currently valid reviews |
| LiveEligibility.Service.Adapter | src/money/data/live_eligibility.py:80-133 | one locked call serves, fails and caches as specified |
| LiveEligibility.CacheComesFromAFetch | src/money/data/live_eligibility.py:85-97 | after any calls, cached rows are the broker's answer to one of them that found nothing fresh and therefore asked |
| LiveEligibility.SuccessIsRecentJoin | src/money/data/live_eligibility.py:80-133 | for any calls and any clock, a success is exactly the join with rows that a call really fetched less than one interval before |
| LiveEligibility.SucceedsIff | src/money/data/live_eligibility.py:80-133 | exactly when a call succeeds |
| LiveEligibility.NoSuccessUntilFetched | src/money/data/live_eligibility.py:85-110 | after a failed refresh or a stale reading, a later success implies that some call in between, or itself, found nothing fresh, asked the broker and got usable rows |
| Isin.ExactlyOneCheckDigit | src/money/data/identifiers.py:37-43 | every well-shaped prefix has exactly one accepted check digit |
| Isin.SubstitutionRejected | src/money/data/identifiers.py:37-43 | replacing any one digit by another is rejected, whatever letters expand around it |
| Isin.SwapRejectedUnlessZeroNine | src/money/data/identifiers.py:37-43 | swapping different adjacent digits is accepted if and only if they are 0 and 9 |
| Isin.SwapCanGoUnnoticed | src/money/data/identifiers.py:37-43 | a valid identifier that stays valid when its adjacent 0 and 9 are swapped |

## Left out

- Password hashing, encryption, token randomness, mail and payment transport: injective functions or arbitrary replies here.
- Rate limits, audit rows, message texts, links, exports, display names and notification preferences, and lists of sessions, members and workspaces.
- Lock mechanics and busy errors: a transaction either takes effect as a whole or not at all.
- A phase-one refusal, such as a wrong password or an unverified address at login, changes no table and is not an action.
- Subscription rows and billing events are arguments of each transaction, not tables; a closing attempt's write to the subscription status is not modelled.
- Which mail an account transaction queues: in the combined system senders queue mail at any time, subject to the same suppression.
- Legacy rows without a recipient hash are one yes-or-no condition of erasure; their indexing is not modelled.
- AlertOutbox.Outbox.Complete: does not promise that a DELIVERED alert never changes, because the source keeps its token and a second completion by the last holder would be recorded; over runs, where a holder completes once, `DeliveredForever` does.
- A FAILED or BLOCKED alert being final: a late completion by the last holder may still record a result, so only DELIVERED is claimed to be absorbing.
- String-length and list-length limits of packets, the difference between null and absent fields in raw JSON, and the packet's own content hash.
- Binary floating point and decimal rounding, except the floor and ceiling to six places that the scenario bands need.
- Eligibility rules themselves: an arbitrary predicate of metadata and time.
- Job leasing, backtest containers, source attestation, web components and command-line glue.
