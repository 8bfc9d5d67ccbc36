# Verification model of the quest platform

The repository runs quests with token rewards on two Soroban contracts that share a
domain but make different promises, and serves them through a backend. This project
models their stateful cores and proves what every run of them keeps.

- **The contract that pays on approval** (`Contract/earn-quest`, modules `Instant…`): one
  escrow balance for each quest, a participant limit, one submission for each user and
  quest, payment in the approving transaction, reputation, and a multi-signature pause.
- **The contract with a claim step** (`contracts/earn-quest`, modules `Claim…`): an escrow
  record with three running totals, approval (in practice in batches) and claim as two
  transactions, paginated listings, an emergency pause lifted by quorum, rounds and
  timelock, and an event log.
- **The quest read cache** of the backend (modules `Cache…` and `QueryKey`): `QuestsService`
  over `CacheService` with its primary store, key registry and fallback store, and the JSON
  text of a query as its key.
- **The connection index and rate limiter** of the WebSocket service (modules `Socket…` and
  `RateLimit`).

## How it is built

Each contract has a specification module: the ordered checks of an entry point as a
function to an outcome, its effect on the whole state and, for the second contract, the
events it appends. `Next` is one transaction as the host runs it: all of the effect
when every check passes, nothing otherwise. `Run` is any sequence of transactions,
accepted and rejected, mixed with time passing and with others moving and issuing tokens.
The theorems are about `Run`.

Beside it stands the contract as a class that does what the source does, step by step:
reads, guards, stores, loops, transfers in between, and the host's rollback. Each entry
point is proved to answer with exactly the first failing check and to leave exactly the
state of `Next`. So the theorems about runs hold for the step-by-step code. The backend
services have the same two layers.

What the specifications say is stated once more without their words. The `…Story` modules
count and order the accepted calls of a run and prove that every stored record is what these
calls say: a quest's status is the one last set, a submission's the one last decided, and so
on. The `…Acceptance` modules, `CacheWrites` and the listing lemmas of `ClaimQueries` say, on
storage, clock and earlier calls alone, exactly which calls are accepted and what they leave;
the lemmas named `ErrorsTellTheTruth`, what a refusal proves.

`Sums` holds sums over maps, `Tokens` the external token ledger, `Prelude` the shared
result types, integer widths and addresses. Lemmas over runs and other sequences switch
automatic induction off and do their own.

## What the code does where its documentation says something else

First contract:

- A submission after the deadline marks the quest expired and then fails, so the mark is
  rolled back: the quest stays active, and the caller sees "not active", never "expired"
  (`InstantStatus.SubmissionNeverExpires`).
- Expiring tests no deadline, and a cancelled quest can be expired. Terminal is permanent,
  the terminal status is not (`InstantStatus.CancelledThenExpired` gives a run,
  `InstantStatus.TerminalChangesIff` the exact condition).
- The grace period of the emergency withdrawal closes nothing: the plain withdrawal has no
  pause test and pays the same (`InstantExit.ClosedWindowStopsNobody` gives a run,
  `InstantExit.ExitsDifferIff` and `InstantExit.PauseNeverStopsWithdrawal` the general facts).
- The level is announced as a square root; it is linear in the experience, and the two
  agree exactly below 200 (`InstantStatus.LevelIsRootIff`).

Second contract:

- The single approval demands a verifier equal to the quest's and distinct from it. It
  always fails; only the batch approves (`ClaimBatch.SingleApprovalNeverSucceeds`).
- A new proof replaces any submission, a paid one included, so a reward can be claimed again.
  `ClaimWitness.PaidTwice` gives a run, `ClaimLifecycle.ClaimsCounted` the exact number of
  claims over every run.
- Approval reserves nothing. Two approvals can pass on one remaining reward
  (`ClaimWitness.ApprovedButNotPayable`); `ClaimLedger.ClaimSucceedsIff` says exactly which
  approved submissions are payable.
- A quest without an escrow record is paid from the contract's whole balance, which can make
  another creator's refund fail (`ClaimWitness.RefundCanFail`). `ClaimLedger.RefundSucceedsIff`
  says exactly when a refund goes through, `ClaimLedger.CoveredIff` when the escrows of an
  asset are covered, and `ClaimRefunds.CoveredIffAllRefundable` that this is what it takes
  for all of them to be refunded.
- No entry point completes a quest, and cancelling and expiring already refund, so
  withdrawing the unclaimed rest fails in every reachable state (`ClaimLifecycle.NothingToWithdraw`).
- The approvals that lift a pause may all date from before it, even from an admin removed
  since (`ClaimWitness.QuorumMayPredatePause`). They were all given during it exactly when the
  approval counter was zero as it began (`ClaimQuorum.QuorumGivenDuringPauseIff`), and
  `ClaimQuorum.ApproversStillAdminsIff` says when all are still admins.
- After 2^32 - 1 unpauses the round stops counting and approvals in it are never forgotten
  (`ClaimPause.LastRoundIsForever`; `ClaimWitness.LastRoundLocksOut` gives a run), while the
  quorum itself stays sound (`ClaimPause.UnpauseSafety`).

- The emergency withdrawal answers "paused" exactly when the contract is not paused
  (`ClaimErrors.ErrorsTellTheTruth`, `ClaimAcceptance.EmergencyWithdrawSucceedsIff`).

Backend:

- The statuses a request may carry are lower-case, the table of transitions is in capitals.
  No update that passes validation ever changes a quest's status
  (`CacheWrites.DeclaredStatusNeverMoves`).
- The fallback store multiplies a lifetime given in milliseconds by a thousand once more
  (`CacheCoherence.FallbackOutlivesLifetime`).
- The limiter of 60 messages in 60 seconds lets up to 119 through in some 60 seconds and never
  120 (`RateLimit.SpanBound`, `RateLimit.SpanBoundIsTight`); `RateLimit.AnnouncedBoundIff` says
  in which spans it keeps to 60.
- A write whose deletion fails leaves stale reads (`CacheFaults.StaleReadReached` gives a run,
  `CacheCoherence.StaleQuestExactly` and `CacheCoherence.StaleListingExactly` the exact
  conditions), but for the keys it failed for alone (`CacheFaults.FaultsStayLocal`). So does
  a restart, with nothing failing (`CacheFaults.StaleAfterRestartReached`,
  `CacheFaults.StaleAfterRestartExactly`).
- A deletion the primary store fails to carry out also forgets the key
  (`CacheCoherence.FailedDeleteForgets`), and a listing forgotten this way survives all later
  invalidations (`CacheCoherence.ForgottenListingStays`).

## Assumptions

- The host runs a transaction atomically and rolls everything back when it fails. Both Cargo
  profiles turn overflow checks on, so an overflow is a failed transaction.
- Ledger time never decreases. A signature is membership in the transaction's signer set, and
  the contract never signs for itself.
- Token contracts are honest ledgers of balances between 0 and the i128 maximum. Anybody may
  send tokens to the contract at any time.
- For the cache: calls run one after the other, and the service is the only writer of the table
  and of the keys it uses. A query's answer is a function of the table and the query. The
  numbers of a query stand as their JSON text. Lost entries, failed reads and failed sets of the
  primary store are part of the model; failed deletions, a throw between saving and
  invalidating and a restart are faults, whose exact consequences are proved separately.

## Model

| member | source | states |
|---|---|---|
| `InstantRuns.Solvency` | Contract/earn-quest/src/escrow.rs:9-109 | Over every run and for every asset the contract's token balance is what was donated plus all escrow balances of quests in that asset |
| `InstantRuns.EscrowIsBacked` | Contract/earn-quest/src/escrow.rs:45-109 | A payout or withdrawal within an escrow balance can fail only on the receiver's balance limit, and no accepted deposit overflows the balance |
| `InstantRuns.QuestLedger` | Contract/earn-quest/src/escrow.rs:35-103 | For every quest and run: deposits = balance left + reward times claims + withdrawals, the balance never negative |
| `InstantIncome.IncomeIsEarned` | Contract/earn-quest/src/escrow.rs:58-76 | What a user's wallet gains from quest calls over any run is the sum of rewards of exactly the quests whose submission of theirs is paid |
| `InstantIncome.OutlayIsStake` | Contract/earn-quest/src/escrow.rs:9-109 | What a creator's wallet has paid net of withdrawals is what its quests hold in escrow plus what they paid in rewards |
| `InstantRuns.PaidOnce` | Contract/earn-quest/src/submission.rs:28-101 | Over any run a user is paid for a quest at most once, and exactly when the submission ends up paid |
| `InstantRuns.ClaimsArePaidSubmissions` | Contract/earn-quest/src/submission.rs:86-97 | The claim counter is the number of paid submissions of the quest, within the participant limit; no submission rests as merely approved |
| `InstantRuns.EvolvesRun` | Contract/earn-quest/src/submission.rs:52-141 | Along every run terms stay fixed, a terminal status stays but for cancelled becoming expired, decided submissions stay as decided, experience and level never fall |
| `InstantStatus.TerminalChangesIff` | Contract/earn-quest/src/quest.rs:149-179 | A terminal status changes exactly when the creator of a cancelled quest expires it, and then to expired |
| `InstantStatus.CancelledThenExpired` | Contract/earn-quest/src/quest.rs:149-179 | A run in which a quest is cancelled and then expired before its deadline |
| `InstantStatus.SubmissionNeverExpires` | Contract/earn-quest/src/submission.rs:22-25 | A submission, late or not, changes no quest and is never refused as expired; an accepted one is for an active quest before its deadline |
| `InstantStatus.LevelIsRootIff` | Contract/earn-quest/src/reputation.rs:38-46 | The level is the announced integer root exactly below 200 experience |
| `InstantRuns.ApproveSucceedsIff` | Contract/earn-quest/src/lib.rs:102-131 | In every reachable state, exactly when the approval of a pending submission goes through with its payment; a lack of tokens is not among the conditions |
| `InstantRuns.ReputationMatchesClaims` | Contract/earn-quest/src/reputation.rs:9-46 | Completions summed over users equal claims summed over quests; experience and level follow from a user's completions |
| `InstantExit.WithdrawSucceedsIff` | Contract/earn-quest/src/escrow.rs:80-109 | In every reachable state, exactly when a creator gets an escrow back the plain way: signed, own terminal quest, something left, own balance limit; no pause and no lack of tokens among the conditions |
| `InstantExit.ExitsDifferIff` | Contract/earn-quest/src/lib.rs:356-364 | In every reachable state the plain and the emergency withdrawal differ exactly when the plain one succeeds and the window, in terms of the clock, is closed |
| `InstantExit.PauseNeverStopsWithdrawal` | Contract/earn-quest/src/escrow.rs:80-109 | Whatever sequence of administrative and pause calls comes in between, a plain withdrawal gets the same answer and moves the same money |
| `InstantExit.ClosedWindowStopsNobody` | Contract/earn-quest/src/pausable.rs:114-126 | A run after which the emergency withdrawal is refused as closed while the plain one pays everything out |
| `InstantInvariant.InvStep` | Contract/earn-quest/src/lib.rs:102-131 | Every transaction keeps the books (claims, submissions, statistics) and the solvency of every asset |
| `InstantInvariant.SurplusStep` | Contract/earn-quest/src/escrow.rs:24-103 | A transaction changes balance minus escrows by exactly what it donates |
| `InstantPause.PauseTimeline` | Contract/earn-quest/src/pausable.rs:129-164 | In every reachable state signers are distinct, and a marked pause has a signer and times in clock order |
| `InstantPause.PauseTestsAgree` | Contract/earn-quest/src/pausable.rs:71-111 | The two copies of the pause test agree, and differ only before the pause is configured |
| `InstantPause.PauseFreezesClaims` | Contract/earn-quest/src/pausable.rs:88-111 | A pause in force stays in force, and no quest, submission, claim, payment or experience is added, nor a statistics entry, until a call that takes the admin's signature lifts it |
| `InstantPause.PauseNeedsSignatures` | Contract/earn-quest/src/pausable.rs:129-164 | A pause becomes marked only by the request that brings distinct signers to the required number |
| `InstantStory.QuestsAreToldByCalls` | Contract/earn-quest/src/quest.rs:9-219 | In every reachable state a quest is stored exactly when a registration of it was accepted, with those terms; its claims are the number of accepted approvals, its status the one last given: by hand, by expiry, by cancellation, or completed by the approval that fills it while active |
| `InstantStory.SubmissionsAreToldByCalls` | Contract/earn-quest/src/submission.rs:9-141 | A submission is stored exactly when a proof was accepted, with that proof and its time; it is pending until its approval makes it paid or its rejection rejected |
| `InstantStory.ReputationIsToldByCalls` | Contract/earn-quest/src/reputation.rs:9-77 | A user has statistics exactly after an accepted approval: 100 points and a level for each, and the granted badges in order, each once |
| `InstantStory.AdminIsToldByCalls` | Contract/earn-quest/src/init.rs:32-101 | The administrator is always the one last named by initialisation or reconfiguration |
| `InstantStory.PauseIsToldByCalls` | Contract/earn-quest/src/pausable.rs:44-304 | Signers, mark, clock, delay, required signatures and grace period are in every reachable state what the accepted requests, cancellations, unpauses and settings since made them |
| `InstantAcceptance.RegisterSucceedsIff` | Contract/earn-quest/src/quest.rs:9-63 | Exactly when a registration is accepted, and the quest it stores, field by field |
| `InstantAcceptance.StatusChangeSucceedsIff` | Contract/earn-quest/src/quest.rs:71-219 | Exactly from which statuses the creator may set, cancel or expire |
| `InstantAcceptance.StatusChangeSets` | Contract/earn-quest/src/quest.rs:71-219 | The status left is the one given, cancelled or expired, and nothing else changes |
| `InstantAcceptance.SubmitSucceedsIff` | Contract/earn-quest/src/submission.rs:9-49 | Exactly when a proof is accepted: active, not late, a place left, none sent before; and the submission it stores |
| `InstantAcceptance.ApproveOutcome` | Contract/earn-quest/src/lib.rs:102-131 | In every reachable state an accepted approval moves the reward from the escrow balance and the contract to the submitter, marks the submission paid, adds the claim, completes an active quest it fills and adds 100 points |
| `InstantAcceptance.RejectSucceedsIff` | Contract/earn-quest/src/submission.rs:104-141 | Exactly when a rejection is accepted, paused or not; the submission is then rejected and nothing else has changed |
| `InstantAcceptance.RejectIsFinal` | Contract/earn-quest/src/submission.rs:52-141 | In every run after a rejection the submission stays rejected and is never paid |
| `InstantAcceptance.DepositSucceedsIff` | Contract/earn-quest/src/escrow.rs:9-42 | In every reachable state, exactly when a deposit is accepted; no overflow of the escrow balance is among the conditions |
| `InstantAcceptance.EscrowOutcome` | Contract/earn-quest/src/escrow.rs:9-109 | A deposit moves its amount, a withdrawal the whole balance, between the creator's and the contract's tokens and the escrow balance alike |
| `InstantAcceptance.BadgeSucceedsIff` | Contract/earn-quest/src/reputation.rs:49-77 | Over every run, a badge takes the administrator last named and a user with an approved submission |
| `InstantAcceptance.ControlSucceedsIff` | Contract/earn-quest/src/pausable.rs:44-304 | Over every run, exactly which administrative calls are accepted, in terms of the earlier accepted calls |
| `InstantAcceptance.ErrorsTellTheTruth` | Contract/earn-quest/src/errors.rs:6-50 | A refused call changes nothing, and what its error says is the case, for every call and error; a trap means a missing signature, an overflow or a payment the tokens refuse |
| `InstantContract.EarnQuest.RegisterQuest` | Contract/earn-quest/src/quest.rs:9-63 | Answers with the first failing check; state as one transaction of the specification |
| `InstantContract.EarnQuest.UpdateQuestStatus` | Contract/earn-quest/src/quest.rs:71-105 | As above, for a creator's change of status |
| `InstantContract.EarnQuest.ExpireQuest` | Contract/earn-quest/src/quest.rs:149-179 | As above; no deadline test, cancelled quests included |
| `InstantContract.EarnQuest.CancelQuest` | Contract/earn-quest/src/quest.rs:196-219 | As above, for cancelling |
| `InstantContract.EarnQuest.AutoExpireIfLate` | Contract/earn-quest/src/quest.rs:182-193 | An active quest past its deadline becomes expired, nothing else changes |
| `InstantContract.EarnQuest.AutoCompleteIfFull` | Contract/earn-quest/src/quest.rs:108-119 | A full active quest becomes completed, nothing else changes |
| `InstantContract.EarnQuest.SubmitProof` | Contract/earn-quest/src/submission.rs:9-49 | One submission for each quest and user, before the deadline, while there is room; a failed call leaves everything, the automatic expiry included, as it was |
| `InstantContract.EarnQuest.ApproveSubmission` | Contract/earn-quest/src/lib.rs:102-131 | Approval, claim count, payout, payment mark and experience in one transaction, all or nothing |
| `InstantContract.EarnQuest.ApproveAndCount` | Contract/earn-quest/src/submission.rs:52-101 | The approval half: submission approved, claim counted, quest completed when full |
| `InstantContract.EarnQuest.RejectSubmission` | Contract/earn-quest/src/submission.rs:104-141 | Passes exactly for the verifier of a pending submission, which is then rejected; nothing else changes, and nothing at all on failure |
| `InstantContract.EarnQuest.AwardXp` | Contract/earn-quest/src/reputation.rs:9-36 | Any amount of experience, with level and completions, or a trap on overflow |
| `InstantContract.EarnQuest.GrantBadge` | Contract/earn-quest/src/reputation.rs:49-77 | Answers and acts as one transaction of the specification |
| `InstantContract.EarnQuest.DepositEscrow` | Contract/earn-quest/src/escrow.rs:9-42 | As above: tokens from the creator and the balance raised by the same amount |
| `InstantContract.EarnQuest.ValidateEscrowSufficient` | Contract/earn-quest/src/escrow.rs:45-55 | Passes exactly when the balance covers the requirement |
| `InstantContract.EarnQuest.ProcessPayout` | Contract/earn-quest/src/escrow.rs:58-76 | Missing quest, short escrow or failing transfer answered in order; else balance and tokens move by the reward |
| `InstantContract.EarnQuest.WithdrawUnclaimed` | Contract/earn-quest/src/escrow.rs:80-109 | Returns the whole balance of a terminal quest to its creator, or the first failing check |
| `InstantContract.EarnQuest.EmergencyWithdraw` | Contract/earn-quest/src/lib.rs:356-364 | The same behind the grace-window test |
| `InstantContract.EarnQuest.RequireNotPaused` | Contract/earn-quest/src/pausable.rs:88-111 | The guard of the specification |
| `InstantContract.EarnQuest.IsPaused` | Contract/earn-quest/src/pausable.rs:71-85 | The query copy of the test |
| `InstantContract.EarnQuest.IsWithdrawalAllowed` | Contract/earn-quest/src/pausable.rs:114-126 | Allowed exactly when not paused or before the end of the grace period |
| `InstantContract.EarnQuest.Initialize` | Contract/earn-quest/src/init.rs:32-55 | Once only, with the first admin |
| `InstantContract.EarnQuest.UpdateConfig` | Contract/earn-quest/src/init.rs:80-101 | Answers and acts as one transaction of the specification |
| `InstantContract.EarnQuest.InitializePause` | Contract/earn-quest/src/pausable.rs:44-63 | As above; may be called again and then clears the pause |
| `InstantContract.EarnQuest.RequestPause` | Contract/earn-quest/src/pausable.rs:129-164 | As above: one more distinct signer, the clock started by the first, the pause marked at the quorum |
| `InstantContract.EarnQuest.CancelPauseRequest` | Contract/earn-quest/src/pausable.rs:167-189 | As above |
| `InstantContract.EarnQuest.UnpauseContract` | Contract/earn-quest/src/pausable.rs:192-221 | As above |
| `InstantContract.EarnQuest.UpdatePauseConfig` | Contract/earn-quest/src/pausable.rs:274-304 | As above |
| `ClaimLedger.PooledLedger` | contracts/earn-quest/src/payout.rs:65-88 | For every run and asset: balance + rewards of quests without escrow + emergency withdrawals = donations + what all escrows still hold |
| `ClaimLedger.PoolStep` | contracts/earn-quest/src/escrow.rs:32-214 | Each transaction keeps that equation |
| `ClaimLedger.CoveredIff` | contracts/earn-quest/src/payout.rs:72-85 | The escrows in an asset are covered exactly when those two outflows stay within the donations |
| `ClaimLedger.CoveredEscrowsPay` | contracts/earn-quest/src/escrow.rs:184-214 | When covered, no transfer within what an escrow has available fails for want of tokens |
| `ClaimLedger.ClaimSucceedsIff` | contracts/earn-quest/src/lib.rs:185-218 | In every reachable state, exactly which approved submissions can be claimed, with or without an escrow, covered or not |
| `ClaimLedger.CoveredClaimSucceedsIff` | contracts/earn-quest/src/lib.rs:185-218 | Where the asset is covered, an open escrow that still holds the reward is enough |
| `ClaimLedger.RefundSucceedsIff` | contracts/earn-quest/src/escrow.rs:184-214 | In every reachable state a refund goes through exactly when the contract holds what is left in the escrow and the creator can take it |
| `ClaimLedger.CoveredRefundSucceedsIff` | contracts/earn-quest/src/escrow.rs:184-214 | Where the asset is covered, only the creator's own balance limit can stop it |
| `ClaimRefunds.CoveredIffAllRefundable` | contracts/earn-quest/src/escrow.rs:184-260 | While not paused, and up to the token's balance limit, all open escrows of an asset can be cancelled and refunded one after another, in any order, exactly when the asset is covered |
| `ClaimLedger.EscrowArithmeticNeverOverflows` | contracts/earn-quest/src/escrow.rs:92-161 | In every reachable state paid + refunded <= deposited <= 10^15 times deposits, paid <= reward times claims, claims <= 10000; no operation on the totals overflows |
| `ClaimIncome.IncomeIsEarned` | contracts/earn-quest/src/payout.rs:13-88 | What a user's wallet gains from quest calls over any run is, over the quests, the reward times the number of that user's claims |
| `ClaimIncome.OutlayIsStake` | contracts/earn-quest/src/escrow.rs:32-214 | What a creator's wallet has paid net of refunds is what its escrows record as deposited and not refunded |
| `ClaimLifecycle.TerminalIsSettled` | contracts/earn-quest/src/escrow.rs:184-311 | A terminal quest's escrow is inactive with deposited = paid + refunded, and is its creator's and in its asset |
| `ClaimLifecycle.SettlementIsFinal` | contracts/earn-quest/src/escrow.rs:45-90 | No later call changes a terminal quest's status or escrow, or opens an escrow for it |
| `ClaimLifecycle.NothingToWithdraw` | contracts/earn-quest/src/escrow.rs:328-354 | Withdrawing the unclaimed rest fails in every state that keeps the invariant, with which error |
| `ClaimLifecycle.EndsOnce` | contracts/earn-quest/src/escrow.rs:231-311 | A quest is ended, and its creator refunded, at most once in any run |
| `ClaimLifecycle.EvolvesRun` | contracts/earn-quest/src/validation.rs:209-225 | Along every run terms are fixed, totals and claims only grow, terminal quests stay as they are, reputation never falls |
| `ClaimLifecycle.PaidStep` | contracts/earn-quest/src/submission.rs:29-37 | A submission becomes paid exactly by an accepted claim and stops being paid exactly by an accepted new proof |
| `ClaimLifecycle.ClaimsCounted` | contracts/earn-quest/src/submission.rs:29-37 | Claims of a user on a quest = replacements of a paid submission + one if it ends up paid |
| `ClaimLifecycle.ReputationMatchesClaims` | contracts/earn-quest/src/reputation.rs:14-48 | Completions summed over users equal claims summed over quests; experience and level follow |
| `ClaimInvariant.InvStep` | contracts/earn-quest/src/lib.rs:185-218 | Every transaction keeps the invariant on quests, index, submissions, escrows and statistics |
| `ClaimBatch.BatchApproval` | contracts/earn-quest/src/submission.rs:140-197 | In any state, a batch passes exactly when it has 1 to 50 distinct items, none the verifier's own, each of a quest of the verifier's with a pending submission and, where there is an escrow, one that is active and holds the reward; then exactly those submissions become approved |
| `ClaimBatch.ApprovalsPassIff` | contracts/earn-quest/src/submission.rs:158-194 | Item-by-item approval passes exactly when every item is approvable at the start, in those terms, and none repeats |
| `ClaimBatch.BatchOrderIrrelevant` | contracts/earn-quest/src/submission.rs:158-194 | Reordering a batch changes neither success nor the resulting quests, submissions, escrows and tokens |
| `ClaimBatch.SingleApprovalNeverSucceeds` | contracts/earn-quest/src/submission.rs:51-91 | The single approval changes nothing, and refuses what the batch accepts |
| `ClaimBatch.RegistrationsPassIff` | contracts/earn-quest/src/quest.rs:78-100 | A batch registers exactly when each item is new, within bounds, before its deadline and verified by another, and no id repeats |
| `ClaimBatch.BatchEqualsSingles` | contracts/earn-quest/src/quest.rs:78-100 | A passing batch does what the single registrations do one after the other, log included |
| `ClaimPause.UnpauseSafety` | contracts/earn-quest/src/security.rs:19-82 | A pause is lifted only by an admin's unpause, after a quorum of distinct approvers at the threshold then in force, each an admin when approving, and after the timelock then in force |
| `ClaimPause.SignersDuringPauseStayAdmins` | contracts/earn-quest/src/lib.rs:56-64 | An approver who signed during the pause is still an admin at the unpause |
| `ClaimQuorum.QuorumGivenDuringPauseIff` | contracts/earn-quest/src/security.rs:32-57 | While a pause stands, everybody counted for lifting it signed during it exactly when the approval counter was zero as it began |
| `ClaimQuorum.ApproversStillAdminsIff` | contracts/earn-quest/src/lib.rs:56-64 | Everybody counted for lifting a pause is still an admin exactly when all those counted as it began are admins then |
| `ClaimQuorum.ApproverBeforeOrDuring` | contracts/earn-quest/src/storage.rs:598-623 | An approver is from before the pause or signed at a step of it, never both |
| `ClaimPause.ScheduleMeaning` | contracts/earn-quest/src/security.rs:47-55 | The scheduled time is always that of the last scheduling approval since the last unpause |
| `ClaimPause.CounterCountsApprovers` | contracts/earn-quest/src/storage.rs:639-717 | In every run the counter is the number of distinct approvers since the last unpause |
| `ClaimPause.CounterMatchesApprovals` | contracts/earn-quest/src/storage.rs:598-693 | For up to 2^32 - 1 unpauses the counter is the number of stored approvals of the round, and no later round has any |
| `ClaimPause.CounterOkLift` | contracts/earn-quest/src/storage.rs:682-693 | Bumping the round clears the approvals below the last round; in the last round exactly when there were none |
| `ClaimPause.LastRoundIsForever` | contracts/earn-quest/src/storage.rs:632-637 | In the last round an approver can never approve again |
| `ClaimWitness.RoundReached` | contracts/earn-quest/src/storage.rs:632-637 | Every round up to the last can be reached from the start |
| `ClaimWitness.LastRoundLocksOut` | contracts/earn-quest/src/storage.rs:598-637 | A run after which the only admin has approved in the last round and no later run lets that admin approve again |
| `ClaimPause.PauseFreezes` | contracts/earn-quest/src/lib.rs:56-300 | While a run stays paused, quests, metadata, submissions, escrows, statistics and admins do not change |
| `ClaimEvents.EventsReplayEscrows` | contracts/earn-quest/src/events.rs:220-269 | After any run the logged deposits, payouts and refunds of a quest sum to its stored totals, and every balance in an event is the sum so far |
| `ClaimStory.QuestsAreToldByCalls` | contracts/earn-quest/src/quest.rs:16-140 | In every reachable state a quest is stored exactly when a single, described or batch registration of it was accepted, with those terms; its claims are the number of accepted claims, its status the one last given by pause, resumption, cancellation or expiry |
| `ClaimStory.SubmissionsAreToldByCalls` | contracts/earn-quest/src/submission.rs:14-197 | A submission holds the last accepted proof and its time; since then it is pending, approved by a batch that names it, or paid by a claim, never rejected |
| `ClaimStory.ReputationIsToldByCalls` | contracts/earn-quest/src/reputation.rs:14-63 | A user has 100 points for each accepted claim, a level more after 3, 6, 10 and 15 of them, and the granted badges in order, each once |
| `ClaimStory.MetadataIsToldByCalls` | contracts/earn-quest/src/quest.rs:62-155 | A quest's metadata is what was last given to it, if anything was |
| `ClaimStory.GovernanceIsToldByCalls` | contracts/earn-quest/src/security.rs:19-143 | Admins are those made so and not removed since; paused is when the last pause or unpause was a pause; threshold and timelock are those last set, 2 and 0 before |
| `ClaimStory.EscrowsAreToldByCalls` | contracts/earn-quest/src/escrow.rs:32-311 | A quest has an escrow exactly from its first accepted deposit on; it has received the sum of the deposits, paid the reward for each claim since, and refunded nothing before the quest ended and all the rest then |
| `ClaimAcceptance.RegisterSucceedsIff` | contracts/earn-quest/src/lib.rs:70-94 | Exactly when a registration is accepted, and the quest, index entry and event it leaves |
| `ClaimAcceptance.RegisterDescribedSucceedsIff` | contracts/earn-quest/src/quest.rs:62-76 | The same with metadata, whose bounds are part of the condition |
| `ClaimAcceptance.RegisterBatchSucceedsIff` | contracts/earn-quest/src/quest.rs:78-100 | A batch registers exactly when it has 1 to 50 items with distinct new ids, rewards within bounds, future deadlines and other verifiers than the creator |
| `ClaimAcceptance.DescribeSucceedsIff` | contracts/earn-quest/src/quest.rs:142-179 | Exactly when metadata may be replaced: by creator or admin, within each bound, whatever the status |
| `ClaimAcceptance.PauseQuestSucceedsIff` | contracts/earn-quest/src/quest.rs:107-120 | An admin pauses exactly an active quest; it is then paused, with its event |
| `ClaimAcceptance.ResumeQuestSucceedsIff` | contracts/earn-quest/src/quest.rs:127-140 | An admin resumes exactly a paused quest; it is then active, with its event |
| `ClaimAcceptance.SubmitSucceedsIff` | contracts/earn-quest/src/submission.rs:14-43 | Exactly when a proof is accepted: active and strictly before the deadline, whatever was submitted before; and the submission it stores |
| `ClaimAcceptance.ItemPassesIff` | contracts/earn-quest/src/submission.rs:158-194 | In every reachable state, which batch items pass: the verifier's own quest, a pending submission and, where there is an escrow, a quest that can still run and a reward within deposits minus payouts minus refunds |
| `ClaimAcceptance.BatchApprovalSucceedsIff` | contracts/earn-quest/src/submission.rs:140-197 | In every reachable state, exactly when a batch approval is accepted, in those terms; exactly its submissions then become approved |
| `ClaimAcceptance.BatchApprovalLogs` | contracts/earn-quest/src/submission.rs:190-194 | An accepted batch logs one approval for each item, in order |
| `ClaimAcceptance.ClaimOutcome` | contracts/earn-quest/src/lib.rs:185-218 | An accepted claim pays the reward from contract to claimant, raises the escrow's paid total where there is one, marks the submission paid and counts the claim |
| `ClaimAcceptance.ClaimLogs` | contracts/earn-quest/src/lib.rs:185-218 | Its events carry the escrow's balance after it, the reward, the experience reached and a level if one is reached |
| `ClaimAcceptance.BadgeSucceedsIff` | contracts/earn-quest/src/reputation.rs:51-63 | Exactly when a badge is granted: by an admin, to a user with fewer than 50 |
| `ClaimAcceptance.DepositSucceedsIff` | contracts/earn-quest/src/escrow.rs:32-102 | In every reachable state, exactly when a deposit is accepted; of the totals only the number of deposits is a limit |
| `ClaimAcceptance.EndSucceedsIff` | contracts/earn-quest/src/escrow.rs:231-311 | In every reachable state, exactly when a quest can be cancelled, and when expired: the deadline included |
| `ClaimAcceptance.EndOutcome` | contracts/earn-quest/src/escrow.rs:184-311 | The quest is then cancelled or expired, its escrow closed, and the creator has what was deposited and not paid |
| `ClaimAcceptance.GovernanceSucceedsIff` | contracts/earn-quest/src/security.rs:19-143 | Exactly when initialisation, adding and removing admins, pausing and the two settings are accepted |
| `ClaimAcceptance.RoundIsToldByCalls` | contracts/earn-quest/src/storage.rs:598-693 | Over every run the stored approvals of the present round are those of the approvers since the last unpause that could change the round |
| `ClaimAcceptance.SchedulesIff` | contracts/earn-quest/src/security.rs:44-55 | An approval schedules the unpause exactly when it brings the approvers since the last unpause to the threshold |
| `ClaimAcceptance.ApproveUnpauseSucceedsIff` | contracts/earn-quest/src/security.rs:32-57 | Over every run, exactly who may approve an unpause |
| `ClaimAcceptance.UnpauseSucceedsIff` | contracts/earn-quest/src/security.rs:60-82 | Over every run, exactly when an unpause goes through: an admin calls, some approval since the last unpause reached the threshold, and the timelock in force at the last such one has passed; the pause is then over, with nothing scheduled |
| `ClaimAcceptance.EmergencyWithdrawSucceedsIff` | contracts/earn-quest/src/security.rs:85-123 | Exactly when an emergency withdrawal goes through, and what it moves |
| `ClaimErrors.ErrorsTellTheTruth` | contracts/earn-quest/src/errors.rs:6-51 | A refused call changes nothing, and what its error says is the case, for every call and error, within batches for some item; a trap means a missing signature or an overflow |
| `ClaimQueries.ListingIsExact` | contracts/earn-quest/src/storage.rs:807-818 | In every reachable state a listing holds each stored quest that matches exactly once and nothing else; what matches is said by the next three |
| `ClaimQueries.ListedByStatus` | contracts/earn-quest/src/quest.rs:192-224 | In every reachable state a quest is in the listing by status exactly when it is stored with that very status |
| `ClaimQueries.ListedByCreator` | contracts/earn-quest/src/quest.rs:226-255 | The same by creator |
| `ClaimQueries.ListedByReward` | contracts/earn-quest/src/quest.rs:261-290 | The same by reward, both ends of the range included |
| `ClaimQueries.PagesConcatenate` | contracts/earn-quest/src/quest.rs:192-224 | Two adjacent pages are the larger page |
| `ClaimQueries.PagesCoverListing` | contracts/earn-quest/src/quest.rs:192-224 | Pages read until past the end give the whole listing |
| `ClaimPages.IndexAppendOnly` | contracts/earn-quest/src/storage.rs:807-818 | No run removes or moves a registered id |
| `ClaimPages.FullPageStays` | contracts/earn-quest/src/quest.rs:226-290 | From any reachable state on, a full page by creator or by reward lists the same quests in the same order for ever |
| `ClaimWitness.PaidTwice` | contracts/earn-quest/src/submission.rs:14-43 | A run in which one user holds twice the reward of the only quest |
| `ClaimWitness.ApprovedButNotPayable` | contracts/earn-quest/src/submission.rs:80-82 | A run with an approved submission whose claim fails for lack of escrow |
| `ClaimWitness.RefundCanFail` | contracts/earn-quest/src/payout.rs:72-85 | A run after which a creator's refund fails for lack of tokens |
| `ClaimWitness.QuorumMayPredatePause` | contracts/earn-quest/src/security.rs:32-57 | A run that unpauses on approvals from before the pause, one by an admin removed since |
| `ClaimContract.EarnQuest.RegisterQuest` | contracts/earn-quest/src/lib.rs:70-94 | Answers with the first failing check; state and log as one transaction of the specification |
| `ClaimContract.EarnQuest.RegisterItem` | contracts/earn-quest/src/quest.rs:16-60 | The storage part: quest stored, id indexed, event logged, or nothing |
| `ClaimContract.EarnQuest.RegisterQuestWithMetadata` | contracts/earn-quest/src/quest.rs:62-76 | Registration and metadata together; a registration whose metadata is refused is rolled back |
| `ClaimContract.EarnQuest.UpdateQuestMetadata` | contracts/earn-quest/src/quest.rs:142-155 | By the creator or any admin, whatever the quest's status |
| `ClaimContract.EarnQuest.ValidateMetadata` | contracts/earn-quest/src/quest.rs:157-179 | The bounds in order, tags and requirements tested one after the other |
| `ClaimContract.EarnQuest.RegisterQuestsBatch` | contracts/earn-quest/src/quest.rs:78-100 | The loop registers all items or, after rollback, none |
| `ClaimContract.EarnQuest.PauseQuest` | contracts/earn-quest/src/quest.rs:107-120 | Answers and acts as one transaction of the specification |
| `ClaimContract.EarnQuest.ResumeQuest` | contracts/earn-quest/src/quest.rs:127-140 | As above |
| `ClaimContract.EarnQuest.SubmitProof` | contracts/earn-quest/src/submission.rs:14-43 | As above; replaces any earlier submission |
| `ClaimContract.EarnQuest.ApproveSubmission` | contracts/earn-quest/src/submission.rs:51-91 | As above; every path fails |
| `ClaimContract.EarnQuest.ApproveSubmissionsBatch` | contracts/earn-quest/src/submission.rs:140-197 | One transaction of the specification, with rollback; passes exactly for a batch in the terms of BatchApproval, and flips exactly its submissions |
| `ClaimContract.EarnQuest.ApproveItems` | contracts/earn-quest/src/submission.rs:158-194 | The loop with the cached quest gives the verdict and state of the approval that always reads storage; passes exactly when all items are approvable at the start, escrow included, and none repeats |
| `ClaimContract.EarnQuest.ValidateClaim` | contracts/earn-quest/src/submission.rs:99-115 | The checks on the submission, in order |
| `ClaimContract.EarnQuest.TransferRewardFromEscrow` | contracts/earn-quest/src/payout.rs:65-88 | Covered, transferred and booked, or paid from the pooled balance where there is no escrow |
| `ClaimContract.EarnQuest.RecordPayout` | contracts/earn-quest/src/escrow.rs:141-165 | Missing, inactive or insufficient escrow answered in order; else the paid total raised and the event carrying the remaining balance |
| `ClaimContract.EarnQuest.ClaimReward` | contracts/earn-quest/src/lib.rs:185-218 | Payment, booking, submission, claim count, experience and events in one transaction, all or nothing |
| `ClaimContract.EarnQuest.AwardXp` | contracts/earn-quest/src/reputation.rs:14-33 | Any amount of experience, with level, completions and their events, or a trap on overflow |
| `ClaimContract.EarnQuest.GrantBadge` | contracts/earn-quest/src/reputation.rs:51-63 | Answers and acts as one transaction of the specification |
| `ClaimContract.EarnQuest.ValidateSufficient` | contracts/earn-quest/src/escrow.rs:111-125 | Missing, inactive, too small, or covered |
| `ClaimContract.EarnQuest.DepositEscrow` | contracts/earn-quest/src/escrow.rs:32-102 | Answers and acts as one transaction; a transfer before a failing step is rolled back |
| `ClaimContract.EarnQuest.RefundRemaining` | contracts/earn-quest/src/escrow.rs:184-214 | A missing escrow answered as such; else what is left goes to the depositor, the escrow closes with nothing available, and the event is logged unless it is zero |
| `ClaimContract.EarnQuest.CancelQuest` | contracts/earn-quest/src/escrow.rs:231-260 | Returns the refunded amount or the first failing check; state and log as one transaction |
| `ClaimContract.EarnQuest.ExpireQuest` | contracts/earn-quest/src/escrow.rs:278-311 | As above, after the deadline |
| `ClaimContract.EarnQuest.WithdrawUnclaimed` | contracts/earn-quest/src/escrow.rs:328-354 | As above |
| `ClaimContract.EarnQuest.Initialize` | contracts/earn-quest/src/lib.rs:26-34 | Once only |
| `ClaimContract.EarnQuest.AddAdmin` | contracts/earn-quest/src/lib.rs:56-59 | Answers and acts as one transaction of the specification |
| `ClaimContract.EarnQuest.RemoveAdmin` | contracts/earn-quest/src/lib.rs:61-64 | As above |
| `ClaimContract.EarnQuest.EmergencyPause` | contracts/earn-quest/src/security.rs:19-29 | As above |
| `ClaimContract.EarnQuest.SetUnpauseApproval` | contracts/earn-quest/src/storage.rs:598-616 | An approval of the round stored or removed, the counter following it, and nothing when it is already so |
| `ClaimContract.EarnQuest.EmergencyApproveUnpause` | contracts/earn-quest/src/security.rs:32-57 | As one transaction; the approval that reaches the threshold schedules |
| `ClaimContract.EarnQuest.ClearUnpauseApprovals` | contracts/earn-quest/src/storage.rs:682-693 | New round, counter zero, nothing scheduled |
| `ClaimContract.EarnQuest.EmergencyUnpause` | contracts/earn-quest/src/security.rs:60-82 | Passes exactly for a signing admin when something is scheduled and due; the pause is then over, with nothing scheduled or counted |
| `ClaimContract.EarnQuest.EmergencyWithdraw` | contracts/earn-quest/src/security.rs:85-123 | As above |
| `ClaimContract.EarnQuest.SetUnpauseThreshold` | contracts/earn-quest/src/security.rs:126-133 | As above |
| `ClaimContract.EarnQuest.SetUnpauseTimelock` | contracts/earn-quest/src/security.rs:136-143 | As above |
| `ClaimContract.EarnQuest.GetQuestsByStatus` | contracts/earn-quest/src/quest.rs:192-224 | The loop with its counters and early exit returns filter, then drop, then take, in registration order; every returned quest is stored and has that status |
| `ClaimContract.EarnQuest.GetQuestsByCreator` | contracts/earn-quest/src/quest.rs:226-255 | The same by creator; every returned quest is that creator's |
| `ClaimContract.EarnQuest.GetActiveQuests` | contracts/earn-quest/src/quest.rs:257-259 | The same for active quests; every returned quest is active |
| `ClaimContract.EarnQuest.GetQuestsByRewardRange` | contracts/earn-quest/src/quest.rs:261-290 | The same by reward; every returned quest pays at least the minimum and at most the maximum |
| `CacheCoherence.CacheIsTransparent` | BackEnd/src/modules/quests/quests.service.ts:37-300 | Over every run whose writes and clearings meet no fault, the cached service gives every reply and leaves the table exactly as one without a cache |
| `CacheCoherence.Step` | BackEnd/src/modules/cache/cache.service.ts:25-106 | Every such operation keeps each stored entry equal to the table's answer, and registered |
| `QueryKey.JsonInjective` | BackEnd/src/modules/quests/quests.service.ts:103-113 | Two queries have the same JSON text, and so the same cache key, exactly when they are the same query |
| `CacheCoherence.ListKeysApart` | BackEnd/src/modules/quests/quests.service.ts:103-113 | A listing's key belongs to one query alone |
| `CacheCoherence.KeysApart` | BackEnd/src/config/cache.config.ts:31-42 | Listings fall under the invalidated prefix, single quests do not, and ids keep their keys apart |
| `CacheCoherence.StaleQuestExactly` | BackEnd/src/modules/quests/quests.service.ts:209-300 | After an update or removal, exactly when a read of the quest is stale |
| `CacheCoherence.StaleListingExactly` | BackEnd/src/modules/quests/quests.service.ts:37-300 | After any creation, update or removal, exactly when a listing is read stale |
| `CacheCoherence.NewQuestNeverStale` | BackEnd/src/modules/quests/quests.service.ts:37-88 | A quest just created is never read stale, whatever fault its creation met |
| `CacheFaults.FaultsStayLocal` | BackEnd/src/modules/quests/quests.service.ts:37-300 | In any run, with any faults, a read answers as without a cache unless an operation failed for that read's own key |
| `CacheFaults.StaleReadReached` | BackEnd/src/modules/quests/quests.service.ts:209-276 | A run from the start, of a creation, a read and an update whose deletion fails, after which the quest is read stale |
| `CacheFaults.StaleAfterRestartExactly` | BackEnd/src/modules/cache/cache.service.ts:11-16 | After a restart that keeps the primary store and empties the registry, exactly when the next write leaves a listing stale, though nothing fails |
| `CacheFaults.StaleAfterRestartReached` | BackEnd/src/modules/cache/cache.service.ts:11-16 | A run from the start in which a restart hides a quest created after it |
| `CacheFaults.QuestRightAfterRestart` | BackEnd/src/modules/quests/quests.service.ts:209-300 | The changed quest itself is read right after a restart |
| `CacheCoherence.FailedDeleteForgets` | BackEnd/src/modules/cache/cache.service.ts:77-89 | A write leaves a listing in the primary store exactly when its deletion failed, and forgets its key either way |
| `CacheCoherence.ForgottenListingStays` | BackEnd/src/modules/cache/cache.service.ts:95-106 | A forgotten listing is untouched by every later run of creations, updates, removals and reads |
| `CacheCoherence.FallbackOutlivesLifetime` | BackEnd/src/modules/cache/cache.service.ts:54-75 | When the primary store loses a listing, the fallback serves it for a thousand times the lifetime asked for, and no longer |
| `CacheCoherence.FallbackOutlivesHour` | BackEnd/src/modules/cache/cache.service.ts:54-75 | The same for a single quest, whose lifetime is an hour |
| `CacheCoherence.ExpiredCopyIsDropped` | BackEnd/src/modules/cache/cache.service.ts:25-52 | A copy of a quest that is gone is served until its time is over, and dropped by the first read from then on |
| `CacheCoherence.ClearLeavesExactly` | BackEnd/src/modules/cache/cache.service.ts:197-209 | What a clearing leaves of a coherent cache: nothing in registry and fallback, and in the primary store exactly what failed to go |
| `CacheWrites.CreateSucceedsIff` | BackEnd/src/modules/quests/quests.service.ts:37-88 | Exactly when a quest is created, and the row stored |
| `CacheWrites.UpdateSucceedsIff` | BackEnd/src/modules/quests/quests.service.ts:209-276 | Exactly when an update is saved: the quest exists, the caller created it, a changed status is one of the five transitions, two given dates are in order, moderation lets it through; then the row field by field, every other row, and the reply |
| `CacheWrites.RemoveSucceedsIff` | BackEnd/src/modules/quests/quests.service.ts:278-300 | Exactly when a quest is removed: it exists and the caller created it; no other row changes |
| `CacheWrites.ErrorsTellTheTruth` | BackEnd/src/modules/quests/quests.service.ts:37-300 | What a refused write's error says is the case |
| `CacheWrites.OnlyTheCreatorChangesIt` | BackEnd/src/modules/quests/quests.service.ts:209-300 | Over every run, with any faults, a stored quest stays as it is until its own creator updates or removes it |
| `CacheWrites.IdentityStays` | BackEnd/src/modules/quests/quests.service.ts:209-320 | Over every run a quest keeps id, creator and time of creation, and its status never moves back |
| `CacheWrites.DeclaredStatusNeverMoves` | BackEnd/src/modules/quests/enums/quest-status.enum.ts:1-6 | Over every run whose updates carry the declared statuses, no quest's status ever changes |
| `CacheWrites.ReadShowsRow` | BackEnd/src/modules/quests/quests.service.ts:185-207 | A coherent service shows exactly the fields of the stored row, and refuses exactly the quests not stored |
| `CacheServices.CacheService.Get` | BackEnd/src/modules/cache/cache.service.ts:25-52 | Primary store, else a live fallback entry, else nothing; an expired entry is dropped |
| `CacheServices.CacheService.Set` | BackEnd/src/modules/cache/cache.service.ts:54-75 | Registered and copied to the fallback whatever the primary store does |
| `CacheServices.CacheService.Del` | BackEnd/src/modules/cache/cache.service.ts:77-89 | Forgotten everywhere except in a primary store that fails |
| `CacheServices.CacheService.DeletePattern` | BackEnd/src/modules/cache/cache.service.ts:95-106 | Deletes exactly the registered keys with the prefix, in whatever order |
| `CacheServices.CacheService.Clear` | BackEnd/src/modules/cache/cache.service.ts:197-209 | Empties everything, except what a failing reset, or the failing deletions of a store without one, leave in the primary store |
| `CacheServices.QuestsService.FindAll` | BackEnd/src/modules/quests/quests.service.ts:90-183 | Reply and state of the specification in every state of the cache; where it is coherent, the table's answer, and it stays so |
| `CacheServices.QuestsService.FindOne` | BackEnd/src/modules/quests/quests.service.ts:185-207 | As above, for one quest or not-found |
| `CacheServices.QuestsService.Create` | BackEnd/src/modules/quests/quests.service.ts:37-88 | Reply and state of the specification in every state of the cache; a coherent one stays so unless there was a fault |
| `CacheServices.QuestsService.Update` | BackEnd/src/modules/quests/quests.service.ts:209-276 | Reply and state of the specification in every state of the cache; the table changes only for the quest's creator, and a saved row is the old one with the given fields |
| `CacheServices.QuestsService.Remove` | BackEnd/src/modules/quests/quests.service.ts:278-300 | As above; the table loses that quest, for its creator, or nothing |
| `CacheServices.QuestsService.ValidateStatusTransition` | BackEnd/src/modules/quests/quests.service.ts:302-320 | Allows exactly the five transitions |
| `RateLimit.AcceptedIff` | BackEnd/src/modules/websocket/websocket.service.ts:325-341 | A call is accepted exactly when it is among the first 60 of its window |
| `RateLimit.EntryTracksWindow` | BackEnd/src/modules/websocket/websocket.service.ts:325-341 | The stored entry is the position in the window and its opening time |
| `RateLimit.CountInWindow` | BackEnd/src/modules/websocket/websocket.service.ts:325-341 | How many calls of a stretch of one window are accepted, exactly |
| `RateLimit.SpanBound` | BackEnd/src/modules/websocket/websocket.service.ts:325-341 | No 60000 ms contain more than 119 accepted calls, for call sequences of any length |
| `RateLimit.SpanBoundIsTight` | BackEnd/src/modules/websocket/websocket.service.ts:325-341 | A sequence with 119 accepted calls in 60000 ms |
| `RateLimit.SpanCountExact` | BackEnd/src/modules/websocket/websocket.service.ts:325-341 | The exact number of accepted calls of every span of at most 60000 ms |
| `RateLimit.AnnouncedBoundIff` | BackEnd/src/modules/websocket/websocket.service.ts:325-341 | Exactly which spans keep to 60 accepted calls |
| `RateLimit.NeverLockedOut` | BackEnd/src/modules/websocket/websocket.service.ts:325-341 | After more than 60000 ms a new window has opened, whatever was refused, and its opener is accepted |
| `SocketSpec.RegisterConsistentIff` | BackEnd/src/modules/websocket/websocket.service.ts:47-72 | Registering keeps the two-way index consistent exactly when the socket does not change its user |
| `SocketSpec.RemoveConsistent` | BackEnd/src/modules/websocket/websocket.service.ts:74-92 | Removing keeps it, and takes the socket and nothing else from every user |
| `SocketSpec.ConsistentRun` | BackEnd/src/modules/websocket/websocket.service.ts:47-104 | In every run in which sockets keep their user, the index is consistent and its size is the number of distinct connected users |
| `SocketSpec.SocketsCounted` | BackEnd/src/modules/websocket/websocket.service.ts:98-104 | In a consistent index every connection is counted at exactly one user |
| `SocketSpec.ChangedOwnerLeaks` | BackEnd/src/modules/websocket/websocket.service.ts:47-92 | A socket that changes its user leaves a user indexed after everybody has gone |
| `SocketSpec.LimitersAreSeparate` | BackEnd/src/modules/websocket/websocket.service.ts:325-341 | A socket's entry depends on its own calls since it was last disconnected, and on nothing else |
| `SocketSpec.ServiceSpanBound` | BackEnd/src/modules/websocket/websocket.service.ts:325-341 | The span bound for every socket in every run of the service with a forward clock |
| `SocketService.WebsocketService.RegisterClient` | BackEnd/src/modules/websocket/websocket.service.ts:47-72 | Both directions updated; consistent after exactly when the user is kept |
| `SocketService.WebsocketService.RemoveClient` | BackEnd/src/modules/websocket/websocket.service.ts:74-92 | Socket, limiter entry and, with the last socket, the user removed |
| `SocketService.WebsocketService.GetConnectedUserCount` | BackEnd/src/modules/websocket/websocket.service.ts:98-100 | The number of distinct connected users, when consistent |
| `SocketService.WebsocketService.GetConnectionCount` | BackEnd/src/modules/websocket/websocket.service.ts:102-104 | The number of sockets; in a consistent index the sum over the indexed users of the number of their sockets |
| `SocketService.WebsocketService.CheckRateLimit` | BackEnd/src/modules/websocket/websocket.service.ts:325-341 | The step of the limiter, refused calls counted |

## Left out

- Soroban host internals: signatures, storage lifetime, gas, symbol length, hashing and WASM upgrade are replaced by a signer set, plain maps, opaque values and an atomic transaction.
- Version, migration and rollback of the first contract: the migrations are empty.
- Events of the first contract: nothing in the repository replays them.
- Platform and creator statistics, and the storage helpers no entry point of the second contract calls.
- Length limits on symbols, and on the texts of the first contract: facts of a single branch. Lengths of metadata count characters, where the host counts bytes.
- CacheServices.CacheService.Set: the tags of an entry are not modelled, because the quest service never gives any.
- ClaimPause.CounterMatchesApprovals: stated for at most 2^32 - 1 unpauses, because the round counter saturates there; `ClaimPause.CounterOkLift` says exactly what happens at the limit, and `ClaimPause.CounterCountsApprovers` and `ClaimPause.UnpauseSafety` have no such bound.
- ClaimPause.PauseFreezes: token balances, approvals, schedule, threshold and timelock are not part of what is frozen, because the emergency calls may change them.
- CacheCoherence.CacheIsTransparent: concurrent requests, references shared between cache and callers, tags, locks and `wrap` are not modelled.
- SQL filtering, sorting and paging, moderation, the database clock and the emitted application events: the query engine is a given function, moderation a given verdict, the time of an update a parameter.
- SocketService.WebsocketService.RegisterClient: rooms, subscriptions, persisted messages and the socket object itself are not modelled; a client is its user.
- Payout retries, jobs, notifications, analytics, the frontend and the indexer's network client.
