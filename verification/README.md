# Verification of the stablecoin x402 gateway

A Dafny model of the parts of the repository whose correctness spans many calls: the reorg-aware
ledger, the tKRW token it indexes, mandate accounting and its on-chain twin, the gateway's payment
lifecycle with sessions, and the settlement journal with its outbox. Every result is a statement about
all inputs, all runs or all reachable states; nothing was executed.

Run `dafny verify dfyconfig.toml` in this directory to check everything.

## How the model is laid out

| files | what they model |
|---|---|
| `Common`, `Transfers`, `Chain` | sums over maps; the ledger's fold of Transfer events; a chain whose block hash is the whole prefix of blocks, so that a canonical block has canonical ancestors by construction |
| `IncrementalLedger`, `LedgerAgreement`, `DeepReorgs`, `Finality`, `FailedMerges` | `SyncIncremental` as a function and as the class `Ledger`, with any of its reads failing; its agreement with the full rescan; what it does about reorgs past the checkpoint, in every reachable state; where the checkpoint lies; what a merge that fails halfway leaves behind |
| `Stablecoin`, `TokenLaws`, `Reconciliation`, `EndToEnd` | the token contract; exactly when each of its calls takes effect; `Reconcile`; one theorem from token calls through logs and blocks to the ledger |
| `MandateAccounts`, `AccountLaws`, `MandateBounds`, `MandateRestart`, `Policy`, `PolicyLaws` | sliding-window accounting, what each operation changes, its bounds over whole histories, its rebuilding from the journal, and the accept policies with what they let pass |
| `DelegatedSpend`, `SpendSafety`, `SpendLaws`, `Parity`, `ParityReplay` | the on-chain mandates, their solvency and window bounds, exactly who may spend what, the comparison of the two enforcers, and the replay of a gateway's payments on the contract |
| `Gateway`, `GatewaySafety`, `GatewayPlaces`, `GatewayOutcomes`, `GatewayTerms`, `GatewayAccounting`, `GatewayDeferral`, `GatewayMandates` | the payment lifecycle as a state machine whose requests interleave, and what holds in every reachable state |
| `GatewayProvenance`, `GatewayGates` | where settlements come from, and exactly when each gate of the machine opens, in terms of the payment, the mandate and the chain |
| `GatewayRestart`, `GatewayMirror`, `GatewayNonces`, `GatewaySwap`, `GatewayLives` | what a gateway restarted from its journal knows, against the one that kept running; which settled lines it loses; a run whose list it reorders; what holds over many lives |
| `GatewayService` | the gateway and the local facilitator as classes; every call is a run of the machine |
| `GatewayRuns`, `GatewayEarly` | the course of a payment that is alone, and concrete runs made of such courses |
| `Sessions`, `SessionLaws`, `SessionService`, `SessionReservations` | payment sessions with the accounts of their mandates, as a machine and as classes; exactly what each call does; whose the reservations are over whole runs |
| `Journal`, `JournalLaws`, `TableCodec`, `JournalFile`, `Outbox`, `OutboxLaws` | the journal's bytes, replay and crash behaviour, a codec that meets what the journal asks, the journal object, in-order publishing, and how far a pass gets |

Code that updates fields in place is a class whose methods are proved against functions on values; the
theorems are about those functions. The modules named `...Laws`, `GatewayGates` and `Finality` say of every
reachable state exactly when an operation takes effect, in terms of the fields it is about and without the
functions that compute it. Signatures, decoding of payloads and reads of clocks, nonces and
transaction hashes are parameters of the steps.

Each critical section of a request is a step of its own, with its own reading of the clock: verify,
decide, submit, journal, commit to the mandate's account, append to the list, write the settled line,
deliver. Steps of other requests may come between any two of them.

Hypotheses used, each where the code needs it: the clock does not go back and a mandate id stands for
one set of terms (`MandateBounds.Clocked`, `GatewayMandates.Regular`); over a whole run of syncs the
headers the merges ask for are found (`LedgerAgreement.Steady`); requests in flight carry
distinct nonces, transaction hashes are fresh, a transaction lands in a block above the head it was
submitted at, and a retry of a deferred payment is handled alone, whatever its payload
(`Gateway.Enabled`); the mandate policy is last in the chain. That the receipt of a deferred
settlement can be read is no hypothesis of the machine: it is one of `GatewayDeferral.LargePaymentsWait`
only. Policies between verification and the mandate policy may answer anything.

## Where the code does less than its comments say

- The incremental ledger (ledger/incremental.go:92-95, 104-106) trusts that a canonical newest pending
  block makes the view current, but blocks above it that carried no event are not re-read when only they
  change. `LedgerAgreement.SyncAgreesIff` gives the exact condition under which one sync agrees with
  the rescan, and `LedgerAgreement.ReplacedQuietBlockIsMissed` a run where it does not. What was finalized
  wrong stays wrong by the same amount: `DeepReorgs.OneSyncShowsFinalized`.
- A merge folds its blocks before it looks up the header of the new checkpoint
  (ledger/incremental.go:163-187). When that lookup fails and the window is empty, the next sync starts
  from the old checkpoint and reads the folded blocks again: `FailedMerges.NextSyncAgreesIff` says exactly
  when its view is right all the same, and `FailedMerges.MintCountsTwice` is a run that counts a mint
  twice.
- The journal (x402/journal.go:65-70) is described as consistent wherever a crash lands. Replay is, but
  the first append after a torn tail continues the torn line and is skipped by the next replay, together
  with a record that lacked only its newline: `Journal.AppendAfterCutStandsIff`, and
  `TableCodec.TornNewlineLosesBoth` for a file that loses two entries so.
- Restored accounting (x402/gateway.go:962-967) reads whole seconds, and reads them after the commit
  (x402/policy_mandate.go:261, x402/gateway.go:627-629). So a rebuilt account forgets a spend up to a
  second early, or holds it longer when the settled line was written late:
  `MandateRestart.RestartShiftsVerdict` and `GatewayRestart.RestartShiftsVerdict` give the two amounts
  exactly, `MandateRestart.TruncationLetsOneThrough` and `MandateRestart.LateStampRefusesOne` an instance
  of each.
- The restored list of settlements (x402/gateway.go:614-626) is in journal order, the running one in the
  order of a later lock: `GatewayMirror.RestartKeepsOrderIff` gives the schedules on which they agree,
  `GatewaySwap.SwappedOverRestart` a run on which they do not.
- A settlement whose receipt cannot be read counts as mined in block 0 (x402/gateway.go:813-821), so a
  retry is taken for confirmed as soon as the chain is longer than the confirm depth, however recent the
  settlement. And a retry that names a smaller amount is judged by that amount, while the stored payment
  is served (x402/gateway.go:653-674). `GatewayDeferral.EarlyRetryClearsIff` says exactly when a retry
  releases a payment too early, `GatewayEarly.SmallerRetryServes` and `GatewayEarly.MissingReceiptServes`
  are a run of each kind, and `GatewayDeferral.LargePaymentsWaitUnless` shows that there is no third.
- The in-flight map and the requests in progress are not journaled (x402/gateway.go:638-674, 939-960): what
  a gateway had settled and not yet concluded when it stopped is never served nor refunded after a restart,
  and a retry fails verification. `GatewayLives.RestartStrandsIff` says which settlements these are,
  `GatewayEarly.TenIsStranded` is an instance.
- Settled lines are keyed by the nonce alone, a nonce belongs to its payer (x402/gateway.go:438-461): when a
  second payer uses a nonce again, its line is taken for a repetition, and a restart forgets its spend.
  `GatewayNonces.NothingLostIff` says when no line is lost, `GatewayNonces.SecondPayerIsForgotten` is a run
  where one is.
- Opening a session reserves its whole budget at the mandate policy. An attempt that the policy answers
  with Defer is refused, and a session whose settlement fails is given up, without releasing it
  (x402/session.go:116-122, 163-167, 202-212): `SessionReservations.RefusedOpenReservesIff` and
  `SessionReservations.OnlySuccessFrees` say exactly when, `SessionReservations.SessionReservationsExact`
  whose every reservation is in any reachable state, `SessionReservations.BudgetIsLost` that the budget
  stays that much smaller, with no window to end it, and `SessionReservations.RefusedOpeningBlocks` is a run
  in which one refused opening takes the whole budget.
- Revocation lines are keyed by the mandate id, the live set by delegator and id: a restart restores the
  set exactly when no id was revoked by two delegators (`GatewayRestart.RevocationsRestoredIff`,
  `GatewayRestart.SecondRevokerIsLost`).
- A policy in front of the mandate policy that answers Defer, as a decision table may
  (x402/policy_table.go:205), settles the payment before the mandate policy is asked:
  `GatewayMandates.UnheldSettlesIff`, `GatewayMandates.MiddleDeferSettlesUnheld`.
- Budget windows longer than 64 bits of nanoseconds wrap around and may become negative
  (x402/policy_mandate.go:310-315): `MandateAccounts.WindowDurExactIff`, `MandateBounds.NegativeWindowForgets`,
  and `MandateBounds.WrappedWindowOverspends` for a run that commits twice the budget at one moment.
- The contract and the gateway disagree on the first second of a mandate's validity, and on no other
  (contracts/DelegatedSpend.sol:113, x402/policy_mandate.go:116): `Parity.InScopeIff`,
  `Parity.FirstInstantDiffers`.

## Model

| member | source | states |
|---|---|---|
| Chain.CanonicalAncestors | ledger/incremental.go:92-95 | if a block is canonical, every earlier block of its history is canonical too |
| Chain.LogCounts | ledger/ledger.go:161-171 | wherever a log stands in a block it counts if and only if it has three topics, as a transfer between the low 160 bits of two of them; any other might as well not be there |
| Transfers.FoldIsNetFlow | ledger/ledger.go:178-200 | the ledger's fold of any event list is the net flow of every account, with the zero address minting and burning and never holding a balance |
| Transfers.FoldConserves | ledger/ledger.go:178-200 | the balances always sum to minted minus burned |
| Transfers.Aggregates.ApplyAll | ledger/ledger.go:173-200 | the in-place update of totals and balances is that fold |
| IncrementalLedger.Ledger.constructor | ledger/ledger.go:99-123 | a new ledger has no baseline and no checkpoint, and depth 0 falls back to the default |
| IncrementalLedger.Ledger.RewindPending | ledger/incremental.go:97-123 | the pop loop drops the pending blocks that left the chain, reports a reorg past the checkpoint, and stops where it stands when a header is lost |
| IncrementalLedger.Ledger.AppendRange | ledger/incremental.go:135-159 | the decoded events of a block range are grouped into block records in order; malformed logs are skipped |
| IncrementalLedger.Ledger.Merge | ledger/incremental.go:163-187 | records at or below the boundary move to the finalized aggregates, the others stay, and the checkpoint never moves back, or not at all when its header is lost |
| IncrementalLedger.Ledger.SyncIncremental | ledger/incremental.go:20-50 | one call, with every error exit of its reads, is the function whose agreement is proved below |
| IncrementalLedger.Ledger.Snapshot | ledger/incremental.go:73-90 | a snapshot overlays the pending events on a copy and leaves the ledger as it was |
| LedgerAgreement.SyncAgreesIff | ledger/incremental.go:20-50 | after a sync that succeeds the snapshot equals the full rescan of the canonical chain if and only if no skipped block carried an event; one that fails before its merge leaves the finalized state alone |
| LedgerAgreement.RunKeepsInv | ledger/incremental.go:20-50 | over any run in which no successful sync skips an event and no merge loses its header, the finalized aggregates are the fold of the checkpoint's history, each block once, and the window holds the rest |
| LedgerAgreement.RunAgreesIffNeverSkips | ledger/incremental.go:97-123 | over a whole run every successful sync agrees with the rescan if and only if no call skips a changed block with events |
| LedgerAgreement.ReplacedQuietBlockIsMissed | ledger/incremental.go:104-106 | a concrete run where only a block above the newest pending one is replaced and the snapshot misses its events |
| DeepReorgs.EveryRunIsRooted | ledger/incremental.go:20-132 | after any run of syncs against any chains, events skipped or not, reads failed or not, the checkpoint and the pending blocks are ascending blocks of one history |
| DeepReorgs.SyncSucceedsIff | ledger/incremental.go:97-132 | after any run a sync succeeds if and only if its reads work, the chain reaches the window it must look at and the checkpoint still holds |
| DeepReorgs.DeepReorgIsReported | ledger/incremental.go:111-120 | after any run, when the checkpoint is no longer canonical a sync errs and leaves the finalized aggregates and checkpoint alone |
| DeepReorgs.DeepReorgErrsOnEveryCall | ledger/incremental.go:111-120 | and so does every further call, for as long as it stays off the chain |
| DeepReorgs.OneSyncHeals | ledger/incremental.go:111-123 | once the checkpoint is canonical again one sync agrees with the full rescan, however many calls failed before, if one of them reported the deep reorg and the finalized aggregates are right |
| DeepReorgs.OneSyncShowsFinalized | ledger/incremental.go:111-123 | and if they are wrong, at every account and in every count that sync is off by exactly what they are off, so it agrees there if and only if they are right |
| Finality.BoundaryIsHighest | ledger/incremental.go:189-204 | after any run, failed calls included, the finalized block is the highest that lay the depth below the head at a sync that succeeded, or 0 |
| Finality.SyncFinalizesUpTo | ledger/incremental.go:161-204 | after any run a sync that succeeds puts the checkpoint at its head less the depth, unless it was higher, commits to the chain up to there, and remembers only blocks above it |
| Finality.ReorgAboveTheLine | ledger/incremental.go:97-123 | after any run and such a sync, a chain that keeps the blocks up to that line is never reported as a deep reorg, whichever answers are lost |
| Finality.NextSyncSucceedsIff | ledger/incremental.go:97-132 | and with every answer arriving the next sync succeeds if and only if the chain keeps those blocks and reaches the newest remembered one |
| Finality.DepthBlocksMayChange | ledger/incremental.go:11-19 | so on a chain that does not get shorter, replacing up to the depth of its newest blocks is taken in stride |
| Finality.HeaderIsAskedForIff | ledger/incremental.go:161-187 | when only the last header is lost a sync succeeds if and only if the line does not move and all else is in order |
| FailedMerges.NextSyncAgreesIff | ledger/incremental.go:163-187 | after a merge whose header lookup failed, on any chain that still has the boundary block: the next successful sync agrees with the rescan if and only if, when the window survives in part, it skips nothing, and when it empties, no event above the old checkpoint was folded |
| FailedMerges.MintCountsTwice | ledger/incremental.go:163-187 | a concrete run in which the only mint is counted twice |
| Stablecoin.RunKeeps | contracts/KRWTestStablecoin.sol:88-178 | over any run of token calls balances sum to totalSupply, and folding the emitted logs gives every balance and the supply |
| TokenLaws.RunLaw | contracts/KRWTestStablecoin.sol:88-248 | over any run from deployment each call takes effect if and only if its caller, the controls, the balances, the allowance and the authorization permit it, and then changes every balance, allowance and authorization by exactly what it names; overflow never decides |
| TokenLaws.SpentExactlyWhen | contracts/KRWTestStablecoin.sol:184-248 | over any run a call spends an authorization if and only if it is fresh, strictly between its times, recovers to its non-zero payer, comes from the recipient in the receive form, nothing stops the transfer and the balance covers it; it then moves exactly the value |
| TokenLaws.LossNeedsConsent | contracts/KRWTestStablecoin.sol:99-178 | over any run an account loses value only by its own call, within an allowance, by an authorization that recovers to it and is in time, or by a burn of the issuer, and exactly the value of that call |
| Stablecoin.AuthorizationSettlesOnce | contracts/KRWTestStablecoin.sol:220-248 | no run executes an EIP-3009 authorization twice, through either entry point |
| Stablecoin.UsedForever | contracts/KRWTestStablecoin.sol:234-247 | a spent authorization stays spent |
| Stablecoin.AllowanceIsSpent | contracts/KRWTestStablecoin.sol:146-164 | between approvals a finite allowance falls by exactly what was moved through it, and an unlimited one never falls |
| Stablecoin.KRWTestStablecoin.MintTo | contracts/KRWTestStablecoin.sol:88-97 | mint as an all-or-nothing transaction, its checks, effects and log |
| Stablecoin.KRWTestStablecoin.BurnFrom | contracts/KRWTestStablecoin.sol:99-105 | burn likewise |
| Stablecoin.KRWTestStablecoin.MoveFunds | contracts/KRWTestStablecoin.sol:166-178 | the internal transfer with freezes, allowlist and balance check; a self-transfer changes nothing |
| Stablecoin.KRWTestStablecoin.TransferTo | contracts/KRWTestStablecoin.sol:141-144 | transfer is refused while paused |
| Stablecoin.KRWTestStablecoin.ApproveSpender | contracts/KRWTestStablecoin.sol:146-150 | approve replaces the allowance |
| Stablecoin.KRWTestStablecoin.TransferOnBehalf | contracts/KRWTestStablecoin.sol:152-164 | transferFrom draws the allowance down unless it is unlimited |
| Stablecoin.KRWTestStablecoin.Settle | contracts/KRWTestStablecoin.sol:184-248 | an authorization settles only inside its validity, once, for its signer; the receive form only for its recipient |
| Reconciliation.RescanLedger.Sync | ledger/ledger.go:128-143 | a rescan replaces all aggregates with the fold of every decodable log, or fails and keeps them |
| Reconciliation.RescanLedger.Reconcile | ledger/ledger.go:221-270 | reconcile rescans and then compares, with every error exit |
| Reconciliation.Compare | ledger/ledger.go:226-269 | the three comparisons, accounts in address order |
| Reconciliation.NothingListedIffClean | ledger/ledger.go:214-270 | no mismatch is listed if and only if the supply, the sum and every indexed balance agree |
| Reconciliation.CleanMeansEqual | ledger/ledger.go:217-270 | a clean report means the ledger balance equals balanceOf at every address, indexed or not |
| Reconciliation.DroppedLogReportedIff | ledger/ledger.go:217-270 | dropping one log is reported if and only if it moved a positive value between distinct accounts |
| EndToEnd.ChainCarriesLogs | ledger/ledger.go:125-171 | the events indexed from the blocks are the logs the token emitted, in order |
| EndToEnd.RescanTracksToken | ledger/ledger.go:128-143 | after any history of token calls the rescan gives balanceOf at every account and totalSupply |
| EndToEnd.SnapshotIsOnChainState | ledger/incremental.go:73-90 | so does the incremental snapshot, after any run of syncs from the start that skipped nothing and found its headers, reorgs and failed reads included |
| EndToEnd.ReconciliationCatchesGaps | ledger/ledger.go:217-270 | a ledger that missed one real transfer is always reported |
| MandateAccounts.WindowDurExactIff | x402/policy_mandate.go:308-315 | a window of any positive number of seconds has its stated length if and only if they fit 64 bits of nanoseconds |
| MandateAccounts.MandateAccount.CommittedAmount | x402/policy_mandate.go:446-455 | the loop sums the spends at or after the cutoff |
| MandateAccounts.MandateAccount.CommittedCount | x402/policy_mandate.go:457-466 | the loop counts them |
| MandateAccounts.MandateAccount.ReservedTotal | x402/policy_mandate.go:468-474 | the sum of what is reserved, in any iteration order |
| MandateAccounts.MandateAccount.Prune | x402/policy_mandate.go:477-486 | filtering in place keeps exactly the spends inside the widest window, in order |
| MandateAccounts.MandateAccount.Hold | x402/policy_mandate.go:394-409 | the budget is checked unless waived, then the rate, and only a payment that fits is held |
| MandateAccounts.Registry.TryReserve | x402/policy_mandate.go:386-410 | reserve opens the mandate's account on first use and touches no other account |
| MandateAccounts.Registry.CommitSpend | x402/policy_mandate.go:413-427 | commit turns a reservation into a spend and prunes; without one it does nothing |
| MandateAccounts.Registry.ReleaseSpend | x402/policy_mandate.go:430-436 | release drops the reservation and no spend |
| MandateAccounts.Registry.RestoreSpend | x402/policy_mandate.go:372-381 | restore adds a spend without a window |
| AccountLaws.CommitIs | x402/policy_mandate.go:413-427 | a commit turns the reservation of its nonce into one spend of the reserved amount, forgets exactly the spends older than both windows, and touches nothing else |
| AccountLaws.ReleaseIs | x402/policy_mandate.go:430-436 | a release drops that reservation and nothing else |
| AccountLaws.RestoreIs | x402/policy_mandate.go:372-383 | a restored spend is one more spend of its mandate, whatever the limits |
| AccountLaws.Int64Is | x402/policy_mandate.go:308-320 | the 64-bit reading of a number is the one in range that differs from it by whole turns |
| MandateBounds.StepKeeps | x402/policy_mandate.go:386-436 | every reserve, commit and release keeps: committed in the window plus reserved within the budget, the pruned list answering every later query, and both caps over the whole past |
| MandateBounds.BudgetHolds | x402/policy_mandate.go:386-427 | for every interleaving, unconfirmed commits in any closed interval of the budget window total at most the budget, pruned spends included |
| MandateBounds.BudgetHoldsUnconfirmed | x402/policy_mandate.go:386-427 | without confirmations all commits do |
| MandateBounds.RateHolds | x402/policy_mandate.go:402-407 | all commits, confirmed or not, number at most the cap in any closed interval of the rate window |
| MandateBounds.NegativeWindowForgets | x402/policy_mandate.go:310-315 | with a window that wrapped to a negative one, the budget check sees reservations only |
| MandateBounds.OverlongWindowIsNegative | x402/policy_mandate.go:310-315 | the first length past the limit already wraps to a negative window |
| MandateBounds.WrappedWindowOverspends | x402/policy_mandate.go:386-427 | a concrete run under such a window commits twice the budget at one moment |
| MandateRestart.RestartKeepsVerdicts | x402/gateway.go:962-1001 | the account rebuilt from stamps gives every later reservation the verdict of the live, pruned one when no old spend straddles an edge asked about |
| MandateRestart.RestartShiftsVerdict | x402/gateway.go:973-988 | right after a restart each live check, budget and rate, is the rebuilt one with the spends forgotten early added and those held too long taken off |
| MandateRestart.PromptStampsOnlyForget | x402/gateway.go:973-988 | when every settled line is stamped at the instant of its commit, none is held too long |
| MandateRestart.TruncationLetsOneThrough | x402/gateway.go:973-988 | a concrete restart after which a refused payment is let through |
| MandateRestart.LateStampRefusesOne | x402/policy_mandate.go:261-261 | a concrete restart after which a payment that fits is refused, because its settled line was stamped in the second after its commit |
| Policy.FirstVetoSpec | x402/policy.go:75-89 | the chain approves if and only if all its policies do, and otherwise answers the earliest veto |
| Policy.MandatePolicy.CheckEntitlement | x402/policy_mandate.go:94-135 | the entitlement checks in their order, with each refusal code |
| Policy.MandatePolicy.Evaluate | x402/policy_mandate.go:93-183 | the whole cascade on the live registry, windows touched before settlement only |
| Policy.MandatePolicy.PrefixMatches | x402/policy_mandate.go:280-287 | the loop finds a prefix if and only if there is one |
| Policy.MandatePolicy.Settled | x402/policy_mandate.go:248-265 | success commits, failure releases |
| PolicyLaws.PassesIff | x402/policy_mandate.go:93-187 | a payment passes the mandate policy if and only if the mandate is genuine, granted to the payer, in force, unrevoked, covers payee and resource, and has room under the cap, or is confirmed, and before settlement in both windows; it waits if and only if it is also large and unconfirmed on chain; exactly what passes before settlement is held |
| PolicyLaws.RefusalTable | x402/policy_mandate.go:93-202 | the action and code of the answer to every other payment: the first thing that is wrong, asked for instead of refused exactly for the cap and the budget under AskOnExceed |
| DelegatedSpend.DelegatedSpendContract.MakeDeposit | contracts/DelegatedSpend.sol:52-59 | deposit pulls the tokens and credits the caller, or reverts whole |
| DelegatedSpend.DelegatedSpendContract.MakeWithdrawal | contracts/DelegatedSpend.sol:62-67 | withdraw likewise |
| DelegatedSpend.DelegatedSpendContract.RegisterMandate | contracts/DelegatedSpend.sol:71-97 | only the delegator updates a mandate, and an update restarts its window |
| DelegatedSpend.DelegatedSpendContract.RevokeMandate | contracts/DelegatedSpend.sol:100-105 | only its delegator revokes it |
| DelegatedSpend.DelegatedSpendContract.IsAllowedPayee | contracts/DelegatedSpend.sol:133-144 | an empty list admits anyone, another exactly its members |
| DelegatedSpend.DelegatedSpendContract.PayOut | contracts/DelegatedSpend.sol:109-131 | pay checks scope, rolls the window, charges it and the deposit, and moves the tokens, or reverts whole |
| SpendSafety.AlwaysCovered | contracts/DelegatedSpend.sol:52-131 | over any run of calls to both contracts in which the issuer does not burn it, the contract's balance covers the sum of all deposits |
| SpendSafety.DepositIsAccountedFor | contracts/DelegatedSpend.sol:52-131 | each delegator's deposit is deposited minus withdrawn minus paid under their mandates |
| SpendSafety.DelegatorIsPermanent | contracts/DelegatedSpend.sol:81-85 | a mandate id never changes its delegator |
| SpendSafety.WindowHolds | contracts/DelegatedSpend.sol:118-131 | between updates windowSpent never exceeds the budget and any closed interval of the window length holds at most twice the budget |
| SpendSafety.RevokedPaysNothing | contracts/DelegatedSpend.sol:100-112 | after its revocation nothing is paid under a mandate until it is set again |
| SpendLaws.RunLaw | contracts/DelegatedSpend.sol:52-145 | over any run by anyone each call takes effect if and only if the caller, the mandate, the deposit and the token permit it, and then changes every deposit, mandate and balance by exactly what it names; the contract never lacks tokens it owes |
| SpendLaws.DepositFallsExactlyWhen | contracts/DelegatedSpend.sol:62-131 | over any run a deposit falls if and only if its owner withdraws, or the agent registered under an unrevoked mandate of the owner pays a listed payee, in time, within cap, budget and deposit; the payee receives exactly that |
| SpendLaws.MandateChangesOnlyBy | contracts/DelegatedSpend.sol:71-105 | over any run a mandate is revoked if and only if its delegator revokes it, and otherwise changes hands, terms or revocation only when it is set, by its delegator once it has one |
| Parity.InScopeIff | contracts/DelegatedSpend.sol:107-116 | a payment that passes the gateway's entitlement and cap is in the contract's scope if and only if it is not made in the second validAfter |
| Parity.FirstInstantDiffers | contracts/DelegatedSpend.sol:113-113 | in that second the gateway admits every payment of the mandate within its cap and the contract none |
| ParityReplay.FixedWindowNeverStricter | contracts/DelegatedSpend.sol:107-131 | for every interleaving of payments, successes and failures at the gateway, without confirmations: pay accepts each payment the gateway commits, at the time it was reserved, with its scope checks, window, deposit and token transfer, and the deposit falls by exactly what was committed |
| Parity.ChargesFitAtCommits | contracts/DelegatedSpend.sol:118-123 | the window and budget part of pay accepts them at the times of their commits as well |
| Parity.FixedWindowIsLooser | contracts/DelegatedSpend.sol:118-123 | and not conversely: the fixed window accepts a history that spends more than the budget within one window length |
| GatewaySafety.VerifiedSettlesIff | x402/facilitator_local.go:44-139 | a verified payment submitted at once settles if and only if the token is not paused, both ends are accounts, the payee is not frozen and the allowlist admits both |
| GatewaySafety.ShapeKept | x402/gateway.go:325-371 | every step keeps: each landed transaction spent an authorization of its own, and each request and deferred payment names its own |
| GatewayPlaces.PlacesKept | x402/gateway.go:577-766 | every step keeps each recorded settlement in exactly one place |
| GatewayPlaces.SettlementsConserved | x402/gateway.go:577-766 | in every reachable state the recorded settlements are the delivered, refunded and refund-pending ones plus those deferred and those being delivered, each counted once |
| GatewayOutcomes.ConservedOnRecord | x402/gateway.go:681-727 | when the refund lines are written, the recorded settlements are the served ones, the refund lines, the refund pending lines, those deferred and those being delivered, each counted once |
| GatewayOutcomes.OutcomesOnRecord | x402/gateway.go:695-727 | and a settlement is refunded, or pending, exactly when the journal has its line, with its payer and amount; no two share a line and a delivered one has none |
| GatewayPlaces.SettledAtMostOnce | x402/gateway.go:329-371 | no two recorded settlements spend the same authorization |
| GatewayPlaces.ServedAtMostOnce | x402/gateway.go:650-693 | no authorization is served twice, and only settled ones are served |
| GatewayTerms.NothingBelowThePrice | x402/facilitator_local.go:64-94 | whatever is recorded as settled or served was verified and pays at least the price |
| GatewayProvenance.EverySettlementIsBacked | x402/gateway.go:329-371 | behind everything recorded or served, in any reachable state, stands a payment of that payer and amount that arrived well formed, bound, on terms, in time, signed, fresh and covered; after that was held under a genuine mandate granted to its payer with room for it, or let through by a policy that defers; and after that was executed by that transaction, when the token permitted it |
| GatewayGates.ArrivalIsJudged | x402/facilitator_local.go:47-139 | a payment that arrives counts as verified if and only if it is of the right form, bound, to the payee, at least the price, valid for more than five more seconds, signed by its payer, unused, covered, and the payer not frozen; an unbound one is turned away |
| GatewayGates.DecisionIsExact | x402/gateway.go:349-371 | a request goes on to settlement if and only if it was verified and either every policy in the middle approves and the mandate admits and has room for it, or one of them defers first |
| GatewayGates.SubmissionIsExact | x402/facilitator_local.go:143-192 | in any reachable state an included transaction executes if and only if the token permits it at that moment, and then moves exactly the value; the payment counts as settled if and only if that is reported too, and loses its reservation otherwise |
| GatewayGates.JournalingIsExact | x402/gateway.go:602-622 | a mined payment goes on if and only if its settlement line is written, with payer, amount and second; otherwise its reservation is dropped and nothing is listed |
| GatewayGates.CountingIsExact | x402/gateway.go:623-626 | the notification turns the reservation into one spend and lists nothing; the listing appends the one record and counts nothing |
| GatewayGates.StampingIsExact | x402/gateway.go:627-651 | the settled line names mandate, amount and second; a deferred payment is kept with its receipt block, or block 0, and any other is handed on |
| GatewayGates.RevocationIsExact | x402/gateway.go:873-889 | a revocation takes hold whether or not its line is written, and changes nothing else |
| GatewayGates.RetryReleasesIff | x402/gateway.go:653-674 | a retry releases a deferred payment if and only if its block is not above the head, the policies let the retry pass, and it names a small amount or the block is the confirm depth below the head; else nothing changes |
| GatewayGates.DeliveryEndsExactly | x402/gateway.go:681-727 | in any reachable state a delivery ends served, refunded or with the refund pending exactly as the deliverer, the refunder, the reply and the token decide, and value flows back exactly when the refund is included and permitted |
| GatewayTerms.RefundUndoesPayment | x402/gateway.go:695-719 | a settlement followed by its refund leaves every balance as it was and the authorization spent |
| GatewayTerms.RevokedIsRefusedForGood | x402/policy_mandate.go:123-125 | from a revocation on no payment under the mandate is held, or passes the mandate policy at any stage |
| GatewayAccounting.BooksKept | x402/gateway.go:577-633 | every step keeps the reservations equal to the held requests: each exit of settle notifies once |
| GatewayAccounting.ReservationsExact | x402/policy_mandate.go:162-173 | in every reachable state the reserved nonces are exactly those between decide and the end of settle, each with its own amount, and none when nothing is active |
| GatewayDeferral.LargePaymentsWait | x402/gateway.go:638-674 | with receipts at hand and retries of the same amount, a payment at or above DeferAbove is served only after it was resumed with the head at least ConfirmDepth above its settlement block, which lies above the head it was submitted at |
| GatewayDeferral.LargePaymentsWaitUnless | x402/gateway.go:638-674 | in any run such a payment is served only after that, or with its receipt missing, or by a retry that names an amount below DeferAbove |
| GatewayDeferral.EarlyRetryClearsIff | x402/gateway.go:653-674 | while the settlement block of a deferred payment is not confirmed, a retry is let through if and only if the receipt was missing and the chain is longer than ConfirmDepth, or the retry names an amount below DeferAbove, and the policies approve it |
| GatewayDeferral.MissingReceiptClearsIff | x402/gateway.go:813-821 | without its receipt a deferred payment is let through by a large retry if and only if the chain is longer than ConfirmDepth and the policies approve |
| GatewayRuns.TripRun | x402/gateway.go:577-646 | a payment that is held and lands, with no request in between, takes seven steps from its arrival to the state that lists it, with its journal lines, and that keeps it in flight or hands it over |
| GatewayRuns.GoodPaymentIsSettled | x402/gateway.go:329-371 | from any state a run has reached, a payment that is proper, licensed by its mandate and executable is settled and listed with its payer and amount |
| GatewayEarly.SmallerRetryServes | x402/gateway.go:653-674 | a concrete run in which a deferred payment of ten is served in its settlement block after a retry for nine, where a retry for ten leaves it in flight |
| GatewayEarly.MissingReceiptServes | x402/gateway.go:813-821 | a concrete run in which it is served there after a retry for ten, its receipt missing |
| GatewayMandates.UnheldSettlesIff | x402/gateway.go:354-370 | a payment goes on to settlement without being held by the mandate policy if and only if verification passed and a middle policy answers Defer |
| GatewayMandates.MiddleDeferSettlesUnheld | x402/gateway.go:354-370 | a concrete payment without a mandate that does |
| GatewayMandates.RunLinked | x402/gateway.go:577-633 | the gateway's account of a mandate is the accounting of its own trace, and the commits of that trace are the recorded settlements |
| GatewayMandates.SettledWithinBudget | x402/policy_mandate.go:386-427 | over a whole run of the gateway the unconfirmed payments settled under a mandate, in any closed interval of its budget window, total at most its budget |
| GatewayMandates.SettledWithinRate | x402/policy_mandate.go:402-407 | and all of them number at most its rate cap in any rate window |
| GatewayRestart.RestoredIsStamped | x402/gateway.go:968-988 | the restored spends are the settled lines that stand, in their order, each at the reading of the clock it was written with |
| GatewayRestart.SpendsRestored | x402/gateway.go:623-629 | in every window the settled payments of a mandate weigh what the standing lines weigh at their commits, plus the lost lines, plus the payments still waiting for theirs, in whatever order the lines come |
| GatewayRestart.RestartJudgesAlike | x402/gateway.go:968-988 | with nothing in flight and no line lost, a gateway restarted from the journal gives every later reservation the verdict of the one that kept running, unless the commit and the stamp of an old spend lie on two sides of a window's edge |
| GatewayNonces.NothingLostIff | x402/gateway.go:438-461 | a mandate loses no settled line, as RestartJudgesAlike asks, if and only if each was written and was the first under its nonce, whoever paid |
| GatewayNonces.SecondPayerIsForgotten | x402/gateway.go:438-461 | a concrete run of two payers with one nonce, both served and both counted; after a restart the second one's account is empty |
| GatewayRestart.RestartShiftsVerdict | x402/gateway.go:968-988 | and in any case right after the restart each check is the running one's, with the spends stamped too early added and those stamped late taken off |
| GatewayRestart.RevocationsRestoredIff | x402/gateway.go:486-503 | a restart invents no revocation, and when every line was written restores the live set if and only if no id was revoked by two delegators |
| GatewayRestart.SecondRevokerIsLost | x402/gateway.go:486-503 | a concrete run in which it loses one |
| GatewayMirror.RestartListsSettlements | x402/gateway.go:939-958 | with nothing in flight the restarted gateway lists the very settlements recorded before, each once, at whole seconds |
| GatewayMirror.RestartKeepsOrderIff | x402/gateway.go:614-626 | and in the same order if and only if the requests were journaled in the order in which they were listed |
| GatewayMirror.OneAtATimeKeepsOrder | x402/gateway.go:614-626 | so the order is kept when no settlement is journaled while another is between journal and list |
| GatewaySwap.SwappedOverRestart | x402/gateway.go:614-626 | a concrete run of two payments that a restart lists the other way round |
| GatewayLives.OnceOverLives | x402/gateway.go:939-960 | over any number of restarts, whenever they come, no authorization is executed twice and none is served twice |
| GatewayLives.RestartFixesOutcomes | x402/gateway.go:939-960 | from any state and over any number of lives after it, a transaction known at the stop keeps the outcome it had, or has none |
| GatewayLives.RestartStrandsIff | x402/gateway.go:577-674 | over any number of later lives a settlement that the restarted gateway lists has no outcome if and only if, at the stop, it was deferred or a request had it between its journal line and its outcome; its authorization is spent and every retry of it fails verification |
| GatewayLives.RestartStrandsDeferred | x402/gateway.go:638-674 | so a payment deferred when the gateway stops is recorded as settled and neither served nor refunded in any later life |
| GatewayEarly.TenIsStranded | x402/gateway.go:638-674 | a concrete stop with a deferred payment of ten: whatever lives follow, it is listed, has no outcome, and its retry fails verification |
| GatewayService.LocalFacilitator.Verify | x402/facilitator_local.go:47-139 | the check cascade of a plain transfer accepts exactly the payments of the right form, terms, signer, freshness and balance; the DvP branch is left out |
| GatewayService.LocalFacilitator.Settle | x402/facilitator_local.go:143-192 | for a plain transfer success means the transfer happened; an error does not mean that it did not |
| GatewayService.LocalFacilitator.Refund | x402/delivery.go:70-88 | success means the settled amount went back; an error does not mean that it did not |
| GatewayService.PaymentGateway.Decide | x402/policy.go:82-89 | the chain loop is the first veto of verification, the middle policies and the mandate policy |
| GatewayService.PaymentGateway.Accept | x402/gateway.go:349-358 | verify and decide, and log the decision whatever it is |
| GatewayService.PaymentGateway.Submit | x402/gateway.go:585-601 | submission notifies a failure exactly when it is not reported as successful |
| GatewayService.PaymentGateway.Persist | x402/gateway.go:608-622 | the settlement line is written before anyone is told, and a failed write fails the settlement |
| GatewayService.PaymentGateway.CommitPayment | x402/gateway.go:623-623 | the policy is told of the success and counts the payment |
| GatewayService.PaymentGateway.ListSettlement | x402/gateway.go:624-626 | the settlement joins the list |
| GatewayService.PaymentGateway.StampSettlement | x402/gateway.go:627-643 | the settled line is written, and a deferred payment is kept in flight with the block of its receipt, or block 0 without one |
| GatewayService.PaymentGateway.RecordSettlement | x402/gateway.go:623-643 | the three in a row |
| GatewayService.PaymentGateway.Settle | x402/gateway.go:577-633 | the whole of settle is one submit, journal, commit, list and stamp run of the machine |
| GatewayService.SettleRunEnds | x402/gateway.go:577-646 | that run records exactly one settlement and hands the payment on, or records none and the request is over |
| GatewayService.PaymentGateway.Deliver | x402/gateway.go:681-727 | hand over, or refund, or leave a refund pending on record |
| GatewayService.PaymentGateway.StageNow | x402/gateway.go:784-796 | the stage of a settlement from its depth; a block above the head is an error |
| GatewayService.PaymentGateway.ResumeDeferred | x402/gateway.go:653-674 | a retry, whatever its payload, settles nothing, leaves the in-flight map before delivery, and is served exactly when answered as paid |
| GatewayService.PaymentGateway.VerifyAndSettle | x402/gateway.go:329-371 | one request, start to answer: nothing of it stays active, it is served exactly when answered as paid, and one settlement is recorded exactly when it is paid, waiting or failed to deliver |
| GatewayService.PaymentGateway.RevokeMandate | x402/gateway.go:873-889 | revoke first, then log |
| GatewayService.PaymentGateway.RestoreAccounting | x402/gateway.go:968-1001 | the loop adds each settled decision and revocation of the journal |
| GatewayService.PaymentGateway.AttachJournal | x402/gateway.go:939-960 | settlements, accounts and revocations are rebuilt from the entries |
| Sessions.SessionCharges | x402/session.go:149-245 | for every interleaving spent is price times requests served within the budget, and the payer is charged nothing if the authorization was not executed, what was spent if the refund was, the whole budget otherwise |
| Sessions.SessionsSettleOnce | x402/session.go:198-245 | an authorization is executed for at most one session, and each settled session is one recorded settlement |
| Sessions.NothingAfterSettlement | x402/session.go:155-160 | after its settlement a session never changes again, even for a handle taken before |
| Sessions.DrawsAreInTime | x402/session.go:155-189 | after any run a request is drawn only from an unsettled session and only with more than the margin left before its expiry |
| SessionLaws.OpensExactly | x402/session.go:82-143 | a session opens if and only if refunds are possible and its payment is proper, approved, licensed for the whole budget and below DeferAbove, with one request served and its price spent |
| SessionLaws.CallIsExact | x402/session.go:149-245 | in any reachable state a call on an open session draws, executes, settles and refunds exactly when margin, price, inclusion, token, report and journal decide, moves exactly those values, and leaves exactly that record and those lines; a refund that is included never fails |
| SessionService.SessionGateway.OpenSession | x402/session.go:82-143 | a session opens exactly for a bound, verified authorization that the whole policy chain approves where refunds are possible, and serves its first request; the mandate policy is asked on its live accounts and keeps what it reserves |
| SessionService.SessionGateway.HandleSession | x402/session.go:149-194 | one locked call draws, closes or exhausts, and says which |
| SessionService.SessionGateway.CloseOut | x402/session.go:163-189 | a close leaves the store in any case, a session that ran out only when it settled |
| SessionService.SessionGateway.Settle | x402/session.go:198-245 | the whole budget is settled, journaled, counted and listed, and the unused part refunded or noted as pending, each with its line and every error exit |
| SessionReservations.RefusedOpenReservesIff | x402/session.go:82-122 | an attempt to open a session leaves a reservation if and only if the mandate policy held the payment; it is refused all the same if and only if the budget is at or above DeferAbove |
| SessionReservations.OnlySuccessFrees | x402/session.go:149-229 | a session that is closed or has run out gives up its reservation if and only if its settlement is executed on the token as it stands, reported and written |
| SessionReservations.SessionReservationsExact | x402/session.go:82-245 | over any run of openings, calls and revocations: every reservation is the whole budget of a session that has not settled or of an opening refused for its size, and each of those has one, unless a session has settled under the same mandate and nonce |
| SessionReservations.ReservationStays | x402/policy_mandate.go:386-436 | what is left behind stays through every later operation on other nonces |
| SessionReservations.BudgetIsLost | x402/policy_mandate.go:394-400 | and until its nonce is used again no payment fits the budget that does not fit into the rest of it, at any later time |
| SessionReservations.RefusedOpeningBlocks | x402/session.go:116-122 | a concrete run in which an opening for ten is refused and a later one for one finds no budget, although nothing was paid; without the first it opens |
| Journal.OpenAfterCut | x402/journal.go:106-184 | for any operations and any cut of the file to a byte prefix, open rebuilds exactly the entries and marks of the longest prefix of the operations whose records are whole |
| Journal.SurvivorsLongest | x402/journal.go:65-70 | a prefix of operations survives a cut if and only if its bytes, but for the last newline, fit |
| Journal.AppendAfterCutStandsIff | x402/journal.go:140-143 | an entry appended after a crash is found again if and only if the crash left the file between two lines |
| Journal.LiveIsWritten | x402/journal.go:148-184 | what the journal holds in memory is what its written records say |
| JournalLaws.ReplayReadsTheRecords | x402/journal.go:110-145 | replay reads exactly the records of a file, whatever empty or unparsable lines stand between them and whichever lines end in a return |
| JournalLaws.OverlongLineEndsIt | x402/journal.go:110-145 | a line of the limit or longer ends it: nothing of it and nothing after it is read |
| JournalLaws.OneLineForEach | x402/journal.go:159-184 | whatever is called, the file gets one line for each entry and one for each mark, from the first call on its id that succeeds, and nothing else |
| TableCodec.TableCodecIsGood | x402/journal.go:216-228 | what the journal asks of its line codec can be met: a unary codec over any finite table of records, in place of JSON, meets it |
| TableCodec.TornNewlineLosesBoth | x402/journal.go:140-143 | a concrete file cut before its last newline still reads whole, and loses that entry and the next one once something is appended |
| JournalFile.FileJournal.constructor | x402/journal.go:89-145 | opening replays the whole file, whatever its bytes, skipping empty and unparsable lines and stopping at an overlong one |
| JournalFile.FileJournal.Append | x402/journal.go:159-170 | one line per new id, none for a known one, and memory changes only with the file |
| JournalFile.FileJournal.MarkPublished | x402/journal.go:173-184 | likewise for marks |
| JournalFile.FileJournal.Unpublished | x402/journal.go:187-197 | the entries without a mark, in journal order |
| Outbox.PublishedInOrder | x402/outbox.go:14-60 | over any run of appends, passes with any failures, and crashes between lines, the marked entries are a prefix of the journal and the stream without repeats is that prefix or one entry more |
| Outbox.OnlyNextRedelivered | x402/outbox.go:46-60 | whatever the sink receives, new or again, is the first entry without a mark |
| Outbox.MarkedMeansDelivered | x402/outbox.go:49-60 | an entry is marked only after the sink received it |
| Outbox.CrashKeeps | x402/journal.go:106-145 | a crash between lines loses nothing that was completed |
| Outbox.PassIsRun | x402/outbox.go:49-60 | a pass is a run of the machine, so these hold after every pass |
| OutboxLaws.PassGetsAsFarAs | x402/outbox.go:49-60 | from any reachable state between passes a pass sends and marks the entries without a mark in order up to the first call that fails; an entry whose mark fails has been sent |
| OutboxLaws.QuietPassDrains | x402/outbox.go:49-60 | so after any run a pass in which nothing fails leaves nothing unmarked, and the stream without repeats is the whole journal |
| OutboxLaws.NothingTwiceUnlessLost | x402/outbox.go:49-60 | as long as no mark fails and nothing crashes, whatever else fails, the sink receives nothing twice: the marked entries in order and at most one more |
| Outbox.Publisher.Drain | x402/outbox.go:49-60 | the loop publishes in order and stops at the first failure |

## Left out

- HTTP handlers, headers, JSON, base64 and hex codecs, RPC and Kafka: input and output. A payment that does not decode is one whose `wellFormed` or `bound` flag is false.
- Signatures, EIP-712 digests and hashes: the recovered signer and the validity of mandates and confirmations are parameters.
- Token administration (pause, freeze, allowlist, issuer handover): one step that sets any new controls at all, which allows more than the contract does.
- Block numbers, amounts and times in Go are unbounded integers here; only the 64-bit arithmetic of windows, rate caps and session expiries is modelled, because only there it shows.
- The chain changing while a sync runs: it stands still during one call.
- Concurrent requests with the same nonce and concurrent retries of one deferred payment: `Gateway.Enabled` excludes them.
- A gateway without a journal, and without mandate accounting: the model always has both; a write that fails stands for the missing journal.
- Confirmation histories, risk scores, metrics, receipts, discovery and logging: they do not change what is settled or served.
- Decision tables, grants, identity and eligibility policies: their answers are the arbitrary decisions in the middle of the chain.
- Budgets over a restart: the run bounds of mandates start from a fresh gateway, and the restart theorems say how the restored accounts differ; settling and serving once are proved over any number of restarts.
- Sessions and payments in one machine: `GatewayAccounting.ReservationsExact` is about payments without sessions, `SessionReservations.SessionReservationsExact` about sessions without payments.
- Restart of sessions: they write no settled decision (x402/session.go:227-229), so the restart results exclude them. The pending line of an unexecuted session refund names the full budget, as in the code.
- Partial writes that an error leaves in the middle of the journal file: a failed write leaves no bytes, except in a crash.
- Scheduling of the outbox's ticks and cancellation: any sequence of passes, also interrupted ones.
- The DvP contract and the asset token, the reserve and issuer services, the command-line tools, demos and simulations.
- GatewayPlaces.SettlementsConserved: a gateway without a Deliverer counts a payment as delivered when it passes the request on.
- MandateRestart.RestartKeepsVerdicts: one direction only, because a verdict may agree although a spend straddles; the exact shift of a single check is RestartShiftsVerdict.
- GatewayOutcomes.ConservedOnRecord: for runs in which the refund lines are written; the code goes on when such a line cannot be.
- ParityReplay.FixedWindowNeverStricter: the payments are replayed alone and in one go, from the registration of the mandate; confirmed payments and caps of zero have no counterpart on chain.
- LedgerAgreement.RunAgreesIffNeverSkips: for runs whose merges find their headers; what one that does not leaves is NextSyncAgreesIff.
- GatewayService.LocalFacilitator.Verify: the branch for delivery-versus-payment authorizations is not modelled.
- GatewayService.LocalFacilitator.Settle: nor is it here.
- TableCodec.TableCodecIsGood: a unary codec over a finite table stands in for the JSON lines; that JSON meets the same conditions is not proved.
