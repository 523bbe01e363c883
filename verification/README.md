# Verification of the custody wallet's signing path

This project models the part of the wallet service that must not go wrong between "a client
asks for a signature" and "the transaction is final", and proves what it promises. The model
follows the TypeScript API and the Go signer branch by branch.

* **The transaction lifecycle** (`Lifecycle`). Any number of `requestSign` calls, monitor polls
  and nonce syncs share the nonce counters and the signing-request rows. Each database, signer
  or RPC action is one step; `Next` is total, so every sequence of steps is an interleaving and
  a lemma about `Exec(Init(config), steps)` is a statement about every run of the system. The
  answers of the policy engine, the RPC, the signer and the database (including failures at
  any await) come with the steps. History variables record what was sent, what became of each
  nonce, which request a row was created for, and which rows have ever failed.
* **Why things are as they are** (`Causes`, `Hashes`). A history of the actions that applied ties
  what was sent, and the status of every row, to what the policy, the signer, the RPC and the chain
  have answered, in words of their own rather than the step system's; and the hash a row shows to
  the transactions sent for it.
* **The same code as programs** (`Repositories`, `Service`). The tables are classes updated in
  place; `requestSign`, `poll`, `processRow` and `speedUp` are methods that await through an
  arbitrary schedule of interfering steps. The class invariant says the state is what the step
  system makes of the trace, so every law of the step system holds of the programs. Each method's
  contract gives the steps it appends to the trace, await by await, as a function of the answers
  (which say of each database call whether it throws) and of what its lookups find, and its
  result likewise.
* **Wallet indices** (`WalletIndex`): the count, insert and retry loop under the unique
  constraints, again both as a step system and as a program with its exact trace.
* **RPC failover and fees** (`Rpc`, `ErrorClassifier`, `Fees`, `FeeSafety`).
* **The two ends of the wire** (`Decimal`, `Hex`, `Derivation`, `Requests`, `Signer`,
  `SignerLimits`, `Policy`, `SelectorAgreement`): what the API prints is what the signer reads,
  and the allowlist both enforce is one allowlist.

## Assumptions

Nonce exclusivity and conservation, row completeness, sent-as-requested, duplicate suppression,
one send per key until its row has failed, and the bound on attempts hold of every interleaving.
The other lifecycle claims fail for some interleavings of the code as it stands:
`Counterexamples` derives them, and `Exactness` proves the exact condition on the steps for
ownership, lifecycle, fidelity and budget, each an equivalence over whole runs of the system:

* Row ownership holds throughout if and only if every reset of a failed row, and every stored
  write of a poll, acts on a row no run is at work on; one owner per key, if and only if every
  reset does.
* Lifecycle safety holds besides if and only if those resets and writes set a status the row may
  take; the invariant behind replacement fidelity, if and only if a row is marked broadcasted
  again only while it holds a transaction a run has sent for it.
* The attempts are the recorded replacements throughout if and only if each replacement is
  recorded on a row with as many attempts as the poll read (`Lifecycle.StepCounted`; "while
  replacements are counted" below). The termination of the speed-up and the law of the original
  hash need no more than that.

Simpler conditions imply these. The guard, `Lifecycle.StepGuarded`, looks at one row only: a
reset acts on a row that is still failed, and a poll writes a row that is still broadcasted. An
UPDATE that names the expected status in its WHERE clause, with a check of the row count, would
enforce it. As the code stands it follows, and `StepCounted` with it, from two assumptions about
scheduling, `Lifecycle.StepDisciplined`:

* **A.** The reset of a failed row is atomic with the lookup that found it
  (`libs/wallet/src/wallet.service.ts:317-338` is a find followed by an update).
* **B.** A poll starts only when no poll is active (`setInterval` in
  `libs/monitor/src/transaction-monitor.service.ts:41-44` can overlap them).

Neither can be dropped: `Counterexamples` derives, for every valid request, an interleaving that
keeps B and breaks the claims without A, and ones that keep A and break them without B. In
particular "at most one run per key past the gate" needs B as well as A, since an overlapping
poll can fail a row again while a retry is at work on it.

Taken as given: SHA-256 is injective, so an idempotency key is modelled by its preimage; distinct
derivation indices of one seed have distinct addresses; identifiers made by the database are new.

## Where the code differs from its comments

* `SigningRequestRepository.update` says that passing `undefined` clears a column; it drops the
  field, so nothing is ever cleared. Row completeness rests on that.
* Comments call a nonce reservation permanent; `release` moves the counter down. Exclusivity is
  therefore proved from ownership of each number, not from a monotone counter, and
  `NonceLaws.CounterFloor` says exactly when the counter stays above a synced value.
* `maxDecimalDigits` is called the maximum of a uint256; 78 digits admit larger numbers
  (`Signer.WordOverflowAccepted`).

## What the code does not promise

Even under A and B, and for every valid request:

* A key can be sent twice once its row has failed (`Counterexamples.ResentAfterFailure`); before
  that it cannot (`RowLaws.SentOnceUntilFailed`).
* A replacement is priced from a new quote, so its fees can be below those it replaces
  (`Counterexamples.ReplacementPricedAfresh`); `Fees.BumpExceeds` says exactly when they are not.
* A row shows the hash of the replaced transaction, and counts no attempt, when the update after
  an accepted replacement throws (`Counterexamples.LostWriteKeepsHash`); as long as no such write is
  lost or outstanding it shows that of the last one sent (`Hashes.HashOfLastSend`).
* `original_tx_hash` can belong to an earlier life of a recycled row
  (`Counterexamples.OriginalOfEarlierLife`).

## Model

| member | source | states |
|---|---|---|
| NonceLaws.NonceExclusive | libs/wallet/src/wallet.service.ts:342-440 | In every interleaving, no two requestSign runs hand the RPC transactions with the same wallet, chain and nonce |
| NonceSafety.NonceStep | libs/db/src/repositories/wallet-nonce.repository.ts:23-69 | Every step keeps the ownership invariant: the numbers below a counter have exactly one fate each, held numbers and live holders match one to one, sent numbers and sends match one to one |
| NonceLaws.NonceConservation | libs/db/src/repositories/wallet-nonce.repository.ts:39-69 | Each number below a counter is in exactly one of held, sent, abandoned, skipped; no other number is in any |
| NonceLaws.SettledForever | libs/wallet/src/wallet.service.ts:386-432 | A number sent, abandoned, skipped, or held by a run that has a signature stays below the counter in every continuation, so it is never issued again; the first three fates are final |
| NonceLaws.CounterFloor | libs/db/src/repositories/wallet-nonce.repository.ts:44-68 | The counter stays at or above n in every continuation if and only if some number from n-1 up to the counter is settled; otherwise releases bring it down |
| RowLaws.RowCompleteness | libs/db/src/repositories/signing-request.repository.ts:81-93 | Every signed, broadcasted, confirmed or dropped row, and every row a poll works on, has tx_hash and tx_payload, so the monitor's defensive branches are unreachable |
| RowLaws.SentAsRequested | libs/wallet/src/wallet.service.ts:346-359 | Every transaction ever sent for a row leaves from the row's wallet and chain and carries the to, value, data and chain of the request whose key the row has |
| RowLaws.DuplicateSuppression | libs/wallet/src/wallet.service.ts:255-344 | Until a row first fails exactly one run has got past creating it; only runs past that gate hold nonces for its key; every other run with the key that completes returns that row's id |
| RowLaws.SentOnceUntilFailed | libs/wallet/src/wallet.service.ts:300-340 | In every interleaving, two transactions that requestSign runs have sent are for one row exactly when their runs have one idempotency key, and then that row has been failed: at most one send per key until its row fails |
| Causes.SentWithCause | libs/wallet/src/wallet.service.ts:268-403 | In every interleaving, every transaction ever sent has its cause among the actions that applied: a run's was allowed by the policy, carries the fee quote the run was given, gas limit included, and was signed under its hash; a poll's replaces one that had no receipt although old enough and was in the mempool, carries the new quote with both fees bumped and the gas limit as quoted, and was signed under its hash |
| Causes.SentWithLeave | libs/wallet/src/wallet.service.ts:283-299 | The policy's leave, the fee quote and the signature of whatever a requestSign run has sent are among the steps taken |
| Causes.ClaimedWithLeave | libs/wallet/src/wallet.service.ts:283-340 | Every row was claimed by some run, and every run that claims it asked for what the row was created for, was allowed by the policy and had a fee quote |
| Causes.RefusedStops | libs/wallet/src/wallet.service.ts:288-299 | A run that the policy denied, or that got no quote, has ended in error, claims no row and has sent nothing |
| Causes.StatusHasCause | libs/monitor/src/pending-monitor.service.ts:55-167 | In every interleaving, a confirmed row has had a successful receipt, and shows its block; a dropped row had no receipt and was not found; a failed row shows reason and error class of a failure that befell it (a reverted receipt, a refused or unsigned send, each speed-up failure); a signed row shows hash and signature it was signed with; a broadcasted one was accepted by the RPC |
| Causes.SuccessIsTrue | libs/wallet/src/wallet.service.ts:405-465 | A run that reports success was accepted by the RPC and has marked the row it reports; the nonce and hash it reports are those of a transaction it has sent |
| Causes.DuplicateIsShown | libs/wallet/src/wallet.service.ts:257-266 | A lookup ends the run as a duplicate if and only if a row with its key has not failed, and the result shows that row's id, key, status, hash and nonce |
| KeySafety.FoundIsOurs | libs/wallet/src/wallet.service.ts:257-266 | A row found by a run's key was created for exactly the run's wallet and request |
| LifecycleLaws.LifecycleSafety | libs/monitor/src/pending-monitor.service.ts:55-167 | Under the guard every status change of every step is an allowed one, and confirmed and dropped are absorbing although update writes status unconditionally |
| LifecycleLaws.OneOwnerPerKey | libs/wallet/src/wallet.service.ts:317-344 | Under the guard at most one run per idempotency key is between the gate and its last write to the row |
| LifecycleLaws.OneFinderPerKey | libs/wallet/src/wallet.service.ts:317-331 | Under A and B that holds already from the moment a run has found the failed row |
| Discipline.AssumptionsGuard | libs/monitor/src/transaction-monitor.service.ts:41-44 | A run of the system that keeps to A and B keeps to the guard, and records every replacement on a row with as many attempts as were read, so all laws hold under A and B |
| Exactness.OwnershipExactly | libs/wallet/src/wallet.service.ts:317-338 | Every run is alone on its row, which has the status the run relies on, in every state if and only if every reset and every stored write of a poll acts on a row no run is at work on |
| Exactness.LifecycleExactly | libs/db/src/repositories/signing-request.repository.ts:81-93 | Besides, every status change of every step is an allowed one if and only if those resets and writes set a status their row may take |
| Exactness.OneOwnerExactly | libs/wallet/src/wallet.service.ts:317-344 | At no time are two runs of one key between the gate and their last write to the row if and only if every reset acts on a row no run is at work on; writes of polls do not matter |
| Exactness.FidelityExactly | libs/monitor/src/speed-up.service.ts:198-215 | Rows are owned, and whatever a broadcasted row holds or a poll has read or resent was sent by a run for that row, throughout, if and only if those resets and writes are alone on their rows and a row is marked broadcasted again only while it holds a transaction a run has sent for it |
| Exactness.FaithfulMeans | libs/monitor/src/speed-up.service.ts:66-158 | Under that condition, weaker than the guard, replacement fidelity holds of every transaction ever sent |
| Exactness.BudgetExactly | libs/monitor/src/speed-up.service.ts:203-215 | speed_up_attempts equals the recorded replacements of every row throughout if and only if each replacement is recorded on a row with as many attempts as the poll read |
| Exactness.AssumptionsSafe | libs/monitor/src/transaction-monitor.service.ts:41-44 | Every step of a run of the system that keeps to A and B meets the exact conditions of ownership, lifecycle and fidelity (those of a guarded run do, by GuardedSafe) |
| BudgetLaws.AttemptsWithinMax | libs/monitor/src/speed-up.service.ts:48-64 | In every interleaving no row has more speed_up_attempts than the maximum |
| BudgetLaws.SpeedUpBudget | libs/monitor/src/speed-up.service.ts:198-215 | While replacements are counted, speed_up_attempts equals the recorded replacements over a row's whole life, retries included |
| SpeedUpTermination.RoundRaises | libs/monitor/src/pending-monitor.service.ts:122-166 | While replacements are counted, a whole poll that finds a row stuck (no receipt although old enough, no query throws, its write is stored) raises the attempts of a row that stays broadcasted, whatever runs, syncs and other polls interleave |
| SpeedUpTermination.StuckRowLeaves | libs/monitor/src/speed-up.service.ts:48-64 | While replacements are counted, after more such polls than attempts are left (max + 1 always suffice) the row has been out of broadcasted at some point |
| SpeedUpTermination.StoredWriteCounts | libs/monitor/src/speed-up.service.ts:173-215 | The stored write of any pass takes the row out of broadcasted or raises its attempts by exactly one |
| BudgetLaws.OriginalHashFixed | libs/monitor/src/speed-up.service.ts:198-215 | While replacements are counted, original_tx_hash, once set, never changes, retries included |
| Hashes.ShownHash | libs/monitor/src/speed-up.service.ts:198-215 | Under A and B a broadcasted row shows the hash of the transaction that had been sent last for it when it was last marked broadcasted, by a run or by the record of a replacement |
| Hashes.HashOfLastSend | libs/monitor/src/speed-up.service.ts:198-215 | Under A and B, as long as no write of a poll throws, a broadcasted row for which no write is outstanding shows the hash of the transaction sent last for it |
| Hashes.OriginalWasSent | libs/monitor/src/speed-up.service.ts:198-215 | Under A and B the original_tx_hash of a row is the hash of a transaction a requestSign run sent for it, never that of a replacement |
| LifecycleLaws.ReplacementFidelity | libs/monitor/src/speed-up.service.ts:66-158 | Under the guard all transactions ever sent under one wallet, chain and nonce belong to one signing request and have the same to, value, data and chain |
| Counterexamples.WithoutAtomicReset | libs/wallet/src/wallet.service.ts:317-338 | Without A, though B holds: for every valid request there is an interleaving with two runs of one key past the gate at once |
| Counterexamples.WithOverlappingPolls | libs/monitor/src/transaction-monitor.service.ts:41-44 | Without B, though A holds: for every valid request there is an interleaving in which a confirmed row becomes dropped |
| Counterexamples.OverlappingPollsAdmitTwo | libs/monitor/src/pending-monitor.service.ts:108-114 | Without B, though A holds: for every valid request there is an interleaving with two runs of one key past the gate at once |
| Counterexamples.OverlappingPollsSendUnsent | libs/monitor/src/speed-up.service.ts:198-215 | Without B, though A holds, and with at least two attempts: for every valid request there is an interleaving in which a poll sends, as a replacement, a transaction under a nonce no run has sent |
| Counterexamples.OverlappingPollsMiscount | libs/monitor/src/speed-up.service.ts:203-215 | Without B, though A holds: an interleaving in which two replacements are sent and recorded and the row shows one attempt |
| Counterexamples.OverlappingPollsChangeOriginal | libs/monitor/src/speed-up.service.ts:198-215 | Without B, though A holds: an interleaving in which an original_tx_hash that was set is replaced by another |
| Counterexamples.ResentAfterFailure | libs/wallet/src/wallet.service.ts:405-440 | Under A and B: for every valid request there is a run in which two requestSign runs send the same transaction for one row under different nonces, after the first broadcast failed |
| Counterexamples.ReplacementPricedAfresh | libs/monitor/src/speed-up.service.ts:111-129 | Under A and B: for every valid request and every new quote there is a run in which the replacement carries the bumped quote, each of its fees above the replaced one if and only if the new fee times the percentage exceeds a hundred times it |
| Counterexamples.OriginalOfEarlierLife | libs/monitor/src/speed-up.service.ts:198-215 | Under A and B: for any three hashes there is a run that ends with the row broadcasted under the third and naming the first, of an earlier life, as its original |
| Counterexamples.LostWriteKeepsHash | libs/monitor/src/speed-up.service.ts:198-215 | Under A and B: for every valid request there is a run in which the RPC takes the replacement, the update that records it throws, and the row goes on showing the hash of the replaced transaction |
| Repositories.WalletNonceRepository.Reserve | libs/db/src/repositories/wallet-nonce.repository.ts:23-37 | Upsert: returns the counter (0 if absent) and leaves it one higher; other counters unchanged |
| Repositories.WalletNonceRepository.Release | libs/db/src/repositories/wallet-nonce.repository.ts:39-55 | Rolls the counter back if and only if the nonce is the newest reservation, and says so |
| Repositories.WalletNonceRepository.SyncFromChain | libs/db/src/repositories/wallet-nonce.repository.ts:57-69 | Raises the counter to the chain's value and never lowers it |
| Repositories.SigningRequestRepository.FindByIdempotencyKey | libs/db/src/repositories/signing-request.repository.ts:42-48 | Finds a row if and only if some row's key column holds the key, and then that row |
| Repositories.SigningRequestRepository.FindBroadcasted | libs/db/src/repositories/signing-request.repository.ts:66-72 | Exactly the rows in status broadcasted |
| Repositories.SigningRequestRepository.Create | libs/db/src/repositories/signing-request.repository.ts:74-80 | Inserts if and only if no row has the key or the id, otherwise nothing changes; the index goes on listing exactly the rows |
| Repositories.SigningRequestRepository.Update | libs/db/src/repositories/signing-request.repository.ts:81-93 | The column-by-column loop writes the defined fields of one row and nothing else |
| Service.WalletService.RequestSign | libs/wallet/src/wallet.service.ts:239-465 | The trace grows by exactly the begin of the run and the script of the request: the schedule's steps before each await and the run's own action, or the end of the run where a database call throws, as its answers and lookups determine; the outcome is the script's outcome; success only if the policy allowed it, there was a quote and a signature with the reported hash, and the RPC accepted |
| Service.RequestMeans | libs/wallet/src/wallet.service.ts:342-440 | In that script a nonce is reserved exactly past the gate unless that call throws; then it is released exactly without a signature and sent exactly with one, unless a database call before that throws; the row is marked broadcasted exactly when the outcome is a success |
| Service.DeniedStops | libs/wallet/src/wallet.service.ts:283-299 | A request that the policy denies, or that gets no quote, takes no step but the lookup, the policy's answer and the missing quote, so it writes no row and reserves no nonce; it is answered with a duplicate exactly if it found one, and is an error otherwise |
| Service.RequestAborts | libs/wallet/src/wallet.service.ts:255-440 | A request stops halfway only if one of its database calls throws, and then in error |
| Service.WalletService.PassGate | libs/wallet/src/wallet.service.ts:255-299 | The exact steps of lookup, policy, fees and row creation, any database call of which may throw, and where they leave the run: the duplicate found, an error, or past the gate with its row; past it only if the policy allowed and there was a quote |
| Service.WalletService.ClaimRow | libs/wallet/src/wallet.service.ts:301-340 | Insert if the unique indexes are free at that moment; otherwise the row found decides: return it, reset it if it has failed, or an error if there is none; an error if the insert, the lookup or the reset throws |
| Service.WalletService.SignAndSend | libs/wallet/src/wallet.service.ts:342-440 | The exact steps from the reservation on; without a signature the row fails and the nonce is released, with one the transaction is sent; success carries the number the counter stood at; a throwing database call ends the run in error |
| Service.WalletService.SignFailed | libs/wallet/src/wallet.service.ts:374-395 | Exactly the failing of the row and then, unless that update threw, the release |
| Service.WalletService.Broadcast | libs/wallet/src/wallet.service.ts:397-464 | The exact steps of storing the signature, sending and recording the result; once the signature is stored the row ends broadcasted if the outcome is a success, and failed otherwise unless the failing update itself threw |
| Service.WalletService.SyncNonce | libs/gas/src/gas.service.ts:228-244 | One sync step of the step system |
| Service.WalletService.Poll | libs/monitor/src/pending-monitor.service.ts:27-53 | The trace grows by the start, the scripts of exactly the rows broadcasted at the start, each once, in the order returned, and the end |
| Service.PollPicks | libs/monitor/src/pending-monitor.service.ts:44-53 | In a poll's script a row is picked if and only if it is listed |
| Service.WalletService.ProcessRow | libs/monitor/src/pending-monitor.service.ts:55-139 | The exact steps for one row; and, if its write is stored, the row itself: confirmed in the block of a successful receipt, failed as reverted, failed for want of a hash, dropped when not found, replaced under the new hash with one attempt more, or failed for the reason the speed-up failed; the row is then off the poll's list |
| Service.WalletService.CheckMempool | libs/monitor/src/pending-monitor.service.ts:141-167 | The mempool query, then dropped, the speed-up, or nothing if the query threw; and the row as a stored write leaves it |
| Service.WalletService.SpeedUp | libs/monitor/src/speed-up.service.ts:48-109 | The failing update of the first check that fails (budget, payload, wallet, seed), with its reason and error class in the row if it is stored, or the replacement, or nothing if the wallet or seed lookup throws |
| Service.WalletService.Replace | libs/monitor/src/speed-up.service.ts:111-221 | Quote, sign, send; with a stored write the row is broadcasted under the replacement's hash with one attempt more and the first hash as its original, or failed when the signer or the RPC refused; nothing is written if the quote threw |
| Service.RowWrites | libs/monitor/src/pending-monitor.service.ts:55-167 | A poll writes a row exactly when its answers are decisive: no hash, a receipt, or old enough without one and either not found or at an end of the speed-up; otherwise it leaves the row as it is |
| ServiceLaws.UnderAnySchedule | libs/wallet/src/wallet.service.ts:342-344 | Any service object, after any calls and with any interference, has exclusive nonces among what its runs sent, two sends for one row only if it has been failed, complete published rows, and no row beyond the maximum of attempts |
| ServiceLaws.CausesUnderAnySchedule | libs/wallet/src/wallet.service.ts:239-465 | Any service object, after any calls and with any interference, has sent every transaction, and given every row its status, for a cause as `Causes.SentWithCause` and `Causes.StatusHasCause` have it |
| ServiceLaws.UnderTheGuard | libs/wallet/src/wallet.service.ts:317-344 | A service whose schedule kept to the guard has one owner per key and faithful replacements, and rows once confirmed or dropped are so still |
| ServiceLaws.WhileCounted | libs/monitor/src/speed-up.service.ts:198-215 | A service whose schedule recorded each replacement on a row with as many attempts as were read has attempts equal to recorded replacements |
| WalletIndex.IndicesContiguous | libs/wallet/src/wallet.service.ts:70-158 | Under any interleaving of onboarding and deriveWallet calls the n wallets of an organization have exactly the indices 0 to n-1, with the matching addresses |
| WalletIndex.CreatedIsOwn | libs/wallet/src/wallet.service.ts:126-144 | A successful call returns the address of the wallet it inserted itself; no two calls return the same |
| WalletIndex.GivingUpHasWitnesses | libs/wallet/src/wallet.service.ts:145-157 | A call that gives up had at least three wallets inserted by other calls while it ran |
| WalletIndex.AttemptSucceedsExactly | libs/wallet/src/wallet.service.ts:115-157 | From the count to the insert of one attempt, with other calls acting in between: an address is derived if and only if the count is below 2^32; the insert succeeds if and only if no wallet was inserted since the count; otherwise the first one inserted since, by another call, has the index, and the call counts again unless this was its third attempt |
| WalletIndex.DerivesAlone | libs/wallet/src/wallet.service.ts:86-158 | From any reachable state, a call nobody interferes with makes the next wallet and returns its address, unless there is no seed or there are 2^32 wallets: then it ends in error and changes nothing |
| WalletIndex.OnboardsAlone | libs/wallet/src/wallet.service.ts:56-84 | From any reachable state, an onboarding call nobody interferes with stores its seed and makes the wallet of index 0, unless there is a seed: then it is refused and changes nothing |
| WalletIndex.ConflictExactly | libs/db/src/schema/wallets.ts:37-38 | The unique constraints reject an index if and only if it is below the wallet count |
| WalletIndex.OrgWallets.DeriveWallet | libs/wallet/src/wallet.service.ts:86-162 | The exact steps of the call, and its result as the seed lookup, the counts, the derivations, the inserts and the audit entry determine it, each of which may throw: an error only then, without a seed, or for an index of 2^32 or more; success returns its own new wallet, giving up implies three more wallets |
| WalletIndex.OrgWallets.Create | libs/db/src/repositories/wallet.repository.ts:35-38 | Inserts unless path or address is taken |
| WalletIndex.OrgWallets.Count | libs/db/src/repositories/wallet.repository.ts:27-33 | The index tried is the number of wallets at the time of the count |
| Rpc.RpcClient.RpcCall | libs/gas/src/gas.service.ts:284-335 | One attempt: the first provider that answers, or the last provider's error after all failed; providers are asked in order and each once |
| Rpc.RpcClient.RpcCallWithRetry | libs/gas/src/gas.service.ts:250-282 | The lexicographically first success over attempts and providers, or the final failure's error; no requested success is reported as a failure; at most three times the provider count of requests |
| Rpc.OutcomeUnique | libs/gas/src/gas.service.ts:256-282 | The specification determines the result: one first success or one final failure, never both |
| Rpc.SucceedsExactly | libs/gas/src/gas.service.ts:259-268 | The call succeeds if and only if some provider answers in one of three attempts before which no attempt had every provider fail with a permanent error from the last |
| ErrorClassifier.WrappingKeepsClass | libs/gas/src/error-classifier.ts:7-35 | Wrapping a message never turns a retryable failure into another class or a permanent one into unknown |
| ErrorClassifier.ClassifiesExactly | libs/gas/src/error-classifier.ts:7-35 | Which messages are retryable, permanent and unknown, in any letter case: five marks and six, the retryable ones first |
| Fees.SortTips | libs/gas/src/gas.service.ts:80-80 | Sorts the tips in place: ascending, and a permutation |
| Fees.FetchFeeData | libs/gas/src/gas.service.ts:62-91 | Fails exactly on an empty sample; otherwise the tip is the upper median, the cap twice the projected base fee plus the tip, and the tip within the cap |
| Fees.UpperMedianUnique | libs/gas/src/gas.service.ts:78-82 | A sample has one upper median, whatever the order of its blocks |
| Fees.AscendingMedian | libs/gas/src/gas.service.ts:80-82 | The element at index floor(n/2) of the sorted sample is the upper median |
| Fees.GasBuffer | libs/gas/src/gas.service.ts:57-59 | At least the estimate, and six fifths of it rounded down |
| Fees.BumpIsCeiling | libs/monitor/src/speed-up.service.ts:119-128 | The bump is the least amount not below the exact product |
| Fees.BumpExceeds | libs/monitor/src/speed-up.service.ts:119-128 | The bumped fee is above a given amount if and only if fee times percentage is above a hundred times that amount |
| Fees.BumpRaises | libs/monitor/src/speed-up.service.ts:119-128 | A multiplier of at least one never lowers a fee; it raises it if and only if the fee is positive and the multiplier above one |
| Fees.BumpKeepsCap | libs/monitor/src/speed-up.service.ts:123-128 | Bumping both fees keeps the priority fee within the cap |
| FeeSafety.EverySendCapped | libs/monitor/src/speed-up.service.ts:111-158 | Over whole runs, if every quote keeps the priority fee within the cap, so does every transaction ever sent, as EIP-1559, section "Specification", requires |
| Requests.PreimageInjective | libs/wallet/src/wallet.service.ts:497-500 | For colon-free wallet ids and validated requests, preimages are equal if and only if wallet id, chainId, to, value and data all are |
| Decimal.ValuePrint | libs/gas/src/gas.service.ts:87-90 | Reading a printed number gives the number back |
| Decimal.CanonicalPrint | apps/api/src/wallets/dto/sign-transaction.dto.ts:32-38 | A string the value pattern accepts is the numeral of the number it denotes |
| Decimal.PrintLength | cmd/crypto/handlers.go:416-420 | A number prints in at most k digits if and only if it is below 10^k |
| Signer.PrintedAmount | cmd/crypto/handlers.go:427-436 | A printed amount is accepted if and only if it is in range, and then read as the same number |
| Signer.AmountInRange | cmd/crypto/handlers.go:427-458 | Every accepted amount is at least its least value and below 10^78 |
| Signer.RequestSurvives | cmd/crypto/handlers.go:422-492 | A request the API lets through is refused by the signer exactly for a fee or gas limit out of range; otherwise amounts, address and calldata are read as sent |
| Signer.AcceptsExactly | cmd/crypto/handlers.go:422-492 | For every body: accepted if and only if chain and gas are positive, the three amounts are integers of at most 78 characters in their ranges, signed or not, the address is absent or valid and the calldata absent or whole bytes within the limit; every field of the transaction is then the body's |
| Signer.AcceptedIsSane | cmd/crypto/handlers.go:422-492 | Whatever body comes in, an accepted transaction has chain, gas, amounts in range, an address or none, and calldata that re-encodes to the digits received, bounded in length |
| Signer.WordOverflowAccepted | cmd/crypto/handlers.go:416-420 | The length check admits a number that a 256-bit word cannot hold |
| Hex.EncodeDecode | cmd/crypto/handlers.go:476-476 | Encoding what was decoded gives the lower-case digits |
| Hex.DecodeEncode | cmd/crypto/limits.go:190-190 | Decoding what was encoded gives the bytes |
| Hex.LowerAddressAgrees | cmd/crypto/limits.go:152-154 | The signer's form of a prefixed address is the string in lower case |
| Derivation.ParsesExactly | cmd/crypto/handlers.go:399-411 | The parser accepts exactly the fixed prefix followed by a nonempty digit string below 2^32, and returns that number |
| Derivation.PathRoundTrip | cmd/crypto/handlers.go:194-194 | Parsing a printed path returns the index, for every 32-bit index |
| Derivation.PathInjective | libs/db/src/schema/wallets.ts:38-38 | Distinct indices have distinct paths |
| Derivation.OnboardingPath | libs/wallet/src/wallet.service.ts:74-74 | The literal path of onboarding is that of index 0 |
| SignerLimits.SplitList | cmd/crypto/limits.go:101-113 | The trimmed, non-blank pieces of the list; the early return on a blank list agrees with the loop |
| SignerLimits.EntriesOfJoin | cmd/crypto/limits.go:101-113 | A list written with commas reads back as its entries |
| SignerLimits.ParseUintSet | cmd/crypto/limits.go:115-124 | Succeeds if and only if all entries are 64-bit numbers; the set is what they name |
| SignerLimits.ParseAddressSet | cmd/crypto/limits.go:62-67 | Succeeds if and only if all entries are addresses; the set is their lower-case forms |
| SignerLimits.ParseSelectorSet | cmd/crypto/limits.go:69-75 | Succeeds if and only if all entries are address:selector; the set is their keys |
| SignerLimits.LoadSignerLimits | cmd/crypto/limits.go:42-99 | All or nothing: limits come out if and only if every variable is valid, and are those the environment describes |
| SignerLimits.LimitsUnique | cmd/crypto/limits.go:42-99 | The environment determines the limits |
| SignerLimits.SelectorKeyInjective | cmd/crypto/limits.go:152-154 | Two keys are equal if and only if the addresses are and the selectors are up to letter case |
| SignerLimits.DefaultsFailClosed | cmd/crypto/limits.go:156-199 | An unconfigured signer passes exactly the transactions without value and calldata, with a destination and gas within the default; hash signing is off |
| SignerLimits.PassesExactly | cmd/crypto/limits.go:156-199 | For every valid environment: a transaction passes if and only if value and gas are within the numbers written, its chain is named unless none is, and it either creates a contract, allowed and without calldata, or has a destination that is named unless none is and calldata that is empty or whose first four bytes are named for that destination |
| SignerLimits.SwitchesExactly | cmd/crypto/limits.go:76-86 | Contract creation and hash signing are on if and only if their variable holds one of six texts; a signer with any other text than those, six for off, or none does not start |
| SignerLimits.NumbersAreRead | cmd/crypto/limits.go:42-99 | A limit written as a decimal number is read as that number, up to 78 digits for the value and 64 bits for the gas; unset they are 0 and a million |
| Policy.AddressListMeaning | libs/policy/src/policy.service.ts:136-158 | From the submitted list to the exact verdict: an allowlist passes the destinations it names in any letter case, an empty one all; a blocklist stops exactly those it names |
| Policy.DecisionExactly | libs/policy/src/policy.service.ts:68-235 | From what the operators submitted to the decision: a request is authorised if and only if some active policy covers the wallet and the request is within what was submitted for each that does: its value at most the amount, the instant between the two dates, its destination listed or not, its calldata's selector listed for the destination |
| Policy.SpendLimitMeaning | libs/policy/src/policy.service.ts:163-181 | The amount submitted is stored, and the request passes if and only if it moves at most that amount; the denial names both numbers |
| Policy.TimeLockMeaning | libs/policy/src/policy.service.ts:205-228 | The two texts submitted are stored, denote instants in order, and pass exactly from the first to the second |
| Policy.CalldataMeaning | libs/policy/src/policy.service.ts:183-203 | Less than four bytes of calldata pass; more pass if and only if an entry submitted names destination and selector up to letter case |
| Policy.AcceptedExactly | libs/policy/src/policy.service.ts:273-370 | Which submitted configurations are accepted, for each rule type |
| Policy.UnreadableExactly | libs/policy/src/policy.service.ts:129-235 | A rule fails closed if and only if its stored configuration is not in the form of its type or the type is unknown |
| Policy.ValidatedIsReadable | libs/policy/src/policy.service.ts:129-235 | A configuration that createPolicy stored never evaluates to invalidConfig |
| Policy.ValidateIdempotent | libs/policy/src/policy.service.ts:273-370 | Validation is a normal form: validating what it stored changes nothing |
| Policy.OneMorePolicy | libs/policy/src/policy.service.ts:68-127 | With one more covering policy the request is authorised if and only if that policy allows and, where others covered the wallet, they authorised it: a denial stays a denial |
| Policy.UnrelatedPolicy | libs/policy/src/policy.service.ts:68-127 | A policy that is inactive, another organization's or another wallet's changes no decision |
| Policy.PolicyService.Evaluate | libs/policy/src/policy.service.ts:68-127 | Allowed if and only if some active policy covers the wallet and all that do allow, whatever the listing order; exactly one audit entry that matches the verdict and names the denying policy; never invalidConfig |
| Policy.PolicyService.CreatePolicy | libs/policy/src/policy.service.ts:31-38 | Stores the normal form of a valid configuration, or nothing |
| Policy.PolicyService.DeletePolicy | libs/policy/src/policy.service.ts:44-66 | Deactivates the organization's policy, leaves every other row alone, and audits; refuses a missing or foreign one |
| SelectorAgreement.DecisionsAgree | cmd/crypto/limits.go:181-196 | For one entry list in any letter case, the policy's and the signer's decisions on a validated request agree if and only if its calldata does not have one, two or three bytes |
| SelectorAgreement.OneByteDisagrees | cmd/crypto/limits.go:185-187 | A concrete request with one byte of calldata that an empty policy allowlist passes and the signer refuses under any limits |
| SelectorAgreement.ApiDecision | libs/policy/src/policy.service.ts:182-203 | On calldata of four bytes or more the policy allows if and only if an entry matches destination and selector up to letter case |
| SelectorAgreement.SignerDecision | cmd/crypto/limits.go:134-196 | On calldata of four bytes or more the signer passes under the same condition |
| SelectorAgreement.SelectorOfBytes | libs/wallet/src/wallet.service.ts:278-281 | Decoding, cutting four bytes and encoding is cutting ten characters and lowering them |

## Left out

- Cryptography: key derivation, encryption, signatures and transaction hashes are answers of the signer.
- HTTP, authentication, throttling, message and hash signing, log sanitising: no property of the lifecycle rests on them.
- Timestamps and clocks: whether a row is stuck comes with the receipt answer; columns that only record times, gas used or gas price are not modelled.
- Loading seed and wallet at the start of requestSign, and the audit entry at its end: a failure there is an errored call before the first step or after the last write.
- Service.WalletService.SpeedUp: the wallet and seed lookups are one step, and a failure reason does not carry the error's text.
- Service.WalletService.Poll: the rows come in any order; an overlapping poll is part of the schedule.
- The database's own failure in findBroadcasted ends a poll before its first step; a failed call anywhere else is modelled.
- Process crashes: they only add runs and polls that never act again, which every interleaving already allows.
- The 32-bit width of the nonce and index columns, and JavaScript's 53-bit integers: numbers are unbounded where no check bounds them.
- The RPC's treatment of a transaction: a send counts as sent whatever the provider answered, and one send stands for all retries of the call.
- Rpc.RpcClient.RpcCallWithRetry: delays and timeouts; an unsupported chain, which raises its own error; a failed request is an error whatever its cause.
- Fees.FetchFeeData: quantities are natural numbers; that a quantity can be malformed is not modelled.
- Fees.SortTips: the engine's sorting algorithm is not specified; insertion in place stands for it.
- Fees.Bump: the multiplier is the integer percentage after rounding; a misconfigured one is not modelled.
- Fees.GasBuffer: the rounding of Number above 2^53.
- Letter case is ASCII only, and white space is that of Latin-1.
- Policy.PolicyService.Evaluate: viem's address check, date parsing and the instant of evaluation are parameters; the hash and length of the calldata, which are only audited, are left out.
- Signer.ParseTxFields: JSON decoding of the body is left out; integers outside Go's fields are refused before it.
- WalletIndex.OrgWallets.DeriveWallet: one organization; the user check, label and chain of a wallet are left out.
