# PiX-Pay payment core, modelled in Dafny

This project models the core of PiX-Pay-Integration, a tipping and payment service for Pi coins. It covers these pieces:

- **The ledger backends.** `BlockchainFactory` chooses a backend from `BLOCKCHAIN_MODE`. `SimulatedLedger` is the in-memory simulated ledger: balances read with `|| 1000`, a funds check, then a debit and a credit.
- **Tips.** `TransactionHandler` is `sendTip`. It maps an adapter's outcome to a `{success, ...}` record.
- **The payment pipeline.**
  - `Idempotency`: keys are stored in Redis under `idem:` with a 3600-second expiry.
  - `AuditLog`: a hash-chained, append-only log that starts at `GENESIS`.
  - `PaymentWorker`: the queue's job handler. It sends the transfer through the circuit breaker, then writes an audit record.
  - `PaymentService`: `requestPayment`. It checks the idempotency key, applies the rate limit, enqueues the job, waits, and saves the key.
- **The Pi side.**
  - `PiClient`: the legacy client's simulated chain. Balances default to 0 and there is no funds check.
  - `PiVerifier`: the rule-based coin verifier. It checks the origin, the exchange history and flagged hashes, asks an oracle, keeps learning counters, and runs `regulateTransaction` with its monitoring pass.
- **The X side.**
  - `XClient`: the engagement score and the webhook signature check.
  - `NlpEngine`: `extractKeywords`.

Code that only computes a value becomes functions over datatypes. Objects whose fields the source updates in place become classes with those fields. Each class method is proved equal to a specification function of the old state. The lemmas about those functions state what the source promises.

Primitives that the core calls but does not define are parameters of the model:

- SHA-256 and HMAC-SHA256 (RFC 2104) as hex strings.
- `JSON.stringify`.
- The uuid v4 generator, `Date.now()` and `new Date().toISOString()`.
- `Math.random()`: the oracle's yes or no for each call.
- The Redis clock, as seconds.

The rate limiter and the circuit breaker are their verdicts for the call. `job.waitUntilFinished` is the job's result or its error.

Behaviours of the code worth noting, each stated as a lemma:

- A drained wallet reads the default balance again, because the simulated ledger reads balances with `||`. Reading a balance never stores the default. The drained wallet holds a stored 0, which the read turns into 1000 (`SimulatedLedger.DrainedWalletReadsDefault`, `SimulatedLedger.StoredZeroReadsDefault`).
- The worker writes an audit record only for a successful transfer. A failed one is not audited (`PaymentWorker.FailedTransferIsNotAudited`).
- The idempotency key is saved only when the job finishes. A failed attempt leaves the key free (`PaymentService.FailedJobLeavesKeyFree`).
- An audit log file that exists but holds no line makes the append throw. It does not start at `GENESIS` (`AuditLog.EmptyExistingLogThrows`).
- Backend selection reads `BLOCKCHAIN_MODE`, with modes `sandbox`, `mainnet` and `simulated`. An unset or empty variable and every other value select the simulated backend (`BlockchainFactory.CreateBlockchain`, `BlockchainFactory.UnsetOrEmptyModeIsSimulated`).

The webhook unit test in `tests/unit/x-api.test.js:30-35` expects a mock signature to be accepted. The code rejects it (`XClient.MockSignatureRejected`).

## Model

| member | source | states |
|---|---|---|
| SimulatedLedger.BalanceOf | blockchain/modes/simulated.adapter.js:14-16 | a balance read is never 0; a stored non-zero balance reads as stored |
| SimulatedLedger.Transfer | blockchain/modes/simulated.adapter.js:18-27 | the transfer fails exactly when the sender's balance as read is below the amount, with "Insufficient balance (Simulated)"; on success only `from` and `to` are added to the ledger's keys |
| SimulatedLedger.ReceiptFor | blockchain/modes/simulated.adapter.js:29-33 | a successful transfer's receipt carries the drawn txId, status "confirmed" and network "simulated" |
| SimulatedLedger.UnwrittenWalletReadsDefault | blockchain/modes/simulated.adapter.js:15 | a wallet never written reads 1000 |
| SimulatedLedger.StoredZeroReadsDefault | blockchain/modes/simulated.adapter.js:15 | a stored balance of 0 reads 1000, because `||` treats 0 as falsy |
| SimulatedLedger.TransferMovesAmount | blockchain/modes/simulated.adapter.js:21-27 | between distinct wallets a covered transfer succeeds; it stores the sender's balance minus the amount and the receiver's plus the amount, so their sum is conserved |
| SimulatedLedger.TransferFrame | blockchain/modes/simulated.adapter.js:26-27 | no wallet other than `from` and `to` is added, changed or read differently |
| SimulatedLedger.SelfTransferKeepsBalance | blockchain/modes/simulated.adapter.js:26-27 | a self-transfer of less than the balance leaves the stored balance equal to the balance read |
| SimulatedLedger.SelfTransferOfWholeBalanceMints | blockchain/modes/simulated.adapter.js:21-27 | a self-transfer of the whole balance stores 0, which the credit then reads as 1000, so the wallet gains 1000 |
| SimulatedLedger.DrainedWalletReadsDefault | blockchain/modes/simulated.adapter.js:15-27 | sending a wallet's whole balance to another succeeds, and the drained wallet then reads 1000 |
| SimulatedLedger.SimulatedAdapter.GetBalance | blockchain/modes/simulated.adapter.js:14-16 | returns the balance as `BalanceOf` reads it |
| SimulatedLedger.SimulatedAdapter.SendTransaction | blockchain/modes/simulated.adapter.js:18-34 | on a covered transfer the ledger becomes `Transfer`'s result and the receipt is `{txId, "confirmed", "simulated"}`; otherwise the ledger is unchanged and the error is returned |
| SimulatedLedger.SimulatedAdapter.VerifyTransaction | blockchain/modes/simulated.adapter.js:36-38 | every id is reported as confirmed, with the id echoed |
| BlockchainFactory.Mode | blockchain/modes/blockchain/modes/blockchain/modes/blockchain/blockchain-factory.js:6 | the mode is never empty, and a set, non-empty variable is used as is |
| BlockchainFactory.CreateBlockchain | blockchain/modes/blockchain/modes/blockchain/modes/blockchain/blockchain-factory.js:5-17 | sandbox exactly for "sandbox", mainnet exactly for "mainnet", simulated for every other value and for an unset variable |
| BlockchainFactory.UnsetOrEmptyModeIsSimulated | blockchain/modes/blockchain/modes/blockchain/modes/blockchain/blockchain-factory.js:6 | an unset or empty variable selects the simulated adapter |
| BlockchainFactory.CapitalisedModeIsSimulated | blockchain/modes/blockchain/modes/blockchain/modes/blockchain/blockchain-factory.js:8-16 | matching is case-sensitive: "Sandbox" and "MAINNET" fall through to simulated |
| TransactionHandler.ToTipResult | blockchain/modes/blockchain/modes/blockchain/modes/blockchain/payments/transaction-handler.js:7-20 | success exactly when the adapter returned, carrying its txId and network; otherwise the adapter's error message |
| TransactionHandler.Tip | blockchain/modes/blockchain/modes/blockchain/modes/blockchain/payments/transaction-handler.js:6-21 | the tip succeeds exactly when the sender's balance as read covers the amount; a failed tip leaves the ledger unchanged and reports "Insufficient balance (Simulated)" |
| TransactionHandler.StatusIsNotCarried | blockchain/modes/blockchain/modes/blockchain/modes/blockchain/payments/transaction-handler.js:10-14 | the adapter's `status` does not reach the result |
| TransactionHandler.OverdraftTip | blockchain/modes/blockchain/modes/blockchain/modes/blockchain/payments/transaction-handler.js:15-20 | an overdraft yields `{success: false, error: "Insufficient balance (Simulated)"}` and leaves the ledger unchanged |
| TransactionHandler.CoveredTip | blockchain/modes/blockchain/modes/blockchain/modes/blockchain/payments/transaction-handler.js:8-14 | a covered tip yields success with the txId and network "simulated", and the ledger is the transfer's result |
| TransactionHandler.SendTip | blockchain/modes/blockchain/modes/blockchain/modes/blockchain/payments/transaction-handler.js:6-21 | the new ledger and the result record are those of `Tip`; no error escapes |
| AuditLog.PrevHash | infra/infra/infra/infra/infra/infra/audit-log.js:11-16 | GENESIS without a file, the last record's hash otherwise, and an error exactly for an existing file with no line |
| AuditLog.RecordBody | infra/infra/infra/infra/infra/infra/audit-log.js:18-22 | the record has the entry's keys plus timestamp and prevHash; the computed prevHash wins; every other entry field is kept; the timestamp is used unless the entry carries its own |
| AuditLog.Append | infra/infra/infra/infra/infra/infra/audit-log.js:10-27 | the append fails exactly on an existing empty file, with the JSON parse error; otherwise the file holds one more record |
| AuditLog.AppendAddsOneRecord | infra/infra/infra/infra/infra/infra/audit-log.js:18-26 | the old records are kept as a prefix; the new last record is the timestamped entry linked to the previous tail; its hash is the digest of its serialised fields |
| AuditLog.FirstRecordIsGenesis | infra/infra/infra/infra/infra/infra/audit-log.js:11 | the first record of a new log has prevHash "GENESIS" |
| AuditLog.AppendPreservesChain | infra/infra/infra/infra/infra/infra/audit-log.js:11-26 | appending to a valid chain (each record links to its predecessor and its hash recomputes) succeeds and gives a valid chain |
| AuditLog.EmptyExistingLogThrows | infra/infra/infra/infra/infra/infra/audit-log.js:13-15 | an existing file with no line makes the append throw "Unexpected end of JSON input" |
| AuditLog.AuditLogFile.WriteAudit | infra/infra/infra/infra/infra/infra/audit-log.js:10-27 | the file becomes `Append`'s result, or stays as it was when the append throws, and the error is reported |
| Idempotency.StoreKey | infra/infra/infra/infra/idempotency.js:4 | the Redis key is "idem:" followed by the caller's key, from which the key can be read back |
| Idempotency.Get | infra/infra/infra/infra/idempotency.js:4 | a value is returned exactly for a stored key whose expiry has not passed, and it is the stored value |
| Idempotency.IsDuplicate | infra/infra/infra/infra/idempotency.js:4-5 | the `if (exists)` test; `Check` fails exactly when it holds, and `SavedKeyIsDuplicate`, `ExpiredKeyPasses` and `FreeKeyStaysFree` state when it does |
| Idempotency.Check | infra/infra/infra/infra/idempotency.js:3-6 | fails with "Duplicate transaction detected" exactly when a live, non-empty record is stored under `idem:key` |
| Idempotency.Save | infra/infra/infra/infra/idempotency.js:8-10 | stores the value under `idem:key` to expire 3600 seconds later, and leaves every other key as it was |
| Idempotency.StoreKeyInjective | infra/infra/infra/infra/idempotency.js:4 | distinct keys map to distinct Redis keys |
| Idempotency.SavedKeyIsDuplicate | infra/infra/infra/infra/idempotency.js:3-10 | within 3600 seconds of saving a non-empty result, checking the same key fails |
| Idempotency.ExpiredKeyPasses | infra/infra/infra/infra/idempotency.js:9 | 3600 seconds after the save, the check passes again |
| Idempotency.ResaveRestartsExpiry | infra/infra/infra/infra/idempotency.js:9 | saving again overwrites the value and restarts the 3600 seconds |
| Idempotency.SaveLeavesOtherKeys | infra/infra/infra/infra/idempotency.js:4-9 | saving one key does not change the verdict on any other key |
| Idempotency.FreeKeyStaysFree | infra/infra/infra/infra/idempotency.js:3-6 | a key that passes at one instant passes at every later one while nothing is saved |
| Idempotency.IdempotencyStore.CheckIdempotency | infra/infra/infra/infra/idempotency.js:3-6 | fails with the duplicate error exactly for a live, non-empty record, and changes nothing |
| Idempotency.IdempotencyStore.SaveIdempotency | infra/infra/infra/infra/idempotency.js:8-10 | the store becomes `Save` of the old store |
| PaymentWorker.PaymentEntry | infra/infra/infra/infra/infra/infra/workers/payment.worker.js:19-26 | the audit entry has exactly the fields type, from, to, amount, txId and network, with type "payment" and the receipt's txId and network |
| PaymentWorker.Handle | infra/infra/infra/infra/infra/infra/workers/payment.worker.js:16-29 | a failed job leaves the log unchanged, and the ledger too when the breaker or the funds check rejected it; a successful job returns the simulated receipt and has appended one record |
| PaymentWorker.SuccessfulJobAuditsOnce | infra/infra/infra/infra/infra/infra/workers/payment.worker.js:17-28 | a successful job passed the breaker and made the transfer; it appended exactly one `payment` record with the job's from, to and amount and the receipt's txId and network; it returns the receipt |
| PaymentWorker.FailedTransferIsNotAudited | infra/infra/infra/infra/infra/infra/workers/payment.worker.js:17 | an overdraft fails with the adapter's error and leaves the ledger and the log untouched |
| PaymentWorker.RejectedCallHasNoEffect | infra/infra/infra/infra/infra/infra/workers/payment.worker.js:10-17 | a call the breaker rejects changes neither ledger nor log |
| PaymentWorker.AuditFailureAfterTransfer | infra/infra/infra/infra/infra/infra/workers/payment.worker.js:17-26 | when the audit append throws, the job fails but the transfer has taken effect |
| PaymentWorker.HandlePreservesChain | infra/infra/infra/infra/infra/infra/workers/payment.worker.js:19-26 | whatever the outcome, a valid audit chain stays valid |
| PaymentWorker.HandlePaymentJob | infra/infra/infra/infra/infra/infra/workers/payment.worker.js:16-29 | ledger, log and result are those of `Handle` |
| PaymentService.Request | infra/infra/infra/infra/infra/infra/workers/services/payment.service.js:5-17 | a successful request returns the job's result unchanged; a failed one saves no key; at most the one payload `{from, to, amount}` is added to the queue |
| PaymentService.DuplicateChangesNothing | infra/infra/infra/infra/infra/infra/workers/services/payment.service.js:7 | a duplicate key fails before the limiter is charged or a job is added |
| PaymentService.FreshKeyChargesSender | infra/infra/infra/infra/infra/infra/workers/services/payment.service.js:8 | a fresh key charges the limiter once, for the sender |
| PaymentService.RateLimitedAddsNoJob | infra/infra/infra/infra/infra/infra/workers/services/payment.service.js:8-10 | a rate-limit rejection adds no job, saves no key and reports the limiter's message |
| PaymentService.AcceptedRequestEnqueuesPayload | infra/infra/infra/infra/infra/infra/workers/services/payment.service.js:10 | an accepted request adds exactly `{from, to, amount}` to the queue |
| PaymentService.FailedJobLeavesKeyFree | infra/infra/infra/infra/infra/infra/workers/services/payment.service.js:12-14 | a failed job saves nothing, returns its error, and the key passes later checks |
| PaymentService.FinishedJobSavesKey | infra/infra/infra/infra/infra/infra/workers/services/payment.service.js:12-16 | a finished job's result is saved under the key and returned unchanged; the same request within 3600 seconds is a duplicate and changes nothing |
| PaymentService.EndToEndTip | infra/infra/infra/infra/infra/infra/workers/services/payment.service.js:5-17 | 100 from A to B on a fresh ledger and log leaves A at 900 and B at 1100, writes one `payment` record with the txId and prevHash GENESIS, and returns the `simulated` receipt |
| PaymentService.WalletLimiter.LimitWallet | infra/infra/infra/infra/infra/infra/workers/services/payment.service.js:8 | charges the wallet and rejects with "Too many transactions from this wallet" when the limiter refuses |
| PaymentService.PaymentQueue.Add | infra/infra/infra/infra/infra/infra/workers/services/payment.service.js:10 | the payload is added at the end of the queue |
| PaymentService.RequestPayment | infra/infra/infra/infra/infra/infra/workers/services/payment.service.js:5-17 | the idempotency store, the limiter's charges, the queue and the result are those of `Request` |
| PiClient.BalanceOf | pi-integration/pi-client.js:38 | the `?.balance \|\| 0` read; `UnknownUserReadsZero` and `TransferMovesAmount` state its values |
| PiClient.WithBalance | pi-integration/pi-client.js:50-51 | sets the user's balance and keeps the entry's other fields; other users are untouched |
| PiClient.Transfer | pi-integration/pi-client.js:50-51 | only `from` and `to` are added to the chain; `TransferMovesAmount`, `SenderCanGoNegative` and `SelfTransferKeepsBalance` state the balances |
| PiClient.UnknownUserReadsZero | pi-integration/pi-client.js:38 | an unknown user reads balance 0 |
| PiClient.TransferMovesAmount | pi-integration/pi-client.js:45-53 | between distinct users the amount moves, their sum is conserved, other users are untouched, and both entries keep their other fields |
| PiClient.SenderCanGoNegative | pi-integration/pi-client.js:50 | there is no funds check: an unknown sender goes to minus the amount |
| PiClient.SelfTransferKeepsBalance | pi-integration/pi-client.js:50-51 | a transfer to oneself leaves the balance unchanged |
| PiClient.PiClient.GetBalance | pi-integration/pi-client.js:34-43 | the stored balance, or 0 for an unknown user |
| PiClient.PiClient.InitiateTransaction | pi-integration/pi-client.js:45-58 | the chain becomes `Transfer` of the old chain and the payment is `{id, amount, "completed"}` |
| PiVerifier.HasExchangeHistory | src/ai/pi-verifier.js:27 | the `some` scan; `HasExchangeHistoryIff` proves it equal to "some step is suspicious" |
| PiVerifier.HasExchangeHistoryIff | src/ai/pi-verifier.js:27 | the history is suspicious exactly when some step is from or to "exchange" or marked unverified |
| PiVerifier.AfterRejection | src/ai/pi-verifier.js:81-86 | the counter for the kind goes up by one, and every other counter and field is unchanged |
| PiVerifier.AfterSuccess | src/ai/pi-verifier.js:75-79 | the origin's success count goes up by one (starting from 0) and the hash is appended; other origins and fields are unchanged |
| PiVerifier.AfterOracle | src/ai/pi-verifier.js:70 | the oracle record for the coin becomes `{confirmed: reply, value: 314159}`; other records and fields are unchanged |
| PiVerifier.AfterFlag | src/ai/pi-verifier.js:106-108 | the hash's entry becomes `{flagged: flag}` and is flagged exactly when `flag` is true; only that key is added, other entries and fields are unchanged |
| PiVerifier.Verify | src/ai/pi-verifier.js:17-51 | an accepted coin has an allowed origin, a clean history and an oracle yes; it is valued at 314159 and carries the hash of its whole serialised history; a rejected coin is valued at 0 |
| PiVerifier.InvalidOriginRejectedFirst | src/ai/pi-verifier.js:21-24 | an origin outside {mined, reward, p2p} is rejected with its reason, and only `invalid_origin` is counted |
| PiVerifier.ExchangeHistoryRejected | src/ai/pi-verifier.js:27-31 | any suspicious step rejects an allowed-origin coin and counts `exchange_involved` |
| PiVerifier.FlaggedHistoryRejected | src/ai/pi-verifier.js:34-38 | a history whose hash is flagged is rejected and counts `flagged_hash` |
| PiVerifier.OracleDeclineLearnsNothing | src/ai/pi-verifier.js:41-44 | an oracle "no" rejects the coin and records the reply; the ledger and the counters are unchanged |
| PiVerifier.AcceptedCoinIsRecorded | src/ai/pi-verifier.js:46-50 | an accepted coin is entered as verified at 314159 with the time; its origin's successes and hashes grow by one |
| PiVerifier.FlagThenUnflag | src/ai/pi-verifier.js:106-108 | flagging a history's hash makes it fail the flag check; unflagging it lets it verify |
| PiVerifier.FlagIsPerHash | src/ai/pi-verifier.js:34-38 | flagging one history's hash leaves the verdict on any history with a different hash unchanged; each step's full serialisation is part of the history |
| PiVerifier.ToRegulation | src/ai/pi-verifier.js:93-98 | status "accepted" exactly for an accepted coin and "rejected" otherwise; reason "Verified" on acceptance; the value is carried |
| PiVerifier.RegulateLoop | src/ai/pi-verifier.js:90-99 | the loop yields one result per coin |
| PiVerifier.RegulateLoopPrefix | src/ai/pi-verifier.js:90-99 | one result per coin, and the results for a prefix of the coins are a prefix of the results |
| PiVerifier.RegulateLoopResults | src/ai/pi-verifier.js:91-99 | result i reports coin i verified against the state that the coins before it left |
| PiVerifier.MonitorLoop | src/ai/pi-verifier.js:54-64 | monitoring fails only with the error from the undefined `flagTransaction`; `MonitorPassesIffAllAccepted` and `MonitorStopsAtFirstRejection` state when it fails and what state it leaves |
| PiVerifier.MonitorPassesIffAllAccepted | src/ai/pi-verifier.js:54-64 | monitoring passes exactly when every transaction verifies against the state the ones before it left, and then leaves the state of verifying them all |
| PiVerifier.MonitorStopsAtFirstRejection | src/ai/pi-verifier.js:56-62 | a failing pass stops at the first rejected transaction: every earlier one was accepted, the state is the one verifying the rejected transaction left, and no later transaction is verified |
| PiVerifier.Regulate | src/ai/pi-verifier.js:89-103 | no coins gives the `piCoins[0].id` error; a returned list has one result per coin; the only errors are that one and the `flagTransaction` error |
| PiVerifier.RegulateReturnsOnePerCoin | src/ai/pi-verifier.js:89-103 | when it returns, there is one result per coin in order, "accepted" exactly when that coin verified, with reason "Verified" and value 314159 |
| PiVerifier.RegulateMonitorsFirstCoin | src/ai/pi-verifier.js:100-102 | with coins given, the call throws the `flagTransaction` error exactly when monitoring is on and verifying the first coin once more, against the state the loop left, is rejected |
| PiVerifier.InvalidFirstOriginThrows | src/ai/pi-verifier.js:89-103 | with monitoring on, a first coin whose origin is not allowed always makes the call throw |
| PiVerifier.NoCoinsThrows | src/ai/pi-verifier.js:101 | an empty coin list throws when reading `piCoins[0].id` |
| PiVerifier.PiVerifier.LearnFromRejection | src/ai/pi-verifier.js:81-86 | the state becomes `AfterRejection` of the old state |
| PiVerifier.PiVerifier.LearnFromSuccess | src/ai/pi-verifier.js:75-79 | the state becomes `AfterSuccess` of the old state |
| PiVerifier.PiVerifier.ConfirmWithOracle | src/ai/pi-verifier.js:67-72 | records the oracle's reply with the stable value and returns it |
| PiVerifier.PiVerifier.VerifyPiOrigin | src/ai/pi-verifier.js:17-51 | the state and the verdict are those of `Verify`, the flag lookup keyed by the hash of every step's full serialisation |
| PiVerifier.PiVerifier.MonitorTransactions | src/ai/pi-verifier.js:54-64 | when inactive nothing changes; otherwise the state and the outcome are those of `MonitorLoop`, which fails exactly when some transaction is rejected |
| PiVerifier.PiVerifier.RegulateTransaction | src/ai/pi-verifier.js:89-103 | the state and the result are those of `Regulate` |
| PiVerifier.PiVerifier.FlagSource | src/ai/pi-verifier.js:106-108 | the hash's ledger entry becomes `{flagged: flag}`; a call that omits `flag` is modelled by passing true |
| PiVerifier.PiVerifier.GetStableValue | src/ai/pi-verifier.js:111-113 | always 314159 |
| XClient.TweetScore | x-api/x-client.js:56 | a tweet's likes plus retweets, a missing count or missing metrics counting 0; `EngagementIsTotal` sums it |
| XClient.Reduce | x-api/x-client.js:56 | the left fold; `ReduceAddsTotal` proves it adds the tweets' total to its start value |
| XClient.CalculateEngagement | x-api/x-client.js:55-57 | `EngagementIsTotal` and `EngagementAdditive` state its value |
| XClient.TotalScore | x-api/x-client.js:56 | the independent reference sum that the fold is proved equal to |
| XClient.ReduceAddsTotal | x-api/x-client.js:56 | the fold adds the sum of the tweets' likes and retweets to its start value |
| XClient.EngagementIsTotal | x-api/x-client.js:55-57 | engagement is the sum of likes and retweets over all tweets, a missing count counting 0, and 0 for no tweets |
| XClient.EngagementAdditive | x-api/x-client.js:55-57 | engagement of a concatenation is the sum of the engagements |
| XClient.OneTweetScores15 | tests/unit/x-api.test.js:37-41 | one tweet with 10 likes and 5 retweets scores 15 |
| XClient.HandleWebhook | x-api/x-client.js:45-53 | accepted exactly when the signature is "sha256=" followed by the HMAC of the serialised payload; it then returns `{processed: true, event: payload}`, and otherwise throws "Invalid webhook signature" |
| XClient.UnprefixedSignatureRejected | x-api/x-client.js:46-49 | a signature without the "sha256=" prefix is rejected whatever the secret |
| XClient.MockSignatureRejected | tests/unit/x-api.test.js:30-35 | the mock signature "test_signature" is rejected |
| NlpEngine.ExtractKeywords | src/ai/nlp-engine.js:35-39 | `KeywordsAreTheLongTokens`, `KeywordsAreCleanWords` and `ExtractIdempotent` state what it returns |
| NlpEngine.Lower | src/ai/nlp-engine.js:37 | same length, each character lowercased by `LowerChar` |
| NlpEngine.SplitFrom | src/ai/nlp-engine.js:37 | `split(/\s+/)` from a partly read token; `SplitTokensAreClean` and `SplitJoin` state its tokens |
| NlpEngine.Split | src/ai/nlp-engine.js:37 | `split(/\s+/)`; `SplitJoin` proves it inverts joining by single spaces |
| NlpEngine.LongWords | src/ai/nlp-engine.js:37 | the length filter; `LongWordsMembers` states exactly what it keeps |
| NlpEngine.Dedup | src/ai/nlp-engine.js:38 | the Set spread; `DedupMembers`, `DedupDistinct` and `DedupFirstOccurrenceOrder` state its result |
| NlpEngine.LowerChar | src/ai/nlp-engine.js:37 | an upper-case ASCII letter becomes its lower-case partner (code + 32), every other character is kept, and whitespace is preserved |
| NlpEngine.LongWordsMembers | src/ai/nlp-engine.js:37 | the filter keeps exactly the words longer than 3 |
| NlpEngine.DedupMembers | src/ai/nlp-engine.js:38 | the Set spread keeps exactly the words of its input |
| NlpEngine.DedupDistinct | src/ai/nlp-engine.js:38 | the Set spread has no repeats |
| NlpEngine.DedupKeepsDistinct | src/ai/nlp-engine.js:38 | a list without repeats comes back unchanged |
| NlpEngine.DedupFirstOccurrenceOrder | src/ai/nlp-engine.js:38 | words come out in the order of their first occurrence |
| NlpEngine.SplitTokensAreClean | src/ai/nlp-engine.js:37 | split tokens of any text contain no whitespace, and no upper-case letter when the text has none |
| NlpEngine.SplitJoin | src/ai/nlp-engine.js:37 | splitting non-empty, space-free words joined by single spaces gives the words back |
| NlpEngine.KeywordsAreTheLongTokens | src/ai/nlp-engine.js:35-39 | a word is a keyword exactly when it is a token of the lowercased text longer than 3; there are no repeats, and the order is that of first occurrence |
| NlpEngine.KeywordsAreCleanWords | src/ai/nlp-engine.js:35-39 | every keyword is longer than 3, lower-case and free of whitespace |
| NlpEngine.ExtractIdempotent | src/ai/nlp-engine.js:35-39 | extracting from the keywords joined by spaces gives the same keywords |

## Left out

- The sandbox and mainnet adapters call remote APIs. They are not part of this model; the factory's choice of them is.
- Foreign primitives are parameters: SHA-256, HMAC-SHA256, `JSON.stringify`, uuid v4, the clocks and `Math.random()`. Key order in the JSON text is abstracted into the `json` parameter.
- The circuit breaker, the BullMQ queue and the rate limiter are reduced to their verdict for a call. Timeouts, retries, backoff, breaker state and the limiter's points and window are not modelled.
- Concurrency is not modelled. Each call is modelled as atomic: interleaved `await`s, concurrent audit appends and concurrent idempotency checks are left out.
- Logging (winston, `console.log`) has no effect on the modelled state and is left out. So is `initialize`.
- `PiClient.calculateMiningReward` computes in floating point and is left out. `authenticateUser` only logs and returns a random token, and is left out too.
- `PiVerifier.getInsights` is left out. It returns the learning model object itself plus the sizes of the ledger and the oracle records, and changes nothing. `learnFromRejection`'s `data` argument and `regulateTransaction`'s `transactionType` are unused by the source.
- `XClient.getUserTweets` and `sendDirectMessage` call the X API and are left out. `NlpEngine.analyzeSentiment` and `summarizeContent` call ML services and are left out.
- XClient.HandleWebhook: the secret is a string parameter. The case of an unset `X_WEBHOOK_SECRET`, where `createHmac` throws, is not modelled.
- NlpEngine.LowerChar: lowercases ASCII letters only. `toLowerCase` also folds non-ASCII letters.
- NlpEngine.Split: `IsSpace` knows the ASCII whitespace characters only. `\s` also matches Unicode spaces such as U+00A0 and U+2028, so `SplitFrom` and `Split` keep those inside a token where the source splits on them.
- NlpEngine.LongWords: counts `char`s, while `word.length` counts UTF-16 code units. The two differ for characters outside the Basic Multilingual Plane.
- Idempotency.Get: the Redis clock is whole seconds, and a key is treated as expired exactly at save time plus 3600. Redis's sub-second expiry precision is not modelled.
- SimulatedLedger.Transfer: amounts are unbounded integers. The source's JavaScript numbers are floats: fractional amounts, string amounts and rounding are not modelled.
- PiClient.Transfer: the same as for `SimulatedLedger.Transfer`; amounts are unbounded integers.
- PiVerifier.Verify: `answer` stands for the oracle's random draw, and `historyHash` for the SHA-256 of the serialised history. The reply is an input, so the 95% rate is not modelled. Each history step carries its own serialisation, and the hash is taken over the whole history, so two histories that differ in any field are different arguments to the hash. The hash is not assumed to be free of collisions.
- PiVerifier.PiVerifier.LearnFromSuccess: the source keeps the rejection counters inside the learning model, under the key `rejections`. The model keeps them in a separate map. A direct call with origin "rejections" after a rejection would make the source throw when it pushes to `hashes`, and the model does not capture that. `verifyPiOrigin` never makes this call, because "rejections" is not an allowed origin.
- PiVerifier.PiVerifier.FlagSource: `flag` defaults to true in the source. The model takes it as a required argument, so an omitted `flag` is modelled by passing true.
