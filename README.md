# habit-cashback, modelled in Dafny

habit-cashback is a deposit-and-refund habit service. A user pays a deposit for a challenge and submits one proof a day (a photo or a steps hash). When the challenge period is over the deposit is refunded or kept. Points payouts go through the Toss promotion API.

This project models the parts of the Go backend that decide outcomes:

- **Challenge and settlement lifecycle** (`backend/internal/store/store.go`), module `SettlementStore`. The relational tables are a class `Store` holding maps: users, payments, participations, proofs, settlements, idempotency keys and revoked sessions. Each store call is a method proved against value-level functions. The daily resolver `CloseExpired` and the settlement propagation `Propagate` keep the schema constraints (`LifecycleTables`); both are idempotent, and neither reopens a terminal participation.
- **Batch worker** (`backend/cmd/worker/main.go`), module `Worker`. It covers the next-run rule of a daily job, the `-job` dispatch, and the run-all order over a `Store`.
- **Provider-facing payment and payout handlers** (`backend/internal/server/server.go`, over `backend/internal/store/postgres/postgres.go`), modules `Server` and `PostgresStore`. Each handler is a spec function; the state is the Postgres tables, and the provider is an oracle. A method runs the same steps on a `Postgres` object, calling the provider and recording the requests it sent. The replay, failure and success paths of the idempotency protocol are lemmas.
- **The Toss partner-API calls** (`backend/internal/toss/promotion.go`, `pay.go`), module `TossClient`. It covers the headers each call sets and how each resolves the `success`/`result`/`resultType` envelope.
- **Toss Login** (`backend/internal/toss/ait_client.go`), module `TossLogin`. It covers referrer normalisation, the refusal of blank inputs, and the acceptance rule for a login response.
- **In-memory guards of the standalone API** (`backend/cmd/api/main.go`):
  - module `ApiGuards`: the idempotency-key store with expiry, the revoked-subject store, the fixed-window rate limiter, and CORS origin parsing and matching;
  - module `Session`: the `sv1.<payload>.<sig>` session token and the `auth` middleware.
- **The payment package** (`backend/internal/payment/`), modules `MockPayment` and `Payment`. It covers the mock provider's per-token state machine (absent, CREATED, SUCCESS), error values and their text, and the choice of implementation from `APP_ENV`.
- **Proof validation** (`backend/internal/proof/validator.go`), module `ProofValidator`. It covers data-URL stripping, the photo window with a one-day buffer on each side, the Valid/Errors bookkeeping, and steps proofs.

Shared modules:

- `Wrappers` holds Option, Result and bytes.
- `Text` holds Go's `strings.TrimSpace` (with Go's white-space set), ASCII `ToUpper`/`ToLower`, `HasPrefix`, `TrimPrefix`, `Index`, `Split` and `Join`, with their laws.

Time, randomness and foreign code are parameters:

- Instants are integers: Unix seconds, or days for `time.Now().Truncate(24h)`.
- Random suffixes and UUIDs are strings passed in.
- JSON, base64, HMAC-SHA256, SHA-256, EXIF reading and the HTTP transport are functions passed in.

The code contains two store lineages that do not fit together: the concrete `store.Store` of `store.go`, and the interface the server expects, implemented by `postgres.go`. They are modelled separately and never merged.

## Model

| member | source | states |
|---|---|---|
| SettlementStore.Enrol | backend/internal/store/store.go:237-262 | The participation and settlement inserts of ExecutePayment's transaction. EnrolOncePerDay, EnrolWindow and InsertParticipationKeeps carry its promises. |
| SettlementStore.CloseExpired | backend/internal/store/store.go:523-568 | The participations after CloseExpiredParticipations. CloseExpiredEffect, CloseExpiredKeepsTerminal, CloseExpiredIdempotent and CloseExpiredKeeps carry its promises. |
| SettlementStore.Propagate | backend/internal/store/store.go:578-594 | The settlements after UpdateSettlementStatuses. PropagateEffect, PropagateIdempotent and PropagateKeeps carry its promises. |
| SettlementStore.PurgeIdempotency | backend/internal/store/store.go:599-610 | The idempotency table after CleanupExpiredIdempotencyKeys. PurgeKeepsLiveKeys carries its promises. |
| SettlementStore.PurgeRevocations | backend/internal/store/store.go:613-625 | The revocations after CleanupOldRevokedSessions. PurgeRevocationsEffect carries its promises. |
| SettlementStore.EnrolOncePerDay | backend/internal/store/store.go:237-262 | A second enrolment of a user in the same challenge on the same day inserts neither a participation nor a settlement: at most one participation per (user, challenge, start date). |
| SettlementStore.EnrolWindow | backend/internal/store/store.go:237-262 | An enrolment that inserts creates an active participation running from today to today + days − 1 with no proofs, and a running, non-refundable settlement whose deposit is the payment amount. |
| SettlementStore.ProofCountAfterUpsert | backend/internal/store/store.go:361-387 | A same-day resubmission leaves the recount unchanged. A proof on a new day raises it by one. Other participations' counts do not move. |
| SettlementStore.ResolveEach | backend/internal/store/store.go:553-568 | The row-by-row update loop resolves exactly the selected participations, and its processed count is their number. |
| SettlementStore.CloseExpiredByResolveAll | backend/internal/store/store.go:523-568 | Selecting the active, expired participations and resolving each of them gives the closed table, and terminal rows stay as they were. |
| SettlementStore.CloseExpiredEffect | backend/internal/store/store.go:523-568 | An active participation that ended before today becomes success iff its proof count reaches the challenge length, else failed. Every other participation is unchanged. |
| SettlementStore.CloseExpiredKeepsTerminal | backend/internal/store/store.go:523-568 | Closing never reopens or flips a success or failed participation. |
| SettlementStore.CloseExpiredIdempotent | backend/internal/store/store.go:523-568 | After closing, nothing is left to close on the same day, and closing again changes nothing. |
| SettlementStore.PropagateEffect | backend/internal/store/store.go:578-594 | A running settlement whose participation is terminal copies that status, with refundable iff success. Any other settlement is unchanged. |
| SettlementStore.PropagateIdempotent | backend/internal/store/store.go:578-594 | After propagation no row qualifies for it, and a second run changes nothing. |
| SettlementStore.InsertParticipationKeeps | backend/internal/store/store.go:237-262 | Inserting a fresh participation with its running settlement keeps the schema constraints: unique triples, one settlement per participation, counts equal to accepted proofs. |
| SettlementStore.UpsertProofKeeps | backend/internal/store/store.go:361-387 | The proof upsert plus the recount keeps the schema constraints. |
| SettlementStore.CloseExpiredKeeps | backend/internal/store/store.go:523-568 | The resolver keeps the schema constraints. |
| SettlementStore.PropagateKeeps | backend/internal/store/store.go:578-594 | Propagation keeps the schema constraints, and settled rows agree with their participation. |
| SettlementStore.PurgeKeepsLiveKeys | backend/internal/store/store.go:599-610 | The idempotency cleanup deletes only rows already past expiry, never changes whether a key is live, and keeps the rows it leaves unchanged. |
| SettlementStore.PurgeRevocationsEffect | backend/internal/store/store.go:613-625 | A revocation survives the cleanup iff it is within the 30-day retention period, and it is then unchanged. |
| SettlementStore.Store.GetOrCreateUser | backend/internal/store/store.go:66-79 | A known toss user key keeps its id and the table; a new key gets the next serial id. |
| SettlementStore.Store.CreatePayment | backend/internal/store/store.go:190-203 | Inserts a created payment under a new order number. An order number already present is an error and changes nothing. |
| SettlementStore.Store.ExecutePayment | backend/internal/store/store.go:206-269 | A missing or non-created payment is an error and nothing changes. A created one becomes done, and the participation and settlement tables become those given by the single-enrolment rule. |
| SettlementStore.Store.StartParticipation | backend/internal/store/store.go:237-262 | The two inserts of the transaction, with insert-on-conflict-do-nothing on the participation, and the settlement inserted only when the participation was. |
| SettlementStore.Store.GetActiveParticipation | backend/internal/store/store.go:155-174 | Finds a participation iff an active one of this user and challenge covers today, and returns such a participation. |
| SettlementStore.Store.SubmitProof | backend/internal/store/store.go:342-390 | Without an active participation covering today it fails and writes nothing. Otherwise it upserts the day's proof and stores the recount, leaving terminal participations as they were. |
| SettlementStore.Store.UpsertProof | backend/internal/store/store.go:361-387 | The upsert on (participation, day) replaces the hash of a same-day proof or adds a new row, and then proof_count is the number of accepted proof days. |
| SettlementStore.Store.CheckDuplicateProofHash | backend/internal/store/store.go:302-319 | Finds a proof iff some proof with that hash belongs to a different user, and returns one such proof. |
| SettlementStore.Store.CheckSameUserDuplicateHash | backend/internal/store/store.go:322-339 | Finds a proof iff some proof with that hash belongs to the same user, and returns one such proof. |
| SettlementStore.Store.CheckIdempotency | backend/internal/store/store.go:450-461 | True exactly while the key exists and its expiry is still in the future. |
| SettlementStore.Store.SetIdempotency | backend/internal/store/store.go:464-475 | An existing (scope, key) is never overwritten; a new one is stored with expiry now + ttl. |
| SettlementStore.Store.RevokeSession | backend/internal/store/store.go:480-491 | An upsert on the subject: one row, with the latest reason and time. |
| SettlementStore.Store.IsSessionRevoked | backend/internal/store/store.go:494-505 | Plain membership of the subject in the revoked table. |
| SettlementStore.Store.CloseExpiredParticipations | backend/internal/store/store.go:518-571 | The participation table becomes the closed table, the processed count is the number of expired rows, and terminal rows are kept. |
| SettlementStore.Store.UpdateSettlementStatuses | backend/internal/store/store.go:574-596 | The settlement table becomes the propagated table, and the count is the number of rows updated. |
| SettlementStore.Store.CleanupExpiredIdempotencyKeys | backend/internal/store/store.go:599-610 | The idempotency table loses exactly its expired rows, and the count is their number. |
| SettlementStore.Store.CleanupOldRevokedSessions | backend/internal/store/store.go:613-625 | The revoked table loses exactly the revocations older than 30 days, and the count is their number. |
| Worker.NextRun | backend/cmd/worker/main.go:110-115 | The next run of runDailyJob: today's slot, or tomorrow's once it has passed. NextRunBounds and NextRunEarliest carry its promises. |
| Worker.ParseJob | backend/cmd/worker/main.go:79-92 | The job named on the command line, or none for an unknown name. ParseJobExactlyNames carries its promises. |
| Worker.NextRunBounds | backend/cmd/worker/main.go:110-115 | For a valid hour and minute the wait is at least zero and under a day, and the next run falls on that time of day. |
| Worker.NextRunEarliest | backend/cmd/worker/main.go:110-115 | The next run is the earliest instant not before now at that time of day. |
| Worker.ParseJobExactlyNames | backend/cmd/worker/main.go:79-92 | The dispatch accepts exactly the five job names, each naming its own job; any other name is the fatal unknown-job case. |
| Worker.RunAllOrderComplete | backend/cmd/worker/main.go:100-104 | The run-all order contains every job exactly once, with close first and update second. |
| Worker.DailyCloseBeforeUpdate | backend/cmd/worker/main.go:65-66 | On any day the 00:05 close run comes before the 00:10 update run. |
| Worker.CloseThenUpdateSettles | backend/cmd/worker/main.go:100-104 | Closing and then updating settles every running settlement of an expired participation with its verdict, so propagation sees the statuses just written. |
| Worker.ThreeDayChallenge | backend/internal/store/store.go:523-594 | A three-day challenge with three proofs settles as success and refundable; with two, as failed and not refundable. |
| Worker.RunAllJobs | backend/cmd/worker/main.go:95-106 | After a one-shot run, participations are closed, settlements propagated over the closed statuses, and both cleanups done; users, payments and proofs are unchanged. |
| Worker.RunJob | backend/cmd/worker/main.go:75-93 | A known name runs only its own job and changes only that job's table. An unknown name is reported and changes nothing. |
| Server.NormalizeResultType | backend/internal/server/server.go:418-429 | Always SUCCESS, FAIL or PENDING. SUCCESS iff the upper-cased type is SUCCESS; FAIL iff it is FAIL, EXECUTION_FAIL or INTERNAL_ERROR; PENDING otherwise. |
| Server.NormalizeResultTypeFixedPoints | backend/internal/server/server.go:418-429 | The three classes are fixed points, so classifying twice is classifying once. |
| Server.NormalizeResultTypeIgnoresCase | backend/internal/server/server.go:418-429 | A lower-cased type classifies like the original. |
| Server.NormalizeResultTypeCodes | backend/internal/server/server.go:418-429 | EXECUTION_FAIL and INTERNAL_ERROR are FAIL; HTTP_TIMEOUT, NETWORK_ERROR and INTERRUPTED are PENDING. |
| Server.IdemKeyOf | backend/internal/server/server.go:293-296 | A present Idempotency-Key header is used as is; a missing one becomes the prefix plus a fresh UUID. |
| Server.MergeRaw | backend/internal/server/server.go:431-440 | Two empty provider bodies give no raw column; otherwise the combination of both. |
| Server.PayoutIssueValidatesFirst | backend/internal/server/server.go:288-291 | A request without claims or with an empty promotion code or a non-positive amount gets 400/401 without a provider call or write, whatever the idempotency table holds. |
| Server.PayoutIssueReplays | backend/internal/server/server.go:293-303 | A recorded (payout-issue, key) replays the cached bytes with status 200, calls nobody and writes nothing. |
| Server.PayoutIssueFailureWritesNothing | backend/internal/server/server.go:305-318 | When get-key or execute-promotion fails, the answer is 500 and nothing is written, so the key stays unrecorded. |
| Server.PayoutIssueSucceeds | backend/internal/server/server.go:311-337 | On success it sends get-key, then execute-promotion with the same idempotency key and the returned promotion key. It appends one REQUESTED payout of that user with that promotion key, and caches the response under (payout-issue, key). |
| Server.PayoutIssueTwice | backend/internal/server/server.go:293-337 | A second issue with the same key after a success replays the first response and neither calls the provider nor writes. |
| Server.PaymentCreateSequencing | backend/internal/server/server.go:169-220 | It validates before any lookup and replays a recorded (make-payment, key). It sends one make-payment with the key, the order number and the request's description, amount and test flag, and on failure answers 500 and writes nothing. On success it replies with the payToken of the provider's `success`, appends one CREATED payment with that token, the amount and the provider's raw body, and caches {orderNo, payToken}. |
| Server.PaymentExecuteLogs | backend/internal/server/server.go:229-269 | Execution never touches the idempotency table or the payouts, and sends no Idempotency-Key. A success appends one EXECUTED row with amount 0 for the caller, the request's order number and token and the provider's raw body, and replies with the provider's `success`, else its `result`. A failure writes nothing. |
| Server.PayoutResultReportsWritten | backend/internal/server/server.go:362-375 | The reported status is the classification written to every payout with that promotion key, whatever their earlier status; other payouts and tables are unchanged. |
| Server.PayoutIssue | backend/internal/server/server.go:276-340 | The model of handlePayoutIssue: validation, the idempotency replay, get-key then execute-promotion, one REQUESTED payout and the cached reply. PayoutIssueValidatesFirst, PayoutIssueReplays, PayoutIssueFailureWritesNothing, PayoutIssueSucceeds and PayoutIssueTwice carry its promises. |
| Server.PaymentCreate | backend/internal/server/server.go:157-221 | The model of handlePaymentCreate: validation, the order number and key defaults, the replay, make-payment, one CREATED row and the cached reply. PaymentCreateSequencing carries its promises. |
| Server.PaymentExecute | backend/internal/server/server.go:229-269 | The model of handlePaymentExecute: validation, execute-payment and one EXECUTED row. PaymentExecuteLogs carries its promises. |
| Server.PayoutResult | backend/internal/server/server.go:346-376 | The model of handlePayoutResult: validation, execution-result, and the normalised status written to the payouts. PayoutResultReportsWritten carries its promises. |
| Server.HandlePayoutIssue | backend/internal/server/server.go:276-340 | Running the handler on the database gives the tables, the reply and the provider requests of the payout-issue spec. |
| Server.HandlePaymentCreate | backend/internal/server/server.go:157-221 | Running the handler on the database gives the tables, the reply and the requests of the payment-create spec. |
| Server.HandlePaymentExecute | backend/internal/server/server.go:229-269 | Running the handler on the database gives the tables, the reply and the requests of the payment-execute spec. |
| Server.HandlePayoutResult | backend/internal/server/server.go:346-376 | Running the handler on the database gives the tables, the reply and the requests of the payout-result spec. |
| PostgresStore.PutIdem | backend/internal/store/postgres/postgres.go:58-64 | After the insert the key is present; an existing response is kept and other keys are untouched. |
| PostgresStore.PutIdemFirstWriteWins | backend/internal/store/postgres/postgres.go:58-64 | A second put for the same key changes nothing, and the first response stays. |
| PostgresStore.AppendPayout | backend/internal/store/postgres/postgres.go:74-80 | The new payout is appended after the unchanged existing rows, with the next id and both timestamps set to now. |
| PostgresStore.SetPayoutStatus | backend/internal/store/postgres/postgres.go:82-89 | Rows with the promotion key get the new status, raw body and time, whatever their status; other rows are unchanged. |
| PostgresStore.SetPayoutStatusIdempotent | backend/internal/store/postgres/postgres.go:82-89 | Repeating the same update changes nothing. |
| PostgresStore.SetPayoutStatusOverwritesTerminal | backend/internal/store/postgres/postgres.go:82-89 | A SUCCESS payout can be overwritten to PENDING: terminal statuses are not protected. |
| PostgresStore.FilterPending | backend/internal/store/postgres/postgres.go:97-99 | Keeps exactly the REQUESTED or PENDING rows, drawn from the table. |
| PostgresStore.SortByUpdate | backend/internal/store/postgres/postgres.go:97-99 | Ascending by updated_at, and a permutation of its input. |
| PostgresStore.SortByUpdateOfSorted | backend/internal/store/postgres/postgres.go:97-99 | A table already in update order comes out unchanged, so rows with equal updated_at keep table order. |
| PostgresStore.PendingQuery | backend/internal/store/postgres/postgres.go:91-115 | The rows of the pending-payout query: pending rows, by updated_at, at most limit. PendingQuerySelects, PendingQueryOrder and PendingQueryCount carry its promises. |
| PostgresStore.PendingQuerySelects | backend/internal/store/postgres/postgres.go:91-115 | The query returns only REQUESTED or PENDING rows, drawn from the table. |
| PostgresStore.PendingQueryOrder | backend/internal/store/postgres/postgres.go:91-115 | The rows come ascending by updated_at, and no pending row left out was updated before a returned one. |
| PostgresStore.PendingQueryCount | backend/internal/store/postgres/postgres.go:91-115 | As many rows as there are pending payouts, up to the limit. |
| PostgresStore.UpsertKeepsDistinct | backend/internal/store/postgres/postgres.go:32-40 | A new user's id is unused, so user ids stay distinct. |
| PostgresStore.Postgres.UpsertUser | backend/internal/store/postgres/postgres.go:32-40 | The same toss user key always gets the same id; a new key gets the next one, and other users keep theirs. |
| PostgresStore.Postgres.GetIdempotency | backend/internal/store/postgres/postgres.go:42-56 | Found iff a row exists for (scope, key), with its stored bytes; there is no expiry filter. |
| PostgresStore.Postgres.PutIdempotency | backend/internal/store/postgres/postgres.go:58-64 | The table becomes the first-write-wins insert. |
| PostgresStore.Postgres.InsertPayment | backend/internal/store/postgres/postgres.go:66-72 | The payment log gains the one row at its end. |
| PostgresStore.Postgres.InsertPayout | backend/internal/store/postgres/postgres.go:74-80 | The payout table gains one row at its end with the next id. |
| PostgresStore.Postgres.UpdatePayoutStatus | backend/internal/store/postgres/postgres.go:82-89 | The payouts become the status update of all rows with that promotion key. |
| PostgresStore.Postgres.ListPendingPayouts | backend/internal/store/postgres/postgres.go:91-115 | A negative limit is refused by the database. Otherwise the scanned rows are the pending query's: pending rows only, in update order. |
| TossClient.Headers | backend/internal/toss/promotion.go:40-43 | The user key header is always set, the Idempotency-Key iff the key is non-empty, and nothing else. |
| TossClient.RequireSuccess | backend/internal/toss/promotion.go:19-26 | The raw body is kept. An answer comes iff the call returned an envelope with `success`, and it is that payload. Transport errors pass through; a missing `success` names the result type. |
| TossClient.SuccessOrResultType | backend/internal/toss/promotion.go:44-52 | Fails only on a transport or status error. A returned envelope gives `success`, or else a value with only the result type. |
| TossClient.SuccessThenResult | backend/internal/toss/pay.go:59-66 | Prefers `success`, then `result`, and fails only when both are absent or the call failed; the raw body is kept. |
| TossClient.SuccessFirst | backend/internal/toss/pay.go:59-66 | With `success` present the two resolutions agree. |
| TossClient.RequestHeaders | backend/internal/toss/promotion.go:16-74 | Every call sends the user key. Only execute-promotion and make-payment send the Idempotency-Key, and execute-payment never does. |
| TossClient.PromotionGetKey | backend/internal/toss/promotion.go:16-27 | get-key requires `success` and answers with its key, keeping the raw body. |
| TossClient.PromotionExecute | backend/internal/toss/promotion.go:38-53 | execute-promotion fails only when the call fails; it answers `success`, else the envelope's result type. |
| TossClient.PromotionExecutionResult | backend/internal/toss/promotion.go:63-74 | execution-result fails only when the call fails; it answers `success`, else the envelope's result type. |
| TossClient.MakePayment | backend/internal/toss/pay.go:21-37 | make-payment requires `success` and answers with its payToken, keeping the raw body. |
| TossClient.ExecutePayment | backend/internal/toss/pay.go:50-67 | execute-payment answers `success`, else `result`, and fails when neither is present. |
| TossLogin.NormalizeReferrer | backend/internal/toss/ait_client.go:114-120 | A blank referrer becomes DEFAULT, any other the upper-cased trimmed text; never empty. |
| TossLogin.NormalizeReferrerIdempotent | backend/internal/toss/ait_client.go:114-120 | Normalising twice is normalising once. |
| TossLogin.NormalizeReferrerIgnoresCaseAndSpace | backend/internal/toss/ait_client.go:114-120 | Lower-casing or trimming the referrer first changes nothing. |
| TossLogin.Accept | backend/internal/toss/ait_client.go:152-164 | Accepted iff the status is 2xx, the body decoded, the upper-cased result type is SUCCESS and `success` is present, giving that payload. A non-2xx status names the status and body. |
| TossLogin.AcceptIgnoresResultTypeCase | backend/internal/toss/ait_client.go:152-164 | A lower-case result type is accepted like an upper-case one. |
| TossLogin.GenerateUserToken | backend/internal/toss/ait_client.go:123-165 | A blank authorization code is refused before any request. Otherwise one request carries the code and the normalised referrer, and its answer goes through the acceptance rule. |
| TossLogin.LoginMe | backend/internal/toss/ait_client.go:171-203 | A blank access token is refused before any request. Otherwise one request carries the trimmed token as a bearer credential, and its answer goes through the acceptance rule. |
| TossLogin.GenerateTokenRequestShape | backend/internal/toss/ait_client.go:124-130 | A request is sent iff the code is not blank. It then carries a non-empty, trimmed code and a referrer that is already normalised. |
| ApiGuards.Purge | backend/cmd/api/main.go:595-599 | Keeps exactly the entries whose expiry is not before now, unchanged. |
| ApiGuards.AfterTryUse | backend/cmd/api/main.go:590-605 | The idempotency map after a use: purged, then the key stamped when accepted. TryUseRepeat, TryUseIndependent, TryUseLeavesNoExpired and IdemStore.TryUse carry its promises. |
| ApiGuards.TryUseFirstUse | backend/cmd/api/main.go:590-605 | A key never seen before is accepted. |
| ApiGuards.TryUseRepeat | backend/cmd/api/main.go:590-605 | After an accepted use, the same key is refused until its time to live has passed, and accepted again from then on. |
| ApiGuards.TryUseIndependent | backend/cmd/api/main.go:590-605 | Using one key does not change whether another key is accepted later. |
| ApiGuards.TryUseLeavesNoExpired | backend/cmd/api/main.go:595-599 | After a use attempt no stored entry is expired. |
| ApiGuards.IdemStore.constructor | backend/cmd/api/main.go:586-588 | The store starts empty. |
| ApiGuards.IdemStore.TryUse | backend/cmd/api/main.go:590-605 | The deletion loop purges expired entries. It answers the acceptance rule on the old table and stamps the key with now + ttl. |
| ApiGuards.RevokeIn | backend/cmd/api/main.go:560-568 | A blank subject changes nothing; any other is stored trimmed, with the time. |
| ApiGuards.RevocationLaws | backend/cmd/api/main.go:560-579 | A blank subject is never revoked. After revoking, the subject is revoked and every other subject keeps its state, and revoked subjects stay revoked. |
| ApiGuards.RevokeTwice | backend/cmd/api/main.go:560-568 | Revoking twice keeps one entry, stamped with the later time. |
| ApiGuards.RevokedStore.constructor | backend/cmd/api/main.go:556-558 | The store starts empty. |
| ApiGuards.RevokedStore.Revoke | backend/cmd/api/main.go:560-568 | The table becomes the revocation of the trimmed subject. |
| ApiGuards.RevokedStore.IsRevoked | backend/cmd/api/main.go:570-579 | Membership of the trimmed subject, and false for a blank one. |
| ApiGuards.Step | backend/cmd/api/main.go:531-546 | A missing or past bucket admits and restarts the window with count 1. A full bucket refuses and is unchanged; otherwise the call is admitted and counted. |
| ApiGuards.WindowRoom | backend/cmd/api/main.go:531-546 | Within one window no more calls are admitted than the room left in the bucket. |
| ApiGuards.AtMostLimitPerWindow | backend/cmd/api/main.go:531-546 | A window admits at most `limit` calls in all, the one that opens it included. |
| ApiGuards.RateLimiter.constructor | backend/cmd/api/main.go:523-529 | Stores the limit and window, with no buckets. |
| ApiGuards.RateLimiter.Allow | backend/cmd/api/main.go:531-546 | Admits by the bucket step, and only that key's bucket changes. |
| ApiGuards.NonBlankClean | backend/cmd/api/main.go:616-623 | Every kept piece is non-empty and trimmed. |
| ApiGuards.AllowedOriginsWellFormed | backend/cmd/api/main.go:610-627 | The parsed list is never empty. It is the wildcard, or made of trimmed, non-empty, comma-free origins. |
| ApiGuards.AllowedOriginsOfJoin | backend/cmd/api/main.go:610-627 | Parsing the comma-joined form of a well-formed list gives that list back. |
| ApiGuards.AllowedOrigins | backend/cmd/api/main.go:610-627 | The meaning of ALLOW_ORIGIN. AllowedOriginsWellFormed, AllowedOriginsOfJoin and ParseAllowedOrigins carry its promises. |
| ApiGuards.ParseAllowedOrigins | backend/cmd/api/main.go:610-627 | The appending loop yields the ALLOW_ORIGIN meaning: the wildcard for blank or "*", else the trimmed non-empty pieces in order, else the wildcard. |
| ApiGuards.KeepNonBlank | backend/cmd/api/main.go:616-623 | The loop keeps each trimmed non-empty piece, in order. |
| ApiGuards.MatchOrigin | backend/cmd/api/main.go:630-648 | With the wildcard it echoes the trimmed origin, or "*" when none. Otherwise it echoes an exact match, else the first allowed origin, else "*". |
| ApiGuards.MatchOriginStaysListed | backend/cmd/api/main.go:638-646 | Outside wildcard mode the answer is always a listed origin. |
| Session.SignSession | backend/cmd/api/main.go:463-474 | A signed token starts with "sv1.". |
| Session.VerifySession | backend/cmd/api/main.go:476-501 | Accepted claims have a non-empty subject, a non-zero expiry, and an expiry not before now. |
| Session.SignThenVerify | backend/cmd/api/main.go:463-501 | A freshly signed token for a non-empty user verifies to its own claims up to and including its expiry second. |
| Session.SignedTokenExpires | backend/cmd/api/main.go:497-499 | After its expiry second the token is refused as expired. |
| Session.SignedBadClaimsRefused | backend/cmd/api/main.go:494-496 | A correctly signed token with an empty subject or zero expiry is refused as bad claims. |
| Session.ForgedSignatureRefused | backend/cmd/api/main.go:481-485 | A payload with any signature other than its HMAC is refused. |
| Session.AcceptedIsSigned | backend/cmd/api/main.go:477-485 | Whatever verifies has three pieces and is the payload assembled with its own HMAC. |
| Session.SignedTokenTrimmed | backend/cmd/api/main.go:463-474 | A signed token has no surrounding white space. |
| Session.BearerToken | backend/cmd/api/main.go:435-439 | The bearer header of a signed token passes the prefix check and yields that token. |
| Session.Authenticate | backend/cmd/api/main.go:431-453 | Without the "Bearer " prefix: missing bearer token. Whatever is let through verified, is not revoked when a table is configured, and is unexpired with a non-empty subject. |
| Session.AuthHonoursRevocation | backend/cmd/api/main.go:445-448 | A live signed session is refused as revoked when its subject is revoked, else let through with its claims. |
| Session.AuthRefusesExpired | backend/cmd/api/main.go:440-443 | An expired session is refused as an invalid token, revoked or not. |
| Payment.ErrorText | backend/internal/payment/payment.go:74-79 | The text starts with the message. It is exactly the message iff there is no cause; otherwise ": " and the cause's text follow. |
| Payment.Unwrap | backend/internal/payment/payment.go:81-83 | The cause of a payment error. NewPaymentError states that it returns the cause given. |
| Payment.NewPaymentError | backend/internal/payment/payment.go:86-92 | Stores code, message and cause unchanged, and unwrapping gives the cause back. |
| Payment.NewPaymentErrorText | backend/internal/payment/payment.go:74-92 | Without a cause the text is the message; with one it is the message, ": " and the cause's text. |
| Payment.NestedErrorText | backend/internal/payment/payment.go:74-79 | A wrapped payment error's whole text ends the outer one. |
| Payment.IsMockEnvironment | backend/internal/payment/factory.go:43-46 | The trimmed, lower-cased APP_ENV is empty, local or test. MockEnvironmentIgnoresCaseAndSpace, NewService and ServiceSelection carry its promises. |
| Payment.MockEnvironmentIgnoresCaseAndSpace | backend/internal/payment/factory.go:43-46 | Upper-casing or trimming APP_ENV does not change whether it is a mock environment. |
| Payment.NewService | backend/internal/payment/factory.go:16-30 | A service comes back iff the environment is a mock one (empty, local or test after trimming and lower-casing), and it is the mock. |
| Payment.NewServiceWithTossPay | backend/internal/payment/factory.go:33-40 | The given service, or the mock when there is none. |
| Payment.ServiceSelection | backend/internal/payment/factory.go:16-40 | Building the service in two steps gives the mock in every mock environment, and otherwise the live service given. |
| MockPayment.CreateIn | backend/internal/payment/mock.go:49-83 | The model of the mock's CreatePayment on its table. CreateRejectsInvalid, CreateStores and OperationsKeepKnownStatuses carry its promises. |
| MockPayment.ExecuteIn | backend/internal/payment/mock.go:86-127 | The model of the mock's ExecutePayment on its table. ExecuteRejects, ExecuteOnce, ExecuteOnlyAdvances and OperationsKeepKnownStatuses carry its promises. |
| MockPayment.StatusIn | backend/internal/payment/mock.go:130-156 | The model of the mock's GetStatus. ExecuteOnce and MockService.GetStatus carry its promises. |
| MockPayment.CreateRejectsInvalid | backend/internal/payment/mock.go:58-63 | An empty order number or a non-positive amount is INVALID_REQUEST and stores nothing. |
| MockPayment.CreateStores | backend/internal/payment/mock.go:66-82 | A valid request stores a CREATED payment under a `mock_pt_` token and answers that token, its checkout URL and mode "mock". Only that token's entry changes. |
| MockPayment.ExecuteRejects | backend/internal/payment/mock.go:95-108 | A token without the prefix (the empty one included) is INVALID_REQUEST; an unknown one is PAYMENT_NOT_FOUND; neither changes anything. |
| MockPayment.ExecuteOnce | backend/internal/payment/mock.go:111-126 | The first execute of a created payment turns it SUCCESS and reports its order and amount. A second is INVALID_REQUEST, changes nothing, and the status reads SUCCESS. |
| MockPayment.ExecuteOnlyAdvances | backend/internal/payment/mock.go:111-117 | Executing changes at most the named payment, from a status other than SUCCESS to SUCCESS, keeping its order and amount; it changes something iff it succeeds. |
| MockPayment.OperationsKeepKnownStatuses | backend/internal/payment/mock.go:69-76 | Creating and executing keep every stored status CREATED or SUCCESS. |
| MockPayment.MockService.constructor | backend/internal/payment/mock.go:28-33 | The mock starts with no payments. |
| MockPayment.MockService.CreatePayment | backend/internal/payment/mock.go:49-83 | The table and the answer are those of the create rule. |
| MockPayment.MockService.ExecutePayment | backend/internal/payment/mock.go:86-127 | The table and the answer are those of the execute rule. |
| MockPayment.MockService.GetStatus | backend/internal/payment/mock.go:130-156 | An error iff the token is empty (INVALID_REQUEST) or unknown (PAYMENT_NOT_FOUND). Otherwise it gives the stored order, status and amount, and changes nothing. |
| ProofValidator.StripDataUrlPrefix | backend/internal/proof/validator.go:37-40 | Text without a comma is kept. Otherwise what follows the first comma is kept, and the part dropped holds no other comma. |
| ProofValidator.StripDataUrl | backend/internal/proof/validator.go:124-128 | A comma-free data URL header is removed, whatever the data. |
| ProofValidator.PhotoValidation | backend/internal/proof/validator.go:29-79 | The outcome of ValidatePhotoProof. PhotoRejectsBadData, PhotoWindow, PhotoWithoutExif and PhotoResultConsistent carry its promises. |
| ProofValidator.ValidatePhotoProof | backend/internal/proof/validator.go:29-79 | Building the result step by step gives the photo validation outcome, and Valid holds iff there are no errors. |
| ProofValidator.PhotoRejectsBadData | backend/internal/proof/validator.go:43-50 | An error comes back iff the data does not decode or decodes to nothing. |
| ProofValidator.PhotoWindow | backend/internal/proof/validator.go:63-76 | With a capture time the photo is valid iff it was taken within a day of the challenge period, and it then has no errors. |
| ProofValidator.PhotoWithoutExif | backend/internal/proof/validator.go:57-59 | Without a readable capture time the photo stays valid, with one warning and no error. |
| ProofValidator.PhotoResultConsistent | backend/internal/proof/validator.go:30-34 | Every result has Valid iff no errors, and the hash that HashBase64Image gives. |
| ProofValidator.HashBase64Image | backend/internal/proof/validator.go:123-137 | An error iff the stripped data does not decode. |
| ProofValidator.ValidateStepsProof | backend/internal/proof/validator.go:100-111 | A blank hash is an error. Otherwise the result is valid, carries the hash as given, and has no errors, warnings or time. |

## Left out

- Database and HTTP plumbing are not modelled: connection setup, SQL beyond row-level effects, routing, JSON decoding and response writing. A database call never fails, except for the rollback of `ExecutePayment` on a missing challenge.
  - Because of this, `ListPendingPayouts` returns rows for every non-negative limit. A negative limit is read as the database's refusal of a negative LIMIT.
- Concurrency is not modelled: mutexes, goroutines, and the check-then-insert race between the idempotency lookup and the put in the handlers. Each operation runs atomically.
- The worker's endless sleep loops (`runDailyJob`, `runHourlyJob`) are not modelled, only the next-run computation. Time zones and daylight saving time are ignored, so a day is 86400 seconds.
- `runHourlyJob` and `showStats` (and `GetBatchStats`) are not modelled: they only log. `ListSettlementsByUser` builds Korean display text and is not modelled.
- `handleAuthExchange`, `handleMessageSend`, the unlink callback and the server's `authMiddleware` are not modelled. The last checks JWTs from `auth/jwt.go` and never consults revocation.
- `toss/client.go` (mTLS, `doJSON`), `toss/tosspay_client.go`, `toss/login.go` and `toss/messenger.go` are not part of this model. The transport is a function from request to envelope or error.
- HMAC-SHA256, SHA-256, base64, JSON and EXIF reading are functions passed in. The session round trip needs only that decoding undoes encoding and that encodings use the base64url alphabet; nothing is assumed about HMAC collisions.
- Random hex, UUIDs and the clock are parameters: `now` is in Unix seconds and `today` in days.
- Case mapping is ASCII only. Go's `strings.ToUpper`/`ToLower` also map non-ASCII letters.
- Error messages in Korean and the capture date formatting of proof errors are constructors carrying the values, not text.
- `HashImage` (reading from an `io.Reader`) and `NewMockServiceWithDelay` are not modelled.
- The mock's simulated delay and context cancellation are not modelled.
- `cmd/api/main.go:231,241` refer to a `revoked` store that the enclosing code does not declare. The model gives the `auth` middleware an optional revocation table instead.
- `postgres.go` uses a `store.Payout` type that `store.go` does not define. The payout row is modelled from the columns `postgres.go` reads and writes, without the join with `app_user`.
- The order of rows with equal `updated_at` in `ListPendingPayouts` is the database's choice. The model fixes one choice: a stable sort that keeps table order (`SortByUpdateOfSorted`).
- SettlementStore.Store.CreatePayment: order numbers are taken as the payment table's key, so a repeated order number is an error. The schema's constraint on it (outside store.go) is not shown.
- MockPayment.CreateStores: a token collision overwrites the earlier payment, as the map assignment in mock.go does. Uniqueness of the random suffix is not modelled.
- MockPayment.MockService.GetStatus: reads the table without a `modifies` clause. This stands for the read lock mock.go takes.
- Payment.MockEnvironmentIgnoresCaseAndSpace: states the law for all inputs; concrete spellings such as "  local  " are not proved one by one.
