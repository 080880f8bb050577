# Banking platform: verified model

A Dafny model of the parts of the banking platform where state, money and encodings meet, with proofs over
all inputs, all runs or all reachable states. `dafny verify dfyconfig.toml` checks everything.

- **Ledger, Saga, Conservation, Money, Orchestration.** Account updates under a version guard, and the
  debit, credit, compensate payment on top of them. Both exist twice: as classes with the program's own
  statements, and as a machine whose steps are the single reads, writes and messages of any number of
  concurrent requests. The class for the orchestrator carries a copy of the machine along, so each of its
  executions is a run of the machine.
- **Refunds, Charges, QrPayments.** What sits on the orchestrator: refunds of a transaction, settlement of
  QR charges and payment of scanned strings, one call at a time, and the way from a charge to its string and back.
- **Crc, Tlv, Codec, Amounts, Strconv.** The QRIS string: nested tag-length-value objects under a CRC-16,
  following section 3.2 (data organisation) and section 4.7 (data objects) of the EMV QR Code Specification
  for Payment Systems, Merchant-Presented Mode, and int64 amounts printed and read in decimal.
- **TokenStore, AuthService, ApiKeyCache, Redis.** Stores that must agree with a simpler one: lazy against
  eager token revocation, and a read-through cache against the database.
- **AuditPages, RateLimiter.** Keyset pagination against the sorted table, and a token-bucket limiter that
  evicts against one that does not.
- **Dispatcher, Idempotency.** The claim, send, write-back cycle of notifications, and the idempotency
  middleware over its store.
- **StringArray.** The printer and scanner of PostgreSQL array literals (section 8.15.6 of its manual).

An operation is a method with the program's statements, a function it is proved to compute, and lemmas that say of
the tables, strings and times themselves when it succeeds, why it is refused and what it changes (`CreditExact`,
`RecordedIff`, `EncodedWire`, `PageExact` and the like), without naming that function's parts.

A machine's `Next` gives the state after one action of anyone; an action that is not possible changes
nothing, so every sequence of actions is a run. Identifiers of rows are their positions. A call to a
repository, a provider or another service that can fail carries a parameter that says whether it works, fails
without effect, or takes effect while an error is reported; the calls without one are named under "Left out".
Clock readings are parameters too.

Where the code and its documentation differ, the model follows the code:

- `Idempotency` promises to store every response within the size limit, and to answer a retry from it. A
  handler that writes nothing is recorded with status 0, which aborts the request before it is stored, and one
  that sends early hints is recorded with them and answers 200 (`Idempotency.TransparentIff`,
  `Idempotency.EarlyHintsLost`, `Idempotency.RetryConflicts`).
- `RevokeAllForUser` promises to revoke every token of the user. A token created in the same second is not
  revoked (`TokenStore.SameSecondSlips`; `TokenStore.AgreeIff` says exactly when the stores agree).
- `parseTLV` promises to fail if a length is not numeric. `-1` is numeric to the program, and the slice goes
  out of range (`Tlv.CrashExact`).

And where a reader might expect more than the code gives:

- `Pay` answers a key it has seen with that key's transaction, whatever charge is being paid, and settles the
  charge with it (`Charges.KeyReuseBreaks`; `Charges.PayKeepsIff` and `Charges.RunSettledIff` say exactly when
  settlement stays right).
- `majorToMinor` undoes `minorToMajor` for amounts that are not negative, and only for some that are
  (`Amounts.MinorRoundTripIff`).
- An API key whose lookup and revocation interleave can be served again from the cache
  (`ApiKeyCache.LateFillRevives`; `ApiKeyCache.RevokedForGoodIff` says exactly when it is not).
- A key can get more than its burst and refill rate allow if its idle bucket is evicted before it would be full
  again (`RateLimiter.WindowBoundIff` says exactly for which configurations).
- Two refreshes of one token at the same time can both succeed (`AuthService.TwoAtOnce`;
  `AuthService.AcceptedAgainIff` says exactly when no more can).
- The scope of an idempotency key joins its parts with bars and does not escape them, so different requests can
  share one (`Idempotency.ScopeSharedIff` says exactly which).

## Model

| member | source | states |
|---|---|---|
| Ledger.AccountRepository.GetByID | services/account-svc/internal/repository/account_repository.go:64-83 | returns the row, or that there is none |
| Ledger.AccountRepository.Update | services/account-svc/internal/repository/account_repository.go:87-119 | writes the record and advances the version exactly when the stored version is the one that was read; otherwise nothing changes |
| Ledger.AccountService.CreditAccount | services/account-svc/internal/services/account_service.go:118-154 | an uninterrupted credit answers and changes the rows as one atomic operation: amount, existence, status and int64 overflow are refused in that order |
| Ledger.AccountService.DebitAccount | services/account-svc/internal/services/account_service.go:156-192 | the same for a debit, refusing an insufficient balance |
| Ledger.CreditExact | services/account-svc/internal/services/account_service.go:118-154 | a credit goes through exactly if the amount is positive, the account exists and is active and the new balance fits an int64; then only that balance and its version change, and otherwise nothing does and the first reason that applies is reported |
| Ledger.DebitExact | services/account-svc/internal/services/account_service.go:156-192 | the same for a debit, which the balance must cover |
| Ledger.CreditUndoesDebit | services/payment-svc/internal/service/orchestration.go:133-143 | a debit that went through can be credited back: the credit is not refused, and only the version shows that anything happened |
| Ledger.CommitIsApply | services/account-svc/internal/repository/account_repository.go:87-119 | a conditional write that goes through, however old the read behind it, does to the current rows what the atomic operation would do to them now; one that does not changes nothing |
| Ledger.NextKeeps | services/account-svc/internal/services/account_service.go:118-192 | every read, write, retry or loss by any call keeps the books right: balances in range, pending writes still justified, one log entry per finished call, and a log that replays to the rows |
| Ledger.Linearizable | services/account-svc/internal/services/account_service.go:118-192 | over every interleaving of the reads and writes of any number of credits and debits, there is one sequential history that explains every answer given and ends in the current rows |
| Ledger.RealTimeOrder | services/account-svc/internal/services/account_service.go:118-192 | that history respects real time: a call answered before another was issued stands before it |
| Ledger.ReplayTotals | services/account-svc/internal/services/account_service.go:118-192 | any sequential history that explains its answers adds up: balance, version count and status of an account follow from its applied entries |
| Ledger.BalanceAddsUp | services/account-svc/internal/repository/account_repository.go:87-119 | in every reachable state a balance is the initial one plus applied credits minus applied debits, lies between 0 and MaxInt64, and the version counts the successes |
| Ledger.ConflictIff | services/account-svc/internal/repository/account_repository.go:87-119 | in every run, a call that has read the row and not read it again is turned down when it writes exactly if the history counts more successes on the account than it did at the read; otherwise its write is applied |
| Saga.NextKeeps | services/payment-svc/internal/service/orchestration.go:91-153 | every step of every request, and of account-svc underneath, keeps what the step a request is at says about its transaction's status and money, and a pending leg's owner waiting for it |
| Saga.Reachable | services/payment-svc/internal/service/orchestration.go:91-153 | that holds in every state reachable by any interleaving of any number of payments, with any repository write failing or losing its answer, and any account call being refused, turned down, resent or lost before it writes |
| Saga.FindKey | services/payment-svc/internal/infra/postgres/transaction_repo.go:75-84 | finds a row that carries the key, or none exists |
| Saga.PreCheckIff | services/payment-svc/internal/service/orchestration.go:100-109 | the pre-check lets a request go on exactly if the balance query works and the source exists, is active or without a status, and has the amount; otherwise the request is refused and no table changes |
| Saga.InsertIff | services/payment-svc/internal/service/orchestration.go:53-79 | a row is added by the insert of a request and by nothing else, exactly if no row carries the key, the amount is positive and the write takes effect; it is PENDING and carries the request's input |
| Saga.RowsWereCovered | services/payment-svc/internal/service/orchestration.go:91-120 | in every run, every row belongs to a request whose pre-check, at some moment of the run, found the source able to pay |
| Saga.LoserReplays | services/payment-svc/internal/service/orchestration.go:70-77 | a request that finds its key taken at the insert, having lost the race for it, is answered with the row that won |
| Conservation.TransactionMovesOnce | services/payment-svc/internal/service/orchestration.go:91-153 | in every reachable state a transaction has moved nothing, been debited once, debited and credited once each, or debited and refunded once each; PENDING means nothing moved, SUCCESS that the money arrived, FAILED that it did not |
| Conservation.KeyMovesOnce | services/payment-svc/internal/service/orchestration.go:53-120 | over all concurrent and replayed requests under one idempotency key at most one debit happens, and at most one credit or refund, never more than debits |
| Conservation.SameTransaction | services/payment-svc/internal/service/orchestration.go:53-120 | every two requests under one key that are answered with a transaction are answered with the same one |
| Conservation.StatusMovesForward | services/payment-svc/internal/service/orchestration.go:91-153 | in every step a row keeps its input, and its status only goes from PENDING to PROCESSING and from there to SUCCESS or FAILED |
| Conservation.NeverStuck | services/payment-svc/internal/service/orchestration.go:91-153 | from every reachable state every request can still be brought to an end, even if every call fails from then on |
| Money.ReplayTotal | services/account-svc/internal/services/account_service.go:118-192 | the sum of all balances changes by exactly the applied credits minus the applied debits |
| Money.Conserved | services/payment-svc/internal/service/orchestration.go:91-153 | in every reachable state the sum of all balances plus the amounts debited and neither credited nor refunded equals the initial sum plus what calls outside any payment brought in |
| Money.ShortByStranded | services/payment-svc/internal/service/orchestration.go:91-153 | once every request has returned, the total is short by exactly the amounts of the payments whose credit and compensating credit both failed |
| Money.AccountsAddUp | services/payment-svc/internal/service/orchestration.go:91-153 | in every reachable state each single balance is accounted for: debits leave the source, credits reach the destination, compensations return to the source, and nothing else happens to it |
| Orchestration.TransactionRepository.GetByIdempotencyKey | services/payment-svc/internal/infra/postgres/transaction_repo.go:75-84 | returns the row that carries the key, or none exists |
| Orchestration.TransactionRepository.GetByID | services/payment-svc/internal/infra/postgres/transaction_repo.go:64-73 | returns the row with the identifier, or that there is none |
| Orchestration.TransactionRepository.GetByExternalReference | services/payment-svc/internal/infra/postgres/transaction_repo.go:86-99 | returns the oldest row of the type and reference that has not failed, or none exists |
| Orchestration.FindReference | services/payment-svc/internal/infra/postgres/transaction_repo.go:86-99 | a row that is found carries the type and reference and has not failed, and no earlier row does; if none is found no row does |
| Orchestration.TransactionRepository.Create | services/payment-svc/internal/infra/postgres/transaction_repo.go:28-33 | inserts exactly when the key is new, the amount positive and the write takes effect, and reports success only without a fault |
| Orchestration.TransactionRepository.UpdateStatus | services/payment-svc/internal/infra/postgres/transaction_repo.go:35-62 | sets one row's status and nothing else, unless the write fails |
| Orchestration.Orchestrator.constructor | services/payment-svc/internal/service/orchestration.go:18-22 | the orchestrator starts in the machine's initial state |
| Orchestration.Orchestrator.Transfer | services/payment-svc/internal/service/orchestration.go:126-138 | one account call does what the atomic operation does, or nothing if account-svc was not reached, and is one uninterrupted call of the machine |
| Orchestration.Orchestrator.Close | services/payment-svc/internal/service/orchestration.go:157-162 | writes the final status of a transaction, which ends its request; a failed write leaves it PROCESSING |
| Orchestration.Orchestrator.CreatePending | services/payment-svc/internal/service/orchestration.go:53-79 | inserts the pending row, or answers with the row that carries the key, or refuses |
| Orchestration.Orchestrator.Admit | services/payment-svc/internal/service/orchestration.go:92-109 | replays an existing transaction, and refuses a source that is missing, inactive or short of money (`Orchestration.RecordedIff` states it over the tables) |
| Orchestration.Orchestrator.Start | services/payment-svc/internal/service/orchestration.go:122-125 | marks the row PROCESSING before any money moves; if that fails none does |
| Orchestration.Orchestrator.CreditDestination | services/payment-svc/internal/service/orchestration.go:132-152 | credits the destination, or gives the money back to the source, and records which |
| Orchestration.Orchestrator.MoveMoney | services/payment-svc/internal/service/orchestration.go:126-152 | debits, then credits or compensates, and leaves the final status that goes with it |
| Orchestration.Orchestrator.ExecuteDebitCredit | services/payment-svc/internal/service/orchestration.go:91-153 | one execution gives the response and tables of the sequential specification, which `Orchestration.RecordedIff`, `Orchestration.RecordedEnds` and `Orchestration.RecordedMoves` state in terms of the tables, and is a run of the concurrent machine, so that everything proved of the machine holds of it |
| Orchestration.CompletesIff | services/payment-svc/internal/service/orchestration.go:91-153 | when nothing fails before the final status write, the money arrives exactly if the key is new, the amount positive, both accounts are active, the source has the money and the destination room for it; then the amount has moved with one write each, no other account has changed, and status and answer are those of the final write |
| Orchestration.SucceedsIff | services/payment-svc/internal/service/orchestration.go:91-153 | whatever fails, a SUCCESS row is added exactly if the payment is payable, nothing fails before the final status write, and that write takes effect |
| Orchestration.ExecutedAppends | services/payment-svc/internal/service/orchestration.go:53-79 | an execution adds at most the row of its own payment, and only under a new key with a positive amount; no other row changes |
| Orchestration.CompensationRestores | services/payment-svc/internal/service/orchestration.go:133-143 | unless the money arrived, every balance is what it was before, save for a debit whose compensation failed |
| Orchestration.ReplayChangesNothing | services/payment-svc/internal/service/orchestration.go:92-98 | once a row carries the key, executing again changes no balance and no row, whatever fails, and is answered with that row unless the lookup fails |
| Orchestration.RecordedIff | services/payment-svc/internal/service/orchestration.go:91-120 | a row is added exactly if lookup and balance query work, the insert takes effect, the key is new, the amount is positive, and the source exists, is active or without a status, and has the amount; under a new key, a payment that adds no row is refused and has touched nothing |
| Orchestration.RecordedEnds | services/payment-svc/internal/service/orchestration.go:120-153 | whatever fails, the final status of a row that was added, and the answer: PENDING if it was not started, PROCESSING if a status write was lost, SUCCESS exactly if the money arrived, FAILED exactly if it did not, and which leg failed |
| Orchestration.RecordedMoves | services/payment-svc/internal/service/orchestration.go:126-152 | and where its money is: still with the source, arrived, given back, or missing because the compensation failed |
| Orchestration.LoneCall | services/account-svc/internal/services/account_service.go:118-192 | a credit or debit that nothing interrupts is the atomic operation |
| Refunds.PaymentService.InitiateRefund | services/payment-svc/internal/service/payment_service.go:113-162 | the refund's guards in the program's order, then the money movement, on the same tables |
| Refunds.RefundRunsIff | services/payment-svc/internal/service/payment_service.go:113-162 | a refund is run exactly if both lookups work, it names a SUCCESS transaction, reverses its accounts, for at most its amount and in its currency, and the oldest refund of it that has not failed, if any, has the same key; it is then the payment of that amount, and otherwise nothing changes |
| Refunds.RefusalIs | services/payment-svc/internal/service/payment_service.go:113-144 | the reason a refund is turned down for is the first that applies, in the order of the guards |
| Refunds.RefundCompletes | services/payment-svc/internal/service/payment_service.go:113-162 | a refund that may be run, under a new key, with the money there and no call failing, completes and moves the amount back |
| Refunds.FullRefundRestores | services/payment-svc/internal/service/payment_service.go:113-162 | paying and then refunding in full, with no call failing, completes and puts every balance back to what it was |
| Refunds.RefundKeeps | services/payment-svc/internal/service/payment_service.go:113-153 | a refund that passes the guards and adds a row leaves every original with at most one refund that has not failed |
| Refunds.RefundsStaySafe | services/payment-svc/internal/service/payment_service.go:113-162 | in every sequential run of refunds, other payments and account operations, an original has at most one refund that has not failed, and every refund reverses a SUCCESS original's counterparties in its currency for at most its amount |
| Refunds.RefundsBounded | services/payment-svc/internal/service/payment_service.go:113-162 | no run refunds more of a transaction than its amount, and only of one that succeeded |
| Refunds.FailedCreditsNobody | services/payment-svc/internal/service/orchestration.go:133-143 | a refund marked FAILED has credited its destination nothing, so leaving it out of the total is right |
| QrPayments.QrisService.GenerateCharge | services/payment-svc/internal/service/qris_service.go:112-171 | a missing merchant, an inactive one, a payload that cannot be encoded and an insert that fails are reported in that order; exactly if none of them occurs, or the insert only reports failure, one charge is stored, with the encoding of its payload, PENDING and unpaid |
| QrPayments.QrisService.MarkPaid | services/payment-svc/internal/infra/postgres/qris_charge_repo.go:48-64 | a PENDING charge becomes PAID and names the transaction, any other is left alone, and a write that fails or is reported as failed is an error |
| QrPayments.QrisService.ResolveQrString | services/payment-svc/internal/service/qris_service.go:239-256 | a scanned string is refused as malformed, damaged, of an unknown merchant or without amount, in that order, or resolves to merchant and amount (`QrPayments.BadChecksumRefused` and `QrPayments.ResolveExact` state it of the string) |
| QrPayments.ScanResolves | services/payment-svc/internal/service/qris_service.go:112-256 | the string generated for any charge over 1 to MaxInt64 resolves to the same merchant, and for a dynamic charge to the very amount |
| QrPayments.BadChecksumRefused | services/payment-svc/internal/service/qris_service.go:244-246 | a string that decodes and whose checksum is wrong resolves to nothing but that error, for all merchants and amounts |
| QrPayments.DamagedNeverResolves | services/payment-svc/internal/service/qris_service.go:239-256 | an encoded string that was damaged under its unchanged checksum, by a burst of up to sixteen bits or an odd number of bits, never resolves |
| QrPayments.ResolveExact | services/payment-svc/internal/service/qris_service.go:247-256 | a string with a right checksum resolves to the first merchant with its NMID, which must exist, and to its own amount if it is dynamic and readable, or else the payer's, which must be positive |
| QrPayments.UndecodableRefused | services/payment-svc/internal/service/qris_service.go:240-243 | a string is reported as malformed exactly if it does not decode |
| QrPayments.GeneratedReads | services/payment-svc/internal/service/qris_service.go:112-145 | what a generated string says: the merchant's NMID, category, name, city, postal code and country, rupiah, the acquirer, the labels, whether it is dynamic and then its amount |
| QrPayments.ChargeAmountExact | services/payment-svc/internal/service/qris_service.go:331-342 | a dynamic charge is worth its own amount, which it must have, and a static one what the payer says, if positive |
| Charges.ChargeService.ResolveChargePayment | services/payment-svc/internal/service/qris_service.go:214-236 | a settled charge is replayed only under the key that paid it, and otherwise turned down; a pending one gives merchant and amount (`Charges.ResolveChargeExact` states it of the tables) |
| Charges.ChargeService.Pay | services/payment-svc/internal/service/qris_service.go:258-297 | resolves, moves the money, marks the charge paid when the transaction is successful, and reports a mark that fails, on the same tables |
| Charges.ResolveChargeExact | services/payment-svc/internal/service/qris_service.go:214-236 | which charges are paid and which are turned down, for the first reason that applies; what is paid goes from the payer to the account of the charge's merchant, in the merchant's currency, over the charge's amount |
| Charges.PayExact | services/payment-svc/internal/service/qris_service.go:258-297 | a resolved payment is an execution of its own; it settles its charge, with the transaction reported, and no other charge, exactly if the execution reports a success and the mark takes effect, and reports a failing mark |
| Charges.PaymentCompletes | services/payment-svc/internal/service/qris_service.go:258-297 | a resolved payment under a new key, by someone who can pay and with nothing failing, completes, moves the amount and settles the charge |
| Charges.ChargeService.PayScanned | services/payment-svc/internal/service/qris_service.go:239-283 | paying a scanned string: resolve it and move the money; no charge is settled |
| Charges.ScanPays | services/payment-svc/internal/service/qris_service.go:239-283 | scanning the string of a dynamic charge pays its merchant's account the very amount the charge was generated for |
| Charges.DamagedMovesNothing | services/payment-svc/internal/service/qris_service.go:239-283 | paying a string that was damaged under its checksum, in the ways the checksum detects, changes no table |
| Charges.PayKeepsIff | services/payment-svc/internal/service/qris_service.go:214-297 | whatever fails, a charge payment keeps the settlement of all charges right exactly if it neither marks the charge by a key that already names a successful transaction, nor pays for the charge and misses its mark because the final status write is reported as failed or marking fails |
| Charges.RetryMends | services/payment-svc/internal/service/qris_service.go:258-297 | paying again under the same key mends a missed mark: settlement is right again |
| Charges.KeyReuseBreaks | services/payment-svc/internal/service/qris_service.go:258-297 | from any accounts that can pay, two charges created and paid for under one key: one transaction moves the money, and the second charge is PAID although no transaction pays for it |
| Charges.RunSettledIff | services/payment-svc/internal/service/qris_service.go:214-310 | in every sequential run, with any keys and any failures, settlement is always right exactly if no payment in it spoils it in one of these two ways |
| Charges.RunSettled | services/payment-svc/internal/service/qris_service.go:214-310 | in every sequential run in which no key serves two purposes, it is always true that at most one SUCCESS transaction pays a charge, the charge is PAID exactly when one does, and PaidTxnID names it, exactly if no payment pays for a charge and misses its mark |
| Charges.PaidStays | services/payment-svc/internal/infra/postgres/qris_charge_repo.go:48-64 | a PAID charge never changes again, its PaidTxnID included |
| Charges.ChargesPayTheirMerchant | services/payment-svc/internal/service/qris_service.go:214-236 | whatever keys are used, every payment made for a charge goes to its merchant's account and currency, and for a dynamic charge is over exactly its amount |
| Crc.Crc16Ccitt | services/payment-svc/internal/qris/crc.go:12-25 | the byte and bit loops compute the checksum function the lemmas are about |
| Crc.ChecksumIsSerial | services/payment-svc/internal/qris/crc.go:12-25 | feeding bytes in at once is feeding their bits in one by one |
| Crc.Syndrome | services/payment-svc/internal/qris/crc.go:12-25 | the checksum is linear: the checksums of two messages differ by the checksum of their difference |
| Crc.SameChecksumIff | services/payment-svc/internal/qris/crc.go:12-25 | two messages of one length have the same checksum exactly if their difference leaves the empty register |
| Crc.ChecksumIsRemainder | services/payment-svc/internal/qris/crc.go:5-25 | the checksum of a string is the remainder, and the only one, of dividing its bits times x^16, the first sixteen inverted, by x^16 + x^12 + x^5 + 1 |
| Crc.DetectsBurst | services/payment-svc/internal/qris/crc.go:12-25 | messages of one length that differ only within sixteen consecutive bits, so in particular within two adjacent bytes, have different checksums |
| Crc.DetectsOddDamage | services/payment-svc/internal/qris/crc.go:12-25 | messages that differ in an odd number of bits have different checksums |
| Crc.HexInjective | services/payment-svc/internal/qris/crc.go:29-31 | different registers print as different four-digit strings |
| Crc.HexDigitIs | services/payment-svc/internal/qris/crc.go:29-31 | each printed digit is that of the value of its four bits, upper case |
| Codec.DamageDetected | services/payment-svc/internal/qris/codec.go:147-150 | under an unchanged checksum such damage to the covered bytes is never reported as valid |
| Codec.DecodeReportsChecksum | services/payment-svc/internal/qris/codec.go:147-150 | the reported validity is that of the checksum over everything before its last four characters |
| Codec.CrcValidExact | services/payment-svc/internal/qris/codec.go:147-150 | a checksum is right exactly if its four digits are those of everything before them, letters in either case |
| Tlv.ParseTLV | services/payment-svc/internal/qris/codec.go:182-202 | the slicing loop computes the split, refusal or out-of-range slice of the specification |
| Tlv.SplitExact | services/payment-svc/internal/qris/codec.go:182-202 | parsing succeeds with given objects exactly if the input is the concatenation of these complete objects |
| Tlv.DecompositionUnique | services/payment-svc/internal/qris/codec.go:182-202 | no input is a concatenation of complete objects in two ways |
| Tlv.CrashExact | services/payment-svc/internal/qris/codec.go:182-202 | the slice goes out of range exactly if complete objects are followed by a header whose length reads as a negative number; with two-digit lengths it never does |
| Tlv.BuildTemplate | services/payment-svc/internal/qris/codec.go:164-177 | the loop prints the non-empty items, or fails on one that is too long |
| Tlv.TemplateRoundTrip | services/payment-svc/internal/qris/codec.go:164-202 | parsing a printed template with distinct tags gives exactly its non-empty items |
| Codec.Encode | services/payment-svc/internal/qris/codec.go:30-102 | the statements of the encoder compute the encoding function, which `Codec.EncodedWire` states object by object |
| Codec.Decode | services/payment-svc/internal/qris/codec.go:108-153 | the statements of the decoder compute the decoding function, which `Codec.DecodesTo` and `Codec.DecodedIff` state object by object |
| Codec.EncodedWire | services/payment-svc/internal/qris/codec.go:30-102 | the wire format: encoding refuses exactly a missing required field or a value or template over 99 bytes; what it accepts is the non-empty objects 00, 01, 26 with 00, 01 and 03, 52 to 54, 58 to 61 and 62 with 01, 05 and 07, each with its field or default, and object 63 with the checksum of all that precedes its digits |
| Codec.DecodesTo | services/payment-svc/internal/qris/codec.go:108-153 | complete objects, with complete objects in templates 26 and 62, decode to the payload whose every field is the last value of its own tag, or empty |
| Codec.DecodedIff | services/payment-svc/internal/qris/codec.go:108-202 | a string decodes exactly if it and its two templates are complete objects, one after another |
| Codec.RoundTrip | services/payment-svc/internal/qris/codec.go:30-153 | whatever the encoder accepts, the decoder returns with every field, nested templates included, the defaults filled in and the checksum confirmed |
| Codec.EncodeInjective | services/payment-svc/internal/qris/codec.go:30-102 | payloads with one encoding agree on every field once defaults are filled in |
| Amounts.ParseMajor | services/payment-svc/internal/service/qris_service.go:376-394 | the split, pad and parse of the program, padding loop included, is the specified reading |
| Amounts.MinorRoundTripIff | services/payment-svc/internal/service/qris_service.go:366-394 | printing an amount in major units and reading it back gives the same int64 exactly if it is not negative or is a whole number of major units |
| Amounts.NegativeReadsBack | services/payment-svc/internal/service/qris_service.go:366-394 | what a negative amount reads back as: the sign is applied to the whole part only |
| Amounts.LowestFails | services/payment-svc/internal/service/qris_service.go:366-373 | the lowest int64 wraps when negated and its print does not parse |
| Amounts.PrintedExact | services/payment-svc/internal/service/qris_service.go:366-373 | an amount that is not negative is printed as its whole part without leading zeros, a point, and two digits of cents |
| Amounts.MajorReads | services/payment-svc/internal/service/qris_service.go:376-394 | digits are read as whole units, and the first two after a point as cents, a missing one being zero; the result is cut down to an int64 |
| Amounts.MajorRefusedIff | services/payment-svc/internal/service/qris_service.go:376-394 | text with a point is refused exactly if what stands before it, or the two places after it, is not a number |
| Amounts.SpacesAround | services/payment-svc/internal/service/qris_service.go:376-378 | white space around an amount does not matter |
| TokenStore.MemoryTokenStore.Save | services/auth-svc/internal/repository/token_store_memory.go:25-31 | stores the token unflagged, over any earlier one |
| TokenStore.MemoryTokenStore.FindByHash | services/auth-svc/internal/repository/token_store_memory.go:33-51 | missing, flagged and expired tokens are refused, in that order |
| TokenStore.MemoryTokenStore.Revoke | services/auth-svc/internal/repository/token_store_memory.go:53-60 | flags one token, if it is there |
| TokenStore.MemoryTokenStore.RevokeAllForUser | services/auth-svc/internal/repository/token_store_memory.go:62-77 | the loop flags exactly the user's tokens and counts those newly flagged |
| TokenStore.RedisTokenStore.Save | services/auth-svc/internal/repository/token_store_redis.go:41-64 | stores the token until its expiry, and refuses one that has expired |
| TokenStore.RedisTokenStore.FindByHash | services/auth-svc/internal/repository/token_store_redis.go:66-106 | a missing or gone entry, its flag, its expiry and its user's mark are checked, in that order |
| TokenStore.RedisTokenStore.Revoke | services/auth-svc/internal/repository/token_store_redis.go:108-137 | rewrites a present entry as revoked with the time it has left, or deletes it |
| TokenStore.RedisTokenStore.RevokeAllForUser | services/auth-svc/internal/repository/token_store_redis.go:139-148 | marks the user with the current second for one refresh TTL |
| TokenStore.RedisFindExact | services/auth-svc/internal/repository/token_store_redis.go:66-106 | whatever the store holds, a token is found exactly if its entry lives, is unflagged and unexpired, and no living mark of its user is from a later second than the token; otherwise which of these is reported |
| TokenStore.RedisRevokeExact | services/auth-svc/internal/repository/token_store_redis.go:108-137 | revoking a token refuses it at any later time and changes the answer about no other |
| TokenStore.RedisSaveExact | services/auth-svc/internal/repository/token_store_redis.go:41-64 | a token that has not expired is found until it does, and one that has is refused |
| TokenStore.Reachable | services/auth-svc/internal/repository/token_store_redis.go:41-148 | after any run of saves, revocations, mass revocations and clock ticks both stores hold what the calls so far say |
| TokenStore.MarkStillThere | services/auth-svc/internal/repository/token_store_redis.go:139-148 | expiry of a user's mark never revives a token: while a token lives, its user's mark is still there to revoke it |
| TokenStore.RedisMeaning | services/auth-svc/internal/repository/token_store_redis.go:66-106 | the Redis answer, from the calls alone: gone at its expiry, revoked by itself or by a mass revocation in a later second than its creation |
| TokenStore.MemMeaning | services/auth-svc/internal/repository/token_store_memory.go:33-51 | the memory answer, from the calls alone |
| TokenStore.LazyRefinesEager | services/auth-svc/internal/repository/token_store_redis.go:66-106 | what the Redis store accepts the memory store accepts, with the same token, unless the user was revoked in the very second of the token's creation |
| TokenStore.EagerRefinesLazy | services/auth-svc/internal/repository/token_store_memory.go:33-51 | before its expiry, a token saved at its creation that the memory store accepts is accepted by the Redis store |
| TokenStore.AgreeIff | services/auth-svc/internal/repository/token_store_redis.go:66-148 | before a token's expiry the stores answer the same exactly if it was revoked by itself, or a mass revocation counts in both or in neither |
| TokenStore.AgreeAtCreationIff | services/auth-svc/internal/repository/token_store_redis.go:66-148 | for a token saved at its creation, the stores agree before its expiry exactly if it was revoked by itself, or with its user in a later second, or its user was not revoked since |
| TokenStore.SameSecondSlips | services/auth-svc/internal/repository/token_store_redis.go:89-96 | a token revoked with its user in the second of its creation is refused by the memory store and accepted by the Redis store |
| TokenStore.MassRevocationBySecond | services/auth-svc/internal/repository/token_store_redis.go:89-148 | a run in which a token's user is revoked some time after its creation: Redis refuses the token exactly if that is in a later second, and the memory store in any case |
| AuthService.Service.IssueTokenPair | services/auth-svc/internal/services/auth_service.go:220-236 | the new token is created now and expires one TTL later |
| AuthService.Service.Refresh | services/auth-svc/internal/services/auth_service.go:133-170 | find, revoke, reload the user, issue: store and answer as specified, the old token revoked even if the user is gone |
| AuthService.RefreshExact | services/auth-svc/internal/services/auth_service.go:133-170 | in terms of the calls so far: a refresh succeeds exactly if the token is good and its user is found, and then a new token of the same user, good for one TTL, is found; a good token is refused from then on, found user or not; no other token is affected |
| AuthService.Service.Logout | services/auth-svc/internal/services/auth_service.go:172-182 | revokes the token |
| AuthService.SingleUse | services/auth-svc/internal/services/auth_service.go:133-170 | over any sequence of logins, refreshes, logouts and mass revocations, no refresh token is accepted by a refresh twice |
| AuthService.RefreshIsTwoSteps | services/auth-svc/internal/services/auth_service.go:133-170 | finding the token and then revoking it and issuing the next, with nothing in between, is the refresh |
| AuthService.AcceptedAgainIff | services/auth-svc/internal/services/auth_service.go:139-152 | with find and revoke as separate steps, in whatever run, a token that is revoked is accepted by no refresh whatever follows, exactly if no refresh that found it before is still under way |
| AuthService.TwoAtOnce | services/auth-svc/internal/services/auth_service.go:139-152 | a run from a login in which two refreshes find the token before either revokes it, and both go through |
| AuthService.RefusedForever | services/auth-svc/internal/services/auth_service.go:133-182 | a token that was revoked, or whose user was in a later second, is refused in every continuation |
| AuthService.LogoutIsFinal | services/auth-svc/internal/services/auth_service.go:172-182 | after a logout the token is refused whatever happens next |
| ApiKeyCache.PostgresApiKeyStore.Save | services/auth-svc/internal/repository/apikey_store_postgres.go:74-79 | inserts a key with a new hash for an existing account |
| ApiKeyCache.PostgresApiKeyStore.FindActiveByHash | services/auth-svc/internal/repository/apikey_store_postgres.go:83-126 | returns the identity of an unrevoked key of an active account that is not past its expiry |
| ApiKeyCache.PostgresApiKeyStore.Revoke | services/auth-svc/internal/repository/apikey_store_postgres.go:128-138 | revokes the key with the identifier and nothing else |
| ApiKeyCache.TruthExact | services/auth-svc/internal/repository/apikey_store_postgres.go:83-126 | the database returns an identity exactly for a key that is there, unrevoked, not past its expiry and of an active account, with the data of both; a key that is only past its expiry is reported as expired |
| ApiKeyCache.RevokedExact | services/auth-svc/internal/repository/apikey_store_postgres.go:128-138 | revoking makes the keys with the identifier unusable and changes no other answer |
| ApiKeyCache.RedisApiKeyStore.FindActiveByHash | services/auth-svc/internal/repository/apikey_store_redis.go:43-106 | cache, clean-up, database and fill with the shorter of five minutes and the key's remaining time, each able to fail |
| ApiKeyCache.FindExact | services/auth-svc/internal/repository/apikey_store_redis.go:43-106 | a lookup is answered from the cache exactly if the cache can be read and has the key unexpired, and from the database otherwise; it fills in exactly what the database returned and removes at most its own expired entry |
| ApiKeyCache.FilledServes | services/auth-svc/internal/repository/apikey_store_redis.go:43-106 | what is filled in is served whatever the database says by then, for exactly five minutes or until the key expires |
| ApiKeyCache.RedisApiKeyStore.Revoke | services/auth-svc/internal/repository/apikey_store_redis.go:110-124 | revokes in the database first; then deletes the cache entry if there is a hash and the delete goes through |
| ApiKeyCache.LookupIsTwoSteps | services/auth-svc/internal/repository/apikey_store_redis.go:43-106 | a read and a fill with nothing in between are the lookup |
| ApiKeyCache.StalenessFromFill | services/auth-svc/internal/repository/apikey_store_redis.go:43-106 | however lookups interleave and whatever fails, an identity a lookup returns is not past its expiry, and is what the database says now or what some lookup read from it and filled in no more than five minutes ago |
| ApiKeyCache.BoundedStaleness | services/auth-svc/internal/repository/apikey_store_redis.go:43-106 | if lookups fill the cache within some delay of their read, an identity a lookup returns is what the database would have returned at some moment of the run in the preceding five minutes and that delay, and it is not past its expiry |
| ApiKeyCache.AtomicStaleness | services/auth-svc/internal/repository/apikey_store_redis.go:43-106 | if every fill directly follows the read of its lookup, there is no delay: an identity a lookup returns is what the database would have returned within the preceding five minutes |
| ApiKeyCache.RevokedForGoodIff | services/auth-svc/internal/repository/apikey_store_redis.go:110-124 | once a key is revoked and its cache entry deleted, in any state and with any lookups under way, it is refused in every continuation exactly if no lookup that read it while it was good is still to fill the cache |
| ApiKeyCache.AtomicRevokedForGood | services/auth-svc/internal/repository/apikey_store_redis.go:110-124 | if from then on every fill directly follows the read of its lookup, a key that is revoked and whose cache entry is deleted is refused ever after |
| ApiKeyCache.RevokedWithinTtl | services/auth-svc/internal/repository/apikey_store_redis.go:110-124 | even if the delete fails, the key is gone five minutes after the revocation, and the delay with which lookups fill the cache |
| ApiKeyCache.LateFillRevives | services/auth-svc/internal/repository/apikey_store_redis.go:75-103 | a run in which it is not: a lookup reads, the key is revoked and deleted from the cache, the lookup fills, and the key is served although the database refuses it |
| AuditPages.AuditRepository.Create | services/audit-svc/internal/repository/postgres/audit_repo.go:40-55 | appends an event with a new identifier |
| AuditPages.AuditRepository.ApplyEqualityFilters | services/audit-svc/internal/repository/postgres/audit_repo.go:79-95 | the loop adds exactly the non-empty filters |
| AuditPages.AuditRepository.List | services/audit-svc/internal/repository/postgres/audit_repo.go:99-142 | one page of the sorted, filtered rows below the cursor, and a cursor exactly if more follow; the limit defaults to 50 and is at most 200 |
| AuditPages.AnswerIsSortedSelection | services/audit-svc/internal/repository/postgres/audit_repo.go:99-135 | the answer holds exactly the rows asked for, strictly by (created_at, id) descending |
| AuditPages.SameRowsSameOrder | services/audit-svc/internal/repository/postgres/audit_repo.go:130 | that order leaves no choice: strictly descending sequences of the same rows are equal |
| AuditPages.PageExact | services/audit-svc/internal/repository/postgres/audit_repo.go:79-142 | a page holds rows that meet every filter given and come after the cursor, newest first, at most as many as the limit, which is 50 unless given and at most 200; a wanted row is missing only behind a full page, and exactly then there is a next cursor, which names the last row |
| AuditPages.NextAnswer | services/audit-svc/internal/repository/postgres/audit_repo.go:118-139 | the next request is answered from where this page ended, whatever was added above the cursor meanwhile |
| AuditPages.WalkIsPrefix | services/audit-svc/internal/repository/postgres/audit_repo.go:99-142 | after n pages the client holds exactly the first n times limit rows of the table it started from, in order, and has no next cursor exactly if these are all |
| AuditPages.WalkIsComplete | services/audit-svc/internal/repository/postgres/audit_repo.go:99-142 | followed to its end, the cursor yields the whole sorted, filtered table without gap or repeat |
| AuditPages.WalkTerminates | services/audit-svc/internal/repository/postgres/audit_repo.go:99-142 | no walk is longer than its answer needs, however the table grows above the cursor |
| RateLimiter.TokenBucket.Allow | pkg/middleware/ratelimit.go:19-33 | refills for the elapsed time up to the maximum and takes a token if there is one |
| RateLimiter.Limiter.Cleanup | pkg/middleware/ratelimit.go:111-119 | the loop deletes exactly the buckets idle for longer than five minutes |
| RateLimiter.Limiter.AllowKey | pkg/middleware/ratelimit.go:88-108 | sweeps if it is time, creates a missing bucket full, and takes from the key's bucket only |
| RateLimiter.AllowExact | pkg/middleware/ratelimit.go:19-119 | a request is let through exactly if its bucket, full if it is new or was swept away, holds a token after what it gained since its last use, up to the burst; it takes that token, and other buckets are untouched unless a sweep finds them idle for more than 300 s |
| RateLimiter.EvictionInvisible | pkg/middleware/ratelimit.go:88-119 | if a bucket refills within the cleanup age, every run with any keys and rising clock readings is answered as by a limiter that never evicts |
| RateLimiter.EvictionShows | pkg/middleware/ratelimit.go:88-119 | if it does not, there is a run that is answered differently, and the lemma constructs it |
| RateLimiter.InvisibleIff | pkg/middleware/ratelimit.go:88-119 | eviction is invisible exactly if refill rate times 300 s reaches the burst, or the burst is below one and nothing is ever let through |
| RateLimiter.WindowBound | pkg/middleware/ratelimit.go:19-33 | if a bucket refills within the cleanup age, then in any stretch of a run of length T, whatever came before, a key gets at most burst plus rate times T requests |
| RateLimiter.BoundBroken | pkg/middleware/ratelimit.go:88-119 | if it does not, and the burst is at least one, there is a run in which a key gets more, and the lemma constructs it |
| RateLimiter.WindowBoundIff | pkg/middleware/ratelimit.go:88-119 | for every refill rate that is not negative, the bound holds in every stretch of every run exactly if the burst is not negative, and is below one or reached by refill rate times 300 s |
| RateLimiter.SpacedIsGranted | pkg/middleware/ratelimit.go:19-119 | a key whose calls are so far apart that the bucket gains a token in between is never turned away, with or without eviction, whatever other keys do |
| Dispatcher.NotificationRepository.PickDue | services/notification-svc/internal/repository/notification_repository.go:182-189 | picks different, due, unlocked rows up to the batch size, and all of them if the batch is not full |
| Dispatcher.NotificationRepository.ClaimPending | services/notification-svc/internal/repository/notification_repository.go:178-209 | marks exactly the picked rows PROCESSING and returns them as they were; a failure claims nothing for the caller |
| Dispatcher.NotificationRepository.UpdateStatus | services/notification-svc/internal/repository/notification_repository.go:107-127 | sets the status and, where given, the retry count of one row |
| Dispatcher.Dispatcher.Poll | services/notification-svc/internal/worker/dispatcher.go:127-141 | queues the claimed rows in order, as far as a shutdown allows |
| Dispatcher.Dispatcher.MarkRetryOrFailed | services/notification-svc/internal/worker/dispatcher.go:256-277 | writes the next retry count, and FAILED once it reaches the maximum, RETRYING before (`Dispatcher.WrittenExact` states it of the row) |
| Dispatcher.Dispatcher.MarkFailed | services/notification-svc/internal/worker/dispatcher.go:279-290 | writes FAILED and leaves the retry count |
| Dispatcher.Dispatcher.Process | services/notification-svc/internal/worker/dispatcher.go:143-215 | the row after an attempt, for each way the attempt and the write-back can end |
| Dispatcher.WrittenExact | services/notification-svc/internal/worker/dispatcher.go:143-290 | after an attempt whose write takes effect, the row is SENT exactly if the message was taken, RETRYING exactly if the send failed and the next retry count is below the maximum, and FAILED otherwise; the count grows only by a failed send, and no other row changes |
| Dispatcher.Reachable | services/notification-svc/internal/worker/dispatcher.go:143-290 | any run of claims, sends, write-backs, crashes and lost writes by any number of workers keeps each row's status and retry count in step with the messages sent for it |
| Dispatcher.OneHolder | services/notification-svc/internal/repository/notification_repository.go:178-209 | no notification is ever in two workers' hands, and one in hand is PROCESSING |
| Dispatcher.AttemptsBounded | services/notification-svc/internal/worker/dispatcher.go:143-277 | a notification is sent at most max(1, MaxRetries) times, taken by the provider at most once, and its retry count never exceeds the failed sends nor lags more than one behind |
| Dispatcher.FinalIsFinal | services/notification-svc/internal/worker/dispatcher.go:256-290 | no step of anyone changes a SENT or FAILED row or sends its message again |
| Dispatcher.GivenUpOnlyAfter | services/notification-svc/internal/worker/dispatcher.go:143-290 | in every run a notification is FAILED only after max(1, MaxRetries) failed sends or an attempt without provider or rendering, and in a worker's hands only once it is due |
| Dispatcher.CanBeSent | services/notification-svc/internal/repository/notification_repository.go:178-209 | a notification that is PENDING or RETRYING and due can be claimed, sent and be SENT, from any state |
| Dispatcher.FailedSendIsRetried | services/notification-svc/internal/worker/dispatcher.go:256-277 | in every run, a send that fails while an attempt is left makes the notification RETRYING and due, and it can be sent after all |
| Idempotency.ResponseRecorder.WriteHeader | pkg/middleware/idempotency.go:334-339 | the first status wins |
| Idempotency.ResponseRecorder.Write | pkg/middleware/idempotency.go:341-347 | the first write fixes status 200; the body grows by what is written |
| Idempotency.TransparentIff | pkg/middleware/idempotency.go:294-347 | recording a handler and writing the record out gives the client the final response the handler's own calls would, exactly if the handler writes anything and, should it send an informational status first, its final status is 200 by itself or by default |
| Idempotency.EarlyHintsLost | pkg/middleware/idempotency.go:334-339 | a handler that sends an informational status and then another final status than 200 has its status replaced by 200 |
| Idempotency.StoredAlike | pkg/middleware/idempotency.go:244-303 | a recorded response and the response it is delivered as are replayed alike and stored as the same kind of record |
| Idempotency.RedisStore.Acquire | pkg/idempotency/redis_store.go:45-82 | one atomic get-or-set: owner, in flight, or the stored response |
| Idempotency.RedisStore.Complete | pkg/idempotency/redis_store.go:84-95 | overwrites the record for a full TTL |
| Idempotency.AcquireExact | pkg/idempotency/redis_store.go:45-82 | a caller becomes the owner exactly if the scope has no record that lasts, and then holds it for one TTL; otherwise nothing is written and a stored response, of either kind, is returned |
| Idempotency.Middleware.Protect | pkg/middleware/idempotency.go:87-105 | one protected request answers and leaves the store as the machine's steps for it with nothing in between |
| Idempotency.AloneExact | pkg/middleware/idempotency.go:87-147 | store and answer after one request: a held scope answers from its record; a free one is run, recorded, answered with the first status and the whole body, and stored for one TTL, as failed from status 400 on, unless the body is over the limit or the write fails; without the store the handler runs unprotected |
| Idempotency.AskedTwice | pkg/middleware/idempotency.go:59-106 | the same request again is replayed as long as the record lasts, and run anew from the moment it has run out |
| Idempotency.FirstOwns | pkg/middleware/idempotency.go:59-106 | in every run, the first request that asks for a scope, if the store answers it, becomes its owner |
| Idempotency.Middleware.Handle | pkg/middleware/idempotency.go:50-108 | safe methods and human callers pass through untouched, a missing or overlong key is refused without touching the store, the rest is protected under its scope |
| Idempotency.Reachable | pkg/middleware/idempotency.go:59-106 | every interleaving of requests, failures and crashes keeps owners, runs, stored records and replays in step |
| Idempotency.OwnersApart | pkg/idempotency/redis_store.go:21-28 | in any run at all, two requests that own one scope acquired it at least a TTL apart |
| Idempotency.HandlerRunsOnce | pkg/middleware/idempotency.go:59-106 | with a store that answers every acquisition and a run shorter than the TTL, the handler runs at most once for a scope |
| Idempotency.ReplayRepeats | pkg/middleware/idempotency.go:283-291 | a replay, in any run, repeats the status and body that an owner of the scope answered with |
| Idempotency.OneResponse | pkg/middleware/idempotency.go:59-106 | within one TTL all answers of a scope that carry a response carry the same status and body |
| Idempotency.StandsIff | pkg/idempotency/redis_store.go:45-95 | as long as the record of a scope lasts, every acquisition in every continuation is answered from it, exactly if no owner is at work that could write anything else |
| Idempotency.RetryReplays | pkg/middleware/idempotency.go:59-106 | once an owner has stored its response, in whatever run, every acquisition within a TTL replays it, exactly if no other owner of the scope is still at work with another response or with none yet |
| Idempotency.RetryConflicts | pkg/middleware/idempotency.go:232-280 | once an owner's handler has ended without a response to store, because it wrote nothing, too much, or an impossible status first, or did not survive, every acquisition gets 409 until the owner's TTL ends, exactly if the scope is still marked as in progress and no other owner is at work on it |
| Idempotency.ScopeSharedIff | pkg/middleware/idempotency.go:306-310 | a request shares its scope with some different request exactly if its caller, method, path or key contains a bar; a bar in path or key is enough for one with the same caller and method |
| Idempotency.AcceptedSharedIff | pkg/middleware/idempotency.go:151-168 | for a caller and a method without bars, and among requests whose keys are accepted, the scope is shared exactly if path and key, joined by a bar, can be split at another bar with an acceptable key behind it |
| StringArray.Value | services/auth-svc/internal/domain/dao/user.go:19-35 | the builder loop prints the array with every element quoted |
| StringArray.Scan | services/auth-svc/internal/domain/dao/user.go:37-85 | the three-flag loop computes the scan of the specification; nil, other types and unbraced text are handled first |
| StringArray.RefusedIff | services/auth-svc/internal/domain/dao/user.go:37-55 | a text is refused exactly if, white space around it aside, it is not enclosed in braces |
| StringArray.ScansAs | services/auth-svc/internal/domain/dao/user.go:56-85 | any text in braces scans to its elements: commas outside quotes separate them, quotation marks are dropped, and an escaped character, inside quotes or out, is taken as it is |
| StringArray.RoundTrip | services/auth-svc/internal/domain/dao/user.go:19-85 | scanning what was printed returns the array, for every array of strings |
| StringArray.ReadsBack | services/auth-svc/internal/domain/dao/user.go:37-85 | any literal whose elements are quoted at least where they must be, as the server prints them, reads back as its elements, save that a lone unquoted empty element reads as none |
| StringArray.ValueInjective | services/auth-svc/internal/domain/dao/user.go:19-35 | different arrays are stored as different texts |

## Left out

- Payments: an account call whose answer is lost after it took effect. A failed call is one that did not
  apply, as on the version-conflict path; a lost request may be resent before it writes.
- Payments: creation of accounts and changes of their status during a run, events published after success, and
  free-text fields of a transaction.
- Refunds and Charges: concurrent calls. The duplicate checks are not atomic with the insert, so their
  properties are stated over sequential runs.
- Charges: expiry times are stored but not enforced by `Pay`, and are not modelled, like the labels stored with a
  charge. Registration of merchants and generation of NMIDs.
- Charges and QrPayments: failing reads of merchants, charges and a settled charge's transaction, which end a call
  before anything is written.
- Transfer, merchant payment, fee, reverse, cancel and retry of transactions: not implemented in the program.
- Codec and Amounts: strings are sequences of bytes; white space outside ASCII is not trimmed and case
  folding is that of ASCII.
- StringArray: strings are sequences of Unicode characters; input that is not UTF-8, and white space outside
  ASCII around a literal.
- TokenStore: failing Redis calls, TTLs rounded to milliseconds, and a TTL configured as zero or less. Hashes of
  different tokens are different.
- AuthService: access tokens and passwords; failing store calls.
- ApiKeyCache: `InvalidateAll`; the adapter in account-svc that rewrites the shared cache; failing database writes
  other than revocation. A lookup's cache read, clean-up and query are one step.
- AuditPages: failing queries and inserts, which answer nothing and change nothing; cursors that decode but were
  not issued by the server; rows added below the cursor.
- RateLimiter: rounding of floating-point numbers, extraction of the key from a request, and negative refill rates.
- Dispatcher: templates, providers and schedules, which decide only how an attempt ends; manual retry and cancel.
- Idempotency: response headers; the informational responses themselves; the dual store and the Postgres
  store; collisions of SHA-256; corrupt records.
- HTTP handlers, validation tags, configuration, JWT and password handling, logging, metrics and tracing.
