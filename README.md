# Card payment mock: a Dafny model

This project models the core of a small mock credit-card payment service
written in Python for a classroom exercise. It covers five parts:

- A merchant builds a **transaction**: a dictionary holding the card, the
  amount in cents, the currency and the merchant.
- **Validation** checks the card number's vendor pattern, its Luhn check
  digit, the CVV length, readiness, the amount ceiling of 500000 cents and
  the expiry window. It stamps a verdict on the transaction: approved, or a
  failure code 401, 402, 405 or 408.
- **Authorization** looks the card up in an **enrollment table** of known
  cards. It approves the transaction with an approval code, or declines it
  with 401, 411 or 405.
- Approved transactions wait in a **pending store** keyed by approval code.
- A **settlement batch** checks each transaction of a batch. It stamps the
  accepted ones with one settlement id and removes them from the pending
  store. `from_json` restores a stored batch by replaying it.

The model has one file per source module:

| file | source | form |
|---|---|---|
| `values.dfy` | (Python's values) | JSON values, truthiness, `int()` and `str()` |
| `card_validation.dfy` | `validation_utilities.py` | pure functions; the two loops as methods |
| `datastore.dfy` | `datastore.py` | class `PendingStore` over an ordered key list and a map |
| `enrollment.dfy` | `ccstore.py` | class `EnrollmentStore`; the loader as a method specified by `LoadAll` |
| `transactions.dfy` | `cc_transaction.py` | class `Transaction` whose methods update `data` in place |
| `settlements.dfy` | `cc_settlement.py` | class `Settlement`; `settle` and `from_json` as loops over the batch |

The model takes the things Python reads from its environment as parameters:

- Each `uuid.uuid4()` is a `token` string.
- Today's date is a `today: Date` parameter.
- The class-wide switch `CCTransaction.enableAuthorizationChecks` is a
  `checksEnabled` argument.
- The module-level dictionaries `_DATASTORE` and `_CCSTORE` are objects
  passed to the operations that use them.

Where Python raises an exception that the code's own control flow produces,
the model returns a `Result` or records the exception. This covers the
`KeyError` raised while reporting a record that lacks `id`, the
`AttributeError` raised when `check_transaction` reports a missing attribute,
and the `TypeError` or `ValueError` that `validate_date` raises when a month
or year cannot be converted or names no date. Validation reaches the expiry
check last, so a transaction that fails an earlier check is declined whatever
its expiry fields hold.

Behaviours of the code that the model keeps:

- `check_transaction` never returns False. Its report calls `to_json` on a
  plain dictionary, so a transaction missing an attribute makes `settle`
  raise instead of listing the transaction as unsettled. `settle`'s
  "unsettled" branch after a failed check is therefore unreachable.
- `settle` ignores the 404 record that `datastore.settle` returns for an
  unknown approval code.
- `from_json` calls `settle` on each transaction that has no settlement id,
  and the result replaces the batch built so far. Transactions already kept
  under the stored batch id can therefore be dropped
  (`ReplayDropsKeptTransaction`).
- Authorization compares the card code with the record stored under the
  *customer* id. That record is the customer's most recently loaded card
  (`CodeCheckedAgainstCustomerRecord`).

## Model

| member | source | states |
|---|---|---|
| CardValidation.Digits | validation_utilities.py:31 | The stripped number holds only digits, is no longer than the input, and equals the input when the input is all digits. |
| CardValidation.DigitsAppend | validation_utilities.py:31 | Stripping distributes over concatenation: the digits of `a + b` are those of `a` followed by those of `b`. With `DigitsOfChar`, every digit of the input is kept, in order, and every non-digit dropped. |
| CardValidation.DigitsOfChar | validation_utilities.py:31 | A single character survives stripping iff it is a digit. |
| CardValidation.FirstMatch | validation_utilities.py:32-35 | Returns nothing iff no vendor of the table matches. Otherwise returns a matching vendor with no earlier table entry matching. |
| CardValidation.VendorOf | validation_utilities.py:29-35 | A returned vendor's pattern matches the number's digits; when none is returned, no vendor's pattern matches. |
| CardValidation.EveryVendorInTable | validation_utilities.py:20-27 | The vendor table lists every vendor. |
| CardValidation.PatternsDisjoint | validation_utilities.py:20-27 | No digit string matches two vendor patterns, so the table's order never decides the vendor. |
| CardValidation.VendorOfMatches | validation_utilities.py:20-35 | A card number has vendor v iff its digits match v's pattern (both directions). |
| CardValidation.AmexShape | validation_utilities.py:23 | An amex number has 15 digits and starts with 34 or 37. |
| CardValidation.VisaShape | validation_utilities.py:21 | A visa number has 13 or 16 digits and starts with 4. |
| CardValidation.VendorIgnoresSeparators | validation_utilities.py:31 | The vendor depends only on the digits; separators are ignored. |
| CardValidation.CreditCardVendor | validation_utilities.py:29-35 | The loop returns the vendor the table defines. Its pattern matches the digits. When nothing is returned, no vendor matches. |
| CardValidation.Contribution | validation_utilities.py:56-60 | One digit's share of the Luhn sum is at most 9, and an undoubled digit contributes its value. |
| CardValidation.LuhnSum | validation_utilities.py:53-61 | The Luhn sum is at most 9 per digit. |
| CardValidation.LuhnValid | validation_utilities.py:50-64 | A number without digits passes the Luhn check, and a one-digit number passes iff the digit is 0. |
| CardValidation.LuhnSumFront | validation_utilities.py:55-61 | The right-to-left Luhn sum seen from the left: the first digit is doubled iff it lies an odd distance from the right end. |
| CardValidation.VerifyLuhn | validation_utilities.py:50-64 | The loop, with its length-parity doubling rule, computes exactly the ISO/IEC 7812-1 Luhn check. A number without digits passes. |
| CardValidation.DoubledFromTheRight | validation_utilities.py:54-57 | The test `(i + 1) % 2 != len % 2` holds iff position i lies an odd distance from the right end. |
| CardValidation.RightmostNotDoubled | validation_utilities.py:54-61 | The check digit is never doubled and the digit before it always is. |
| CardValidation.CheckDigit | validation_utilities.py:50-64 | The check digit completing a payload is a single decimal digit. |
| CardValidation.CheckDigitUnique | validation_utilities.py:50-64 | A payload plus one digit passes the Luhn check iff that digit is the payload's check digit. |
| CardValidation.LuhnSumReplace | validation_utilities.py:55-61 | Replacing one digit changes the Luhn sum only by the change in that digit's contribution. |
| CardValidation.LuhnDetectsSingleDigitError | validation_utilities.py:50-64 | Changing any single digit changes the Luhn sum modulo 10, so the check rejects every single-digit error. |
| CardValidation.ValidateCvv | validation_utilities.py:66-76 | An amex card needs a 4-character CVV and every other recognised vendor a 3-character one. An unrecognised card always fails. |
| CardValidation.ValidateCard | validation_utilities.py:37-48 | The verdict is true iff a vendor matched, the Luhn check passed and the CVV passed. The three sub-results are returned as well. |
| CardValidation.ValidateDate | validation_utilities.py:78-84 | Rejects expiries in a past year, an earlier month of this year, or at least `max_future_year` years ahead. Accepts every year strictly between. In the current month the result depends on whether today is before the 28th. A later month of the current year is accepted iff the window is positive. |
| CardValidation.ExpiryCheck | validation_utilities.py:78-84 | `validate_date` on unconverted month and year values raises iff `int()` fails on either or the date (year 1-9999, month 1-12) does not exist. The year is converted first, so its error wins. Otherwise the answer is the `ValidateDate` verdict. |
| Datastore.NotFound | datastore.py:28 | The record returned for an unknown approval code has failure code 404 and no approval code. |
| Datastore.PendingStore.constructor | datastore.py:9 | The store starts empty. |
| Datastore.PendingStore.Store | datastore.py:11-20 | Stores a transaction under its approval code, last write wins, and keeps first-insertion order. Without a code it refuses and changes nothing. The size grows by one exactly for a new code. |
| Datastore.PendingStore.Settle | datastore.py:22-29 | Removes and returns the transaction under the code, or returns the 404 record and changes nothing. Afterwards the code is absent and every other entry and the order of the rest are kept. For an unknown code the order and the entries are exactly as before. |
| Datastore.PendingStore.Size | datastore.py:31-33 | The number of stored transactions equals the number of codes in insertion order. |
| Datastore.PendingStore.UnsettledKeys | datastore.py:35-40 | Returns the codes in insertion order. They are exactly the stored keys, one per stored transaction. |
| Datastore.PendingStore.Unsettled | datastore.py:42-47 | Returns one transaction per stored code. The i-th is the one stored under the i-th code. |
| Enrollment.LoadRecord | ccstore.py:54-71 | Loading one record raises iff the record lacks `id`, or its card passes and its expiry cannot be converted, or it is eligible and lacks `customer_id`. An expiry that raises leaves the table unchanged. |
| Enrollment.LoadAll | ccstore.py:48-71 | A load raises iff some record of the list raises on its own. |
| Enrollment.LoadRecordEffect | ccstore.py:62-67 | An ineligible record leaves the table alone. An eligible one is stored under its card id and its customer id, and every other entry is kept. |
| Enrollment.LoadRecordKeepsValid | ccstore.py:62-67 | Loading one record without an exception keeps the table's invariant. The invariant: every entry is a complete record whose customer id is also a key. |
| Enrollment.LoadAllKeepsValid | ccstore.py:48-71 | A whole load that raises nothing keeps the table's invariant. |
| Enrollment.LoadAllKeepsKey | ccstore.py:50-67 | An entry that no later eligible record names, by card id or customer id, survives the load unchanged. |
| Enrollment.LoadedUnderBothKeys | ccstore.py:62-67 | After a load, an eligible record is found under its card id and its customer id, unless a later eligible record reuses the key. |
| Enrollment.EnrollmentStore.constructor | ccstore.py:13 | The table starts empty and valid. |
| Enrollment.EnrollmentStore.Enrolled | ccstore.py:32-33 | A card id is enrolled iff it is a key of the table, and its record then has every required field. |
| Enrollment.EnrollmentStore.CustomerId | ccstore.py:35-38 | Returns a customer id iff the card is enrolled (None otherwise), and that id is itself a key of the table. |
| Enrollment.EnrollmentStore.CheckCode | ccstore.py:40-42 | Compares the code with the record under the customer id. A falsy code never matches, because stored codes are truthy. |
| Enrollment.EnrollmentStore.Limit | ccstore.py:44-46 | The limit stored under a customer id is never falsy. |
| Enrollment.EnrollmentStore.CheckFields | ccstore.py:54-61 | Raises `KeyError('id')` iff `id` is missing. Otherwise the record is complete iff every required field is present and truthy. |
| Enrollment.EnrollmentStore.LoadCard | ccstore.py:50-71 | Loading one record changes the table and raises exactly as `LoadRecord` says, including the exception of the expiry check. |
| Enrollment.EnrollmentStore.LoadCards | ccstore.py:48-71 | The loop loads the records in order and stops at the first exception, as `LoadAll` says. A load without an exception keeps the table valid. |
| Transactions.NewCard | cc_transaction.py:35-37 | A new card has exactly the six card fields. |
| Transactions.InitialData | cc_transaction.py:31-40 | A new transaction holds a card, an `auth_` id, the currency and a zero amount, and nothing else. It is well formed and not ready for a request. |
| Transactions.Transaction.constructor | cc_transaction.py:31-40 | The object's data is the initial transaction. |
| Transactions.Transaction.SetAmount | cc_transaction.py:45-49 | Sets the amount to `int(amount)` and the currency, and keeps the transaction well formed. |
| Transactions.Transaction.SetAmountDc | cc_transaction.py:51-55 | Sets the amount to dollars × 100 + cents and the currency. |
| Transactions.Transaction.SetMerchantData | cc_transaction.py:65-67 | Replaces the merchant with the given name and network id. |
| Transactions.SetupMakesReady | cc_transaction.py:31-84 | A new transaction with a positive amount and a merchant set is ready for a request. |
| Transactions.Transaction.IsReadyForRequest | cc_transaction.py:69-84 | True iff the id, a complete card and a complete merchant are there and the amount is positive. |
| Transactions.TypeValue | cc_transaction.py:162-164 | The card's `type` is the vendor name when a vendor matched, and a non-string `False` otherwise. |
| Transactions.WithCardCheck | cc_transaction.py:158-165 | Checking the card adds only `valid` and `type` to the card. Readiness, expiry and every other entry are unchanged. |
| Transactions.Transaction.ValidateCard | cc_transaction.py:158-165 | Stamps the card check on the card and returns its verdict. |
| Transactions.ExpiryOutcome | cc_transaction.py:167-173 | A card lacking either expiry field passes the expiry check. The check raises iff both fields are there and cannot be converted to a date. |
| Transactions.CardCheckKeepsExpiry | cc_transaction.py:158-173 | Checking the card does not change the expiry check's outcome. |
| Transactions.Transaction.ValidateDate | cc_transaction.py:167-173 | Returns the expiry check against today, with the default five-year window, or the exception it raises. |
| Transactions.Recorded | cc_transaction.py:184-207 | Recording a verdict adds `approved`, `failure_code` and `failure_message`, and nothing else changes. The failure code is empty iff approved. An approval records an empty message; a decline records its own code and message. |
| Transactions.RecordedKeepsShape | cc_transaction.py:184-207 | Recording a verdict keeps the card, the amount, the merchant and readiness. |
| Transactions.ValidationVerdict | cc_transaction.py:175-209 | Validation raises only after the card, readiness and amount checks pass, and only when the expiry cannot be converted. |
| Transactions.ValidationVerdictMeaning | cc_transaction.py:175-209 | Approved iff the card is valid, the transaction is ready, 0 ≤ amount ≤ 500000 and the expiry check answers true. It raises iff those earlier checks pass and the expiry check raises, with the same error. 401 "Card is not valid" iff the card check fails; 402 "Missing information for transaction approval" iff the card is valid and the transaction not ready; 405 "Transaction amount threshold exceeded" iff the card is valid, the transaction ready and the amount outside 0..500000; 408 "Invalid expiration date" iff every earlier check passes and the expiry check answers false. |
| Transactions.DefaultTransactionDeclined | cc_transaction.py:31-209 | A transaction left at its defaults has an expiry month 0 that would raise, yet validation declines it with 401 because the card check fails first. |
| Transactions.AmountBoundaries | cc_transaction.py:189-198 | For a transaction with a valid card and the request data, every amount from 1 to 500000 cents is approved when the expiry passes. 500001 and above give 405, and 0 or below give 402, whatever the expiry fields hold. |
| Transactions.Transaction.Judge | cc_transaction.py:184-207 | The checks after the card check, in order, produce the validation verdict or the expiry exception. |
| Transactions.Transaction.ValidateTransaction | cc_transaction.py:175-209 | Stamps the card check, then records the validation verdict and returns whether it approves. When the expiry check raises, it returns that exception and records nothing beyond the card check. |
| Transactions.AuthorizationVerdict | cc_transaction.py:211-248 | With checks off the verdict is approval and nothing raises; a decline carries code 401, 405 or 411. |
| Transactions.CustomerVerdict | cc_transaction.py:228-241 | The checks on the customer's record decline only with 411 (code) or 405 (limit). |
| Transactions.AuthorizationVerdictMeaning | cc_transaction.py:211-248 | With checks off, every transaction is approved. With checks on: 401 "Credit card account not found" iff the card id is present, hashable and not enrolled; 411 "Card code incorrect" iff the card is enrolled and its code differs from the one under the customer id; 405 "Account threshold exceeded" iff the code matches and the amount is at least that record's converted limit; approved iff the code matches and the amount is below it. It raises iff the card id is missing or a dictionary, or an enrolled card lacks its code, or the code matches and the reached limit fails `int()`. |
| Transactions.OtherLimitIgnored | cc_transaction.py:225-230 | Only the records under the card id and the customer id are read: replacing any other record's limit by any value leaves the verdict unchanged. |
| Transactions.ValidTableAuthorizable | cc_transaction.py:225-230 | In every table the loader can build, an enrolled card leads to a complete record under its customer id. |
| Transactions.Authorized | cc_transaction.py:221-247 | An approval adds `authorized` and an `appr_` approval code, and every other entry is kept. A decline adds `authorized`, its failure code and its message, and every other entry is kept. |
| Transactions.AuthorizedKeepsShape | cc_transaction.py:221-247 | Recording an authorization keeps the transaction well formed. |
| Transactions.Transaction.Decide | cc_transaction.py:218-248 | The store lookups, in the source's order, give the authorization verdict, including the exception raised. |
| Transactions.Transaction.AuthorizeTransaction | cc_transaction.py:211-248 | Records the authorization verdict on the transaction and returns true iff approved. When a lookup raises, returns that exception and leaves the transaction unchanged. |
| Transactions.CodeCheckedAgainstCustomerRecord | cc_transaction.py:225-230 | Concrete case: a customer's first card is authorized with the code of the customer's last loaded card. |
| Transactions.SharedCustomerTableValid | ccstore.py:62-67 | The table of that concrete case satisfies the loader's invariant. |
| Transactions.Merged | cc_transaction.py:118-133 | `from_dict` keeps the approval code and the settlement id exactly as the dictionary has them, and always yields a card dictionary. |
| Transactions.MergedShape | cc_transaction.py:118-133 | `from_dict` keeps every entry but card and merchant, and keeps the defaults not overridden. The card keeps every default field. The merchant is taken iff it is a non-empty dictionary. The result is well formed unless the amount is not an integer. |
| Transactions.MergedRoundTrip | cc_transaction.py:118-133 | `from_dict` on the dictionary of a well-formed transaction with a complete card returns that dictionary. |
| Transactions.Transaction.FromDict | cc_transaction.py:118-133 | The key-by-key loop builds exactly `Merged(src)`. |
| Transactions.Transaction.MergeEntry | cc_transaction.py:122-132 | One dictionary entry handled by the loop: card and merchant dictionaries are merged, other values under those keys are skipped, and any other entry is copied. |
| Transactions.Transaction.MergeCard | cc_transaction.py:123-128 | A card dictionary's entries overwrite the transaction's card entries one by one. |
| Transactions.Transaction.MergeMerchant | cc_transaction.py:125-128 | The merchant is created before its first entry, so an empty merchant dictionary leaves none. |
| Transactions.Transaction.CopyEntries | cc_transaction.py:125-128 | Copying entries one by one gives the union, with the copied entries winning. |
| Settlements.CheckOutcome | cc_settlement.py:53-77 | The check either raises or answers True; it never answers False. |
| Settlements.SettleCheck | cc_settlement.py:53-90 | With `settle`'s attribute lists, the check passes iff the card has `type` and `valid`, the merchant has `name` and `network_id`, and the transaction has `approved` and `approval_code`. |
| Settlements.Acceptable | cc_settlement.py:90-95 | An accepted transaction passes the check and has a truthy approval flag and approval code. |
| Settlements.CheckOutcomeCases | cc_settlement.py:53-77 | The check passes iff every asked attribute is present. `KeyError('card')` or `KeyError('merchant_data')` is raised exactly when that dictionary is missing and attributes are asked of it. |
| Settlements.Settlement.CheckTransaction | cc_settlement.py:53-77 | The three attribute loops and the report give the check's outcome. |
| Settlements.Stamped | cc_settlement.py:99 | Stamping sets the settlement id and keeps every other entry. |
| Settlements.StampKeepsCheck | cc_settlement.py:90-99 | Stamping changes neither the check's outcome nor whether the transaction is accepted. |
| Settlements.StopIndex | cc_settlement.py:88-105 | The position of the first transaction whose check raises: every check before it passes. |
| Settlements.IdUpTo | cc_settlement.py:97-98 | The batch id is still "pending" iff no transaction so far was accepted. |
| Settlements.CodesUpToMembers | cc_settlement.py:95-101 | The codes removed from the pending store are exactly the approval codes of the accepted transactions. |
| Settlements.Verdicts | cc_settlement.py:95-96 | Position j is accepted iff its transaction passes the check and is approved with an approval code. |
| Settlements.PartsPartition | cc_settlement.py:100-105 | The settled and the unsettled lists together are the batch, as a multiset. |
| Settlements.PartMembers | cc_settlement.py:100-105 | A transaction is in the settled (unsettled) list iff some position of the batch holds it as accepted (not accepted). |
| Settlements.Settlement.constructor | cc_settlement.py:48-51 | A new settlement is "pending" with two empty lists. |
| Settlements.Settlement.Settle | cc_settlement.py:79-106 | Raises iff some check raises, with that check's error. Otherwise the batch id is fixed by the first accepted transaction, and the settled and unsettled lists are the accepted and other transactions in batch order. Accepted transactions are stamped and their codes removed from the pending store. When a check raises, the effects up to that point stay. |
| Settlements.RestoredShape | cc_settlement.py:131 | A restored transaction has the shape `settle` needs. |
| Settlements.SettledAlone | cc_settlement.py:133 | `settle` on one transaction: raises like its check, or starts a new batch holding it as settled or as unsettled. |
| Settlements.ReplayStep | cc_settlement.py:130-137 | One replayed transaction never gives back a removed approval code, and one carrying a settlement id never raises. |
| Settlements.ReplayAll | cc_settlement.py:130-138 | The replay only adds removed approval codes, and once an exception is raised the state stays as it is. |
| Settlements.RestoredAll | cc_settlement.py:130-131 | `from_dict` rebuilds each stored transaction, in order. |
| Settlements.ReplayCarriesId | cc_settlement.py:130-135 | Every transaction a restored batch lists as settled carries the batch's final id. |
| Settlements.ReplayUnsettledAtMostOne | cc_settlement.py:130-137 | A restored batch lists at most one unsettled transaction. |
| Settlements.ReplayOfSettledBatch | cc_settlement.py:130-137 | A stored batch whose every transaction carries its id restores to itself, in order, and nothing is settled again. |
| Settlements.ReplayDropsKeptTransaction | cc_settlement.py:130-138 | Concrete case: a transaction kept under the stored id is lost when a later one without a settlement id is settled alone. |
| Settlements.Settlement.FromJson | cc_settlement.py:123-138 | The restore loop follows the replay specification: same id, same settled and unsettled data, same exception. The pending store loses exactly the codes settled again. |
| Settlements.Settlement.RestoreOne | cc_settlement.py:130-137 | One stored transaction is settled alone, kept, or skipped, as `ReplayStep` says. |
| Settlements.Settlement.SettleAlone | cc_settlement.py:133 | `settle([t])` inside `from_json` gives the new batch `SettledAlone` describes. |

## Left out

- JSON text is not modelled. Values are decoded JSON objects, strings, integers and booleans (`PyValues.Value`); JSON arrays, floats and null are not representable, and `to_json`, `list_to_json`, `json_to_list`, `CCTransaction.from_json`, `update_from_json` and `CCSettlement.to_json` are not modelled. `CCSettlement.from_json` is modelled from its decoded `settlement_id` and `transactions` entries.
- `CCSettlement.from_dict` is not modelled. It returns an empty settlement when `settlement_id` or `transactions` is absent (cc_settlement.py:144); when both are present it reads them as attributes of a dictionary and raises AttributeError.
- The HTTP service, the tests, file loading (`_init_ccstore`), concurrency, `print` and logging are not modelled.
- `get_amount` and `get_name` are plain reads and are not modelled.
- `set_authorization_checks` is not modelled; the class-wide switch is the `checksEnabled` argument.
- CardValidation.Digits: keeps only the ASCII digits 0-9. Python's `\D` also keeps other Unicode decimal digits, which `int()` converts, so numbers containing them are classified differently.
- The regular-expression engine is not modelled. Each vendor pattern is written out as a digit-prefix and length predicate, and `re.sub` as `Digits`.
- Floating-point amounts are not modelled, and `int()` is modelled only on integers, booleans and signed decimal strings (no whitespace or underscores).
- `str()` is modelled only on scalars, not on dictionaries.
- Python's `1 == True` equality is not modelled: values of different constructors compare unequal.
- The copy of each record's fields that `_validate_cc_data` builds with `str().strip()` is never used and is not modelled.
- Transactions.Transaction.SetAmount: requires that `int(amount)` succeeds; Python raises otherwise.
- Transactions.Transaction.ValidateCard: requires the card to hold a string `id` and a `card_code` that is not a dictionary (`CardReadable`). Python raises a KeyError for a missing `id` or `card_code` and a TypeError for a non-string `id`. A dictionary `card_code` does not raise in Python (`len(str(cvv))` works), but `str()` is modelled only on scalars.
- Transactions.Transaction.ValidateTransaction: requires a well-formed transaction (a card dictionary, an integer amount, a merchant that is a dictionary when present) with a readable card. The service validates whatever `from_json` decoded (credit_card_validation_service.py:141-142), and `from_dict` can yield a non-integer amount. Outside that shape Python behaves differently: an invalid card with amount "100" gets 401, a valid ready card with amount "100" raises a TypeError at `> 0` (cc_transaction.py:83-84), a missing card raises a KeyError, and a string `merchant_data` turns the readiness test into a substring test.
- Transactions.Transaction.AuthorizeTransaction: requires a well-formed transaction, like `ValidateTransaction`; outside that shape (a missing card, a non-integer amount) Python raises or compares differently.
- Enrollment.EnrollmentStore.CheckCode: requires a customer id that is a key of the table holding a complete record; Python raises a KeyError otherwise, and authorization only passes such ids.
- Enrollment.EnrollmentStore.Limit: requires a customer id that is a key of the table holding a complete record; Python raises a KeyError otherwise, and authorization only passes such ids.
- Enrollment.EnrollmentStore.LoadCards: requires string card ids and customer ids, and card codes that are not dictionaries (`RecordShaped`), because the table is keyed by strings. Python raises a TypeError when it reports a non-string card id, and stores under any hashable customer id. Expiry fields that cannot be converted are modelled as the exception they raise.
- Datastore.PendingStore.Store: requires a string approval code when one is present; Python accepts any hashable key.
- Settlements.Settlement.Settle: requires card and merchant entries to be dictionaries, string approval codes and distinct transaction objects. A batch listing one object twice is not modelled.
- Settlements.Settlement.FromJson: requires string approval codes in the stored transactions, and takes the stored id and list as already extracted. A missing `settlement_id` or `transactions` key is not modelled.
