# Payment routing with failover, modelled in Dafny

This project models a small payment back end. It also models the two mock
payment providers it talks to.

The back end:
- validates a charge request;
- sends it to provider one (the primary);
- if that fails, converts the request into provider two's format and sends it to provider two (the fallback) once;
- records the provider that succeeded in an in-memory ledger under a fresh transaction id;
- answers with the provider's response, where the provider's `id` is replaced by that transaction id.

Details and refund requests look the transaction id up in the ledger. They
then delegate to the provider the record names, using that provider's own
payment id.

The mock providers keep charges and transactions in memory:
- the card number's last digit decides whether a payment succeeds: `0` for provider one, `1` for provider two;
- a refund or void is applied in place;
- a refund or void is idempotent once the payment is already refunded or voided.

Modules, one per source file of the core:

| module | file | source |
|---|---|---|
| `Wrappers`, `Js`, `Text`, `Uuid` | `wrappers.dfy`, `js.dfy`, `text.dfy`, `uuid.dfy` | helpers: `Option`/`Result`; JavaScript values, thrown errors and `\|\|` defaults; `split`/`join`/`slice(-n)`; fresh-id generation |
| `Payments` | `payments.dfy` | the charge request accepted by the back end |
| `PaymentProviderAdapter` | `adapter.dfy` | `backend/src/utils/paymentProviderAdapter.js` |
| `PaymentStore` | `payment_store.dfy` | `backend/src/repositories/paymentStoreRepository.js`, `backend/src/services/paymentStoreService.js` |
| `ProviderFactory` | `provider_factory.dfy` | `backend/src/services/providers/paymentProviderFactory.js` |
| `Providers` | `providers.dfy` | `backend/src/services/providers/providerOne.js`, `providerTwo.js`, `paymentProvider.js` |
| `ResponseHandlers` | `response_handlers.dfy` | `backend/src/utils/responseHandlers.js` |
| `Controller` | `controller.dfy` | `backend/src/controllers/paymentController.js` |
| `MockPaymentAdapter` | `mock_payment_adapter.dfy` | `mock-providers/src/utils/paymentAdapter.js`, `mock-providers/src/constants/paymentConstants.js` |
| `ProviderOneMemory` | `provider_one_memory.dfy` | `mock-providers/src/repositories/providerOneMemoryRepository.js` |
| `ProviderTwoMemory` | `provider_two_memory.dfy` | `mock-providers/src/models/providerTwoMemoryStore.js` |
| `CardRouting` | `card_routing.dfy` | how the two simulators treat the same card |

Modelling choices:
- Pure code becomes functions and lemmas. This covers the adapter, the factory, the response handlers and the provider wrappers.
- The ledger repository is a class. Its `paymentRecords` map is a field that `SavePaymentRecord` reassigns.
- The controller is a class holding the ledger service, the validator and the remote provider services. Its handlers are methods.
- Each handler returns the HTTP response and the list of provider calls it made. This lets the contracts say which provider was charged and how often.
- Each simulator keeps a map from id to a heap object (`StoredPayment`). Refund and void mutate that object in place, as the source does.
- The simulator invariant `Valid()` (`MockPaymentAdapter.WellKeyed`) says that every stored object's id is its key. So no two keys share an object, and updating one payment in place leaves the others alone.
- `Contents()` is the abstract id-to-payment view. The methods are specified against it.
- JavaScript values that cross the ledger and the HTTP boundary (provider ids, response data, refund bodies) are the `Json` datatype.
- Thrown errors are `Error(message)`.
- A JavaScript `x || d` default is `OrText`/`OrNumber`. Both treat `""` and `0` as falsy. `installments || 1`, `error?.message || 'Unknown error'` and the adapter's `|| ''` fields are written with them.
- The back end's `PROVIDERS` constants file is not part of this model. The provider names are the constants `PROVIDER_ONE` and `PROVIDER_TWO`.
- Nothing makes a new ledger id differ from the provider's id: `uuidv4()` at `backend/src/repositories/paymentStoreRepository.js` line 18 is never compared with `providerId`. The model does not claim it either.

## Model

| member | source | states |
|---|---|---|
| Text.Split | backend/src/utils/paymentProviderAdapter.js:22 | `split('/')` never yields an empty list, and no piece contains the separator |
| Text.Join | backend/src/utils/responseHandlers.js:35 | `join(', ')` of no parts is `""` and of one part is that part; JoinSplit, SplitJoin and JoinAppend relate it to `split` and concatenation |
| Text.SliceLast | backend/src/utils/paymentProviderAdapter.js:24 | `slice(-n)` keeps the last `n` characters, or the whole string when it is shorter or `n` is 0 (`-0` is `0`); the result is a suffix of the input |
| Text.JoinSplit | backend/src/utils/paymentProviderAdapter.js:22 | joining the pieces of `split('/')` with `/` restores the original string |
| Text.SplitJoin | backend/src/utils/paymentProviderAdapter.js:22 | splitting a `/`-join of slash-free pieces gives back those pieces (the inverse direction) |
| Text.SplitCount | backend/src/utils/paymentProviderAdapter.js:22-23 | `split` yields one more piece than there are separators, so `parts.length === 2` means exactly one `/` |
| Text.SplitWithoutSeparator | backend/src/utils/paymentProviderAdapter.js:22 | a string without the separator splits into itself alone |
| Text.SplitAtFirstSeparator | backend/src/utils/paymentProviderAdapter.js:22 | splitting at the first separator gives the prefix followed by the split of the rest |
| Text.JoinAppend | backend/src/utils/responseHandlers.js:35 | `join` over a concatenation is the two joins with one separator between them |
| Uuid.FreshId | backend/src/repositories/paymentStoreRepository.js:18 | the generated id is not yet a key of the map |
| Payments.CardOf | backend/src/utils/paymentProviderAdapter.js:18 | `paymentMethod?.card \|\| {}`: the request's card when present, otherwise a card with every field absent |
| PaymentProviderAdapter.InstallmentNumber | backend/src/utils/paymentProviderAdapter.js:41 | `installments \|\| 1`: never 0; the request's value when non-zero, 1 when absent or 0 |
| PaymentProviderAdapter.ConvertToProviderTwoFormat | backend/src/utils/paymentProviderAdapter.js:13-44 | fails exactly when the payment data is missing, and then with the error "Payment data is required" |
| PaymentProviderAdapter.Expiration | backend/src/utils/paymentProviderAdapter.js:20-21 | an absent or empty (falsy) `expirationDate` gives `""`; the other cases are the lemmas below |
| PaymentProviderAdapter.ExpirationOfMonthYear | backend/src/utils/paymentProviderAdapter.js:21-26 | a date with exactly one `/` becomes the month, `/`, and the last two characters of the year |
| PaymentProviderAdapter.ExpirationPassesThrough | backend/src/utils/paymentProviderAdapter.js:21-28 | a non-empty date whose `/` count is not one is forwarded unchanged |
| PaymentProviderAdapter.ExpirationOfValidatedDate | backend/src/utils/paymentProviderAdapter.js:20-29 | a date in the validated `MM/YYYY` form becomes `MM/YY` (the two century digits are dropped) |
| PaymentProviderAdapter.ExpirationExample | backend/src/utils/paymentProviderAdapter.js:20-29 | `"12/2025"` becomes `"12/25"` |
| PaymentProviderAdapter.ConvertCopiesPaymentFields | backend/src/utils/paymentProviderAdapter.js:31-35 | amount and currency are copied, the description becomes the statement descriptor (`""` when falsy), and the payment type is `"card"` |
| PaymentProviderAdapter.ConvertRenamesCardFields | backend/src/utils/paymentProviderAdapter.js:36-42 | number, holderName and cvv become number, holder and cvv (`""` when falsy); expiration and installmentNumber are derived |
| PaymentProviderAdapter.ConvertWithoutCard | backend/src/utils/paymentProviderAdapter.js:18-42 | a request without a card gets empty card fields, an empty expiration and one installment |
| PaymentProviderAdapter.ValidatedCardRoundTrip | backend/src/utils/paymentProviderAdapter.js:36-42 | for a card that passes validation, the converted card restores the original number, holder name, cvv, date and installments |
| PaymentStore.DefaultResponseData | backend/src/repositories/paymentStoreRepository.js:17 | an omitted `responseData` defaults to `{}`; any given value is kept |
| PaymentStore.PaymentStoreRepository.constructor | backend/src/repositories/paymentStoreRepository.js:6-8 | the ledger starts empty |
| PaymentStore.PaymentStoreRepository.SavePaymentRecord | backend/src/repositories/paymentStoreRepository.js:17-31 | stores one record under a fresh id holding the provider id, provider name, timestamp and response data; other records are unchanged |
| PaymentStore.PaymentStoreRepository.GetPaymentRecord | backend/src/repositories/paymentStoreRepository.js:38-40 | the stored record when the id is a key, otherwise nothing; the ledger is unchanged |
| PaymentStore.SaveThenGet | backend/src/repositories/paymentStoreRepository.js:17-40 | a lookup of the id a save returned finds exactly the saved record |
| PaymentStore.PaymentStoreService.CreatePaymentRecord | backend/src/services/paymentStoreService.js:11-13 | forwards to the repository, with `{}` as the default response data |
| PaymentStore.PaymentStoreService.GetPaymentRecord | backend/src/services/paymentStoreService.js:20-22 | forwards the lookup to the repository |
| ProviderFactory.GetProvider | backend/src/services/providers/paymentProviderFactory.js:6-15 | succeeds exactly for the two provider names and returns the provider of that name; any other name fails with "Provider not supported: " followed by the name |
| ProviderFactory.GetPrimaryProvider | backend/src/services/providers/paymentProviderFactory.js:17-19 | the primary is provider one, and the name `PROVIDER_ONE` its records carry resolves back to it |
| ProviderFactory.GetFallbackProvider | backend/src/services/providers/paymentProviderFactory.js:21-23 | the fallback is provider two, and the name `PROVIDER_TWO` its records carry resolves back to it |
| ProviderFactory.GetProviderOfName | backend/src/services/providers/paymentProviderFactory.js:6-15 | resolving a provider's own name gives that provider back |
| Providers.ProcessPayment | backend/src/services/providers/providerTwo.js:6-9 | provider one forwards the request unchanged; provider two forwards the adapter's conversion, and fails locally with the adapter's error when the data is missing |
| Providers.ProviderTwoRejectsMissingDataLocally | backend/src/services/providers/providerTwo.js:6-9 | with missing data, provider two's outcome does not depend on the remote service: it answers locally without calling it |
| Providers.ProviderTwoSendsShortExpiration | backend/src/services/providers/providerTwo.js:6-9 | provider two sends the remote service a validated `MM/YYYY` expiry as `MM/YY` |
| Providers.GetPaymentDetails | backend/src/services/providers/providerOne.js:9-11 | provider one asks its charge-details endpoint and provider two its transaction-details endpoint (providerTwo.js lines 11-13), with the payment id unchanged, and return that outcome unchanged |
| Providers.ProcessRefund | backend/src/services/providers/providerTwo.js:15-17 | provider two voids and provider one refunds (providerOne.js lines 13-15), with payment id and refund data unchanged, and return that outcome unchanged |
| Providers.ProvidersUseOnlyTheirOwnService | backend/src/services/providers/providerOne.js:5-15 | every operation of a provider depends only on that provider's own service: environments that agree on it give the same outcome (provider two likewise, providerTwo.js lines 6-17) |
| ResponseHandlers.ErrorText | backend/src/utils/responseHandlers.js:18-19 | `error?.message \|\| 'Unknown error'`: never empty; the message when it is non-empty, "Unknown error" otherwise |
| ResponseHandlers.HandleErrorResponse | backend/src/utils/responseHandlers.js:6-12 | the given status, with a body of exactly `message` and `error` (the error's message) |
| ResponseHandlers.HandleProviderFailures | backend/src/utils/responseHandlers.js:14-22 | status 503; the body holds exactly `message` ("Payment service unavailable, all providers failed") and `errors` |
| ResponseHandlers.ProviderFailuresListBoth | backend/src/utils/responseHandlers.js:17-20 | the `errors` list reads back as provider one then provider two, each with its error text |
| ResponseHandlers.ReadProviderEntry | backend/src/utils/responseHandlers.js:18-19 | a provider entry reads back as its provider name and error text |
| ResponseHandlers.FormatSuccessResponse | backend/src/utils/responseHandlers.js:24-30 | the result without its `id`, with `transactionId` set; every other key keeps its value and no key is added |
| ResponseHandlers.HandleValidationError | backend/src/utils/responseHandlers.js:32-37 | status 400; the detail messages joined with ", " |
| ResponseHandlers.ValidationMessagesInOrder | backend/src/utils/responseHandlers.js:35 | the messages of two groups of details appear in order, separated by ", " |
| Controller.ValidateRequest | backend/src/controllers/paymentController.js:20-36 | passes exactly when the validator reports no error; otherwise the 400 validation response |
| Controller.WithTransactionId | backend/src/controllers/paymentController.js:112-115 | `{...body, transactionId: id}`: adds `transactionId`, keeps every other key |
| Controller.PaymentController.GetPaymentRecordOrFail | backend/src/controllers/paymentController.js:44-51 | the ledger record when the id is recorded, otherwise the 404 "Payment record not found in database" |
| Controller.PaymentController.ProcessPayment | backend/src/controllers/paymentController.js:59-89 | a rejected request calls no provider and leaves the ledger alone; after a primary success the fallback is never called and one record tagged provider one is added under the returned `transactionId`; after a primary failure the fallback is called exactly once, and its success is recorded as provider two; if both fail there is no record and a 503 with both errors; the ledger invariant is kept |
| Controller.PaymentController.GetPaymentDetails | backend/src/controllers/paymentController.js:97-125 | rejection and ledger misses call no provider; otherwise the record's provider is called once with the record's provider id, and its details are returned with `transactionId` set to the requested id, or a 404 |
| Controller.PaymentController.ProcessRefund | backend/src/controllers/paymentController.js:133-163 | id and refund validation come first; a ledger miss calls no provider; otherwise exactly one refund goes to the record's provider with the record's provider id, and the answer is 200 with `transactionId`, or 400 "Failed to process refund" |
| MockPaymentAdapter.CreateResponse | mock-providers/src/utils/paymentAdapter.js:4-18 | keeps the id and status; original and current amount are `amount \|\| 1000`; currency defaults to "BRL", description to "Pagamento de teste"; the payment method is "card" |
| MockPaymentAdapter.Reverse | mock-providers/src/repositories/providerOneMemoryRepository.js:46-55 | an already-reversed payment is returned as is; otherwise the status becomes final and the current amount drops by a truthy amount or is reset to 0; nothing else changes |
| MockPaymentAdapter.ReverseIsIdempotent | mock-providers/src/repositories/providerOneMemoryRepository.js:46-48 | reversing twice equals reversing once, whatever the second amount |
| ProviderOneMemory.ProcessStatus | mock-providers/src/repositories/providerOneMemoryRepository.js:8-12 | succeeded exactly when the digit is "0", failed otherwise |
| ProviderOneMemory.ChargeStatusByLastDigit | mock-providers/src/repositories/providerOneMemoryRepository.js:18-19 | a charge succeeds exactly when the card number ends in `0` |
| ProviderOneMemory.NewCharge | mock-providers/src/repositories/providerOneMemoryRepository.js:18-26 | the new charge carries the given id; it is `succeeded` exactly when the card number ends in '0' and `failed` otherwise; both amounts are `amount \|\| 1000`, currency and description the request's or the defaults, method "card", the given time and card id |
| ProviderOneMemory.ProviderOneMemoryRepository.constructor | mock-providers/src/repositories/providerOneMemoryRepository.js:5 | no charges are stored |
| ProviderOneMemory.ProviderOneMemoryRepository.CreateCharge | mock-providers/src/repositories/providerOneMemoryRepository.js:15-31 | stores a new payment under a fresh id, with its status taken from the card's last digit; existing charges are unchanged |
| ProviderOneMemory.ProviderOneMemoryRepository.Set | mock-providers/src/repositories/providerOneMemoryRepository.js:28 | `charges.set(id, charge)` for a new object under a fresh id: the map gains exactly that entry, the invariant is kept, and the view gains that payment |
| ProviderOneMemory.ProviderOneMemoryRepository.GetCharge | mock-providers/src/repositories/providerOneMemoryRepository.js:34-36 | the stored charge when the id is a key, otherwise nothing |
| ProviderOneMemory.ProviderOneMemoryRepository.RefundCharge | mock-providers/src/repositories/providerOneMemoryRepository.js:39-60 | an unknown id gives nothing and changes nothing; otherwise only that charge becomes its `Reverse(…, Refunded, amount)` and is returned |
| ProviderTwoMemory.ProcessStatus | mock-providers/src/models/providerTwoMemoryStore.js:8-12 | paid exactly when the digit is "1", failed otherwise |
| ProviderTwoMemory.TransactionStatusByLastDigit | mock-providers/src/models/providerTwoMemoryStore.js:18-19 | a transaction is paid exactly when the card number ends in `1` |
| ProviderTwoMemory.NewTransaction | mock-providers/src/models/providerTwoMemoryStore.js:18-26 | the new transaction carries the given id; it is `paid` exactly when the card number ends in '1' and `failed` otherwise; its description is the statement descriptor (or the default when empty); both amounts are `amount \|\| 1000`, currency the request's or the default, method "card", the given time and card id |
| ProviderTwoMemory.ProviderTwoMemoryStore.constructor | mock-providers/src/models/providerTwoMemoryStore.js:5 | no transactions are stored |
| ProviderTwoMemory.ProviderTwoMemoryStore.CreateTransaction | mock-providers/src/models/providerTwoMemoryStore.js:15-31 | stores a new payment under a fresh id, with the statement descriptor as its description and its status taken from the card's last digit; existing transactions are unchanged |
| ProviderTwoMemory.ProviderTwoMemoryStore.Set | mock-providers/src/models/providerTwoMemoryStore.js:28 | `transactions.set(id, transaction)` for a new object under a fresh id: the map gains exactly that entry, the invariant is kept, and the view gains that payment |
| ProviderTwoMemory.ProviderTwoMemoryStore.GetTransaction | mock-providers/src/models/providerTwoMemoryStore.js:34-36 | the stored transaction when the id is a key, otherwise nothing |
| ProviderTwoMemory.ProviderTwoMemoryStore.VoidTransaction | mock-providers/src/models/providerTwoMemoryStore.js:39-60 | an unknown id gives nothing and changes nothing; otherwise only that transaction becomes its `Reverse(…, Voided, amount)` and is returned |
| CardRouting.StatusesByLastDigit | mock-providers/src/constants/paymentConstants.js:9-12 | for one request, provider one succeeds exactly on a final `0` and provider two (after conversion) pays exactly on a final `1` |
| CardRouting.NeverBothSucceed | mock-providers/src/constants/paymentConstants.js:9-12 | no card succeeds at both simulators |
| CardRouting.FallbackDescription | mock-providers/src/models/providerTwoMemoryStore.js:21-26 | the transaction provider two's store builds from the converted request has the fallback status and the request's description, or "Pagamento de teste" when that is falsy |

## Left out
- Text.SliceLast: Dafny strings are sequences of Unicode code points, while JavaScript's `slice`, `split` and `length` count UTF-16 code units. The two differ on characters outside the Basic Multilingual Plane, such as emoji, which take two code units each. For example, `"2😀".slice(-2)` is the emoji alone, but `SliceLast` returns `"2😀"`. `Text.Split` and the length checks of `PaymentProviderAdapter.Expiration` count the same way. The backend's expiration-date pattern (`^\d{2}/\d{4}$`) lets only ASCII dates reach the adapter through the controller.
- HTTP transport (`client.js`, the back end's provider service wrappers, the Express routes and swagger) is not modelled. Each remote provider operation is an arbitrary function, a field of `Providers.ProviderOneApi`/`ProviderTwoApi`, from its input to a response object or an error.
- The Joi validation schemas are not part of this model. The validator is an arbitrary function per validation type. Only the `MM/YYYY` expiry pattern (`Payments.IsMonthYear`) is written out, for the adapter lemmas.
- The mock providers' controllers, services, routes and schemas are not modelled. In particular, the rule that turns a simulated failed charge into an HTTP error is not modelled. `CardRouting` relates the two simulators only at the level of stored status.
- Clock readings (ledger timestamp, `createdAt`) and `uuid` values (card ids) are parameters.
- Record ids and simulator ids come from `Uuid.FreshId`. It is deterministic and promises only that the id is not already a key, which is the property the code relies on.
- Uuid.FreshId: does not model the randomness of `uuidv4` or its format.
- `providerTwoMemoryStore.js` imports `createResponse` from a factories file that is not part of this model. It is modelled with the same `MockPaymentAdapter.CreateResponse` as provider one.
- The back end's constants file is not part of this model. The provider names are `"PROVIDER_ONE"` and `"PROVIDER_TWO"`.
- Logging (`console.error`) is left out, and so are async scheduling and concurrent requests. Each handler runs to completion on its own.
- The outer `try/catch` paths that answer 500 are not modelled. Nothing inside the modelled handlers throws outside the inner `try` blocks, because validator results are always well formed here.
- Remote answers are objects (`Body`). These other answers are not modelled:
  - a `null`/`undefined` primary answer: `result.id` throws at backend/src/controllers/paymentController.js:70, and the fallback runs;
  - a `null`/`undefined` fallback answer: `result.id` throws at line 79, the `TypeError` is caught as the fallback error (lines 82-83), and the answer is the 503 of `handleProviderFailures`, carrying that error's message;
  - a primitive answer from either provider: it would be recorded with an undefined provider id and answered 201 through the spread in `formatSuccessResponse`.
- Request fields are typed. A non-string `expirationDate` (where `split` would throw) and extra unknown fields are not representable.
- Amounts are integers. Not modelled: JavaScript floating-point amounts, and `-=` applied to a refund amount that is not a number. `-=` converts the amount with `Number()`: a numeric string such as "50", `true` or `[5]` subtracts its numeric value, and a value that does not convert (`{}`, `"abc"`) gives `NaN`.
- Refund amounts are not bounded by the current amount, as in the source, so `currentAmount` can go negative.
- ProviderOneMemory.ProviderOneMemoryRepository.CreateCharge: requires the request to carry a card number (as does `ProviderOneMemory.NewCharge`). The source would throw a `TypeError` without one, and the simulator's request schema rejects such a request first.
- The abstract `paymentProvider.js` base class is the `ProviderFactory.Provider` datatype. Its "Method not implemented" errors cannot arise.
- A refund never updates the ledger record, as in the source. The stored `responseData` keeps the original charge response.
