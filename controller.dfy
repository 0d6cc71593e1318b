/**
 * The payment orchestrator: validates a request, charges the primary
 * provider and on failure the fallback once, records the provider that
 * succeeded in the ledger, and serves details and refunds by looking the
 * ledger record up and delegating to the provider it names.
 */
module Controller {
  import opened Wrappers
  import opened Js
  import opened Payments
  import opened ProviderFactory
  import Providers
  import opened ResponseHandlers
  import opened PaymentStore

  /** The request validator: for each kind of input, its error if the input is rejected. */
  datatype Validator = Validator(
    validatePayment: Option<PaymentRequest> -> Option<ValidationError>,
    validateId: Json -> Option<ValidationError>,
    validateRefund: Json -> Option<ValidationError>)

  /** The three validation types, each with the data it validates. */
  datatype ValidationInput =
    | PaymentData(payment: Option<PaymentRequest>)
    | IdParam(id: string)
    | RefundData(refund: Json)

  /** A provider operation the controller invoked. */
  datatype Call =
    | Charge(provider: Provider)
    | FetchDetails(provider: Provider, providerId: Json)
    | Refund(provider: Provider, providerId: Json)

  const RecordNotFoundMessage := "Payment record not found in database"
  const DetailsUnavailableMessage := "Payment not found or provider unavailable"
  const RefundFailedMessage := "Failed to process refund"

  const RecordNotFound := Response(404, map["message" := Str(RecordNotFoundMessage)])

  /** The validator's verdict; an id is validated as given, or as `null` when it is empty. */
  function ValidationResult(validator: Validator, input: ValidationInput): Option<ValidationError>
  {
    match input
    case PaymentData(data) => validator.validatePayment(data)
    case IdParam(id) => validator.validateId(if id != "" then Str(id) else Null)
    case RefundData(data) => validator.validateRefund(data)
  }

  /**
   * `validateRequest`: passes (None) exactly when the validator reports no
   * error; otherwise the 400 response it sends.
   */
  function ValidateRequest(validator: Validator, input: ValidationInput): (rejection: Option<Response>)
    ensures rejection.None? <==> ValidationResult(validator, input).None?
    ensures rejection.Some? ==>
              rejection.value.status == 400 &&
              rejection.value == HandleValidationError(ValidationResult(validator, input).value)
  {
    match ValidationResult(validator, input)
    case None => None
    case Some(error) => Some(HandleValidationError(error))
  }

  /** `{...body, transactionId: id}`. */
  function WithTransactionId(body: Body, id: string): (r: Body)
    ensures r.Keys == body.Keys + {"transactionId"}
    ensures r["transactionId"] == Str(id)
    ensures forall k :: k in body && k != "transactionId" ==> r[k] == body[k]
  {
    body["transactionId" := Str(id)]
  }

  /** The ledger's invariant: every record names a provider the selector can resolve. */
  predicate LedgerResolvable(records: map<string, PaymentRecord>)
  {
    forall k | k in records :: GetProvider(records[k].providerName).Success?
  }

  /**
   * A successful charge by the provider named `providerName`: exactly one
   * record was added, under the id the 201 response reports as
   * `transactionId`, holding the provider's id and its whole response.
   */
  predicate Recorded(before: map<string, PaymentRecord>, after: map<string, PaymentRecord>,
                     response: Response, result: Body, providerName: string, now: string)
  {
    && response.status == 201
    && "transactionId" in response.body && response.body["transactionId"].Str?
    && var id := response.body["transactionId"].s;
    && id !in before
    && after == before[id := PaymentRecord(id, Field(result, "id"), providerName, now, Obj(result))]
    && response.body == FormatSuccessResponse(result, id)
  }

  class PaymentController {
    const store: PaymentStoreService
    const validator: Validator
    const remote: Providers.Remotes

    ghost predicate Valid()
      reads store.repository
    {
      store.repository.Valid() && LedgerResolvable(store.repository.paymentRecords)
    }

    constructor (store: PaymentStoreService, validator: Validator, remote: Providers.Remotes)
      ensures this.store == store && this.validator == validator && this.remote == remote
    {
      this.store := store;
      this.validator := validator;
      this.remote := remote;
    }

    /** The ledger record for `id`, or the 404 response when there is none. */
    method GetPaymentRecordOrFail(id: string) returns (record: Option<PaymentRecord>, notFound: Option<Response>)
      requires store.repository.Valid()
      ensures record.Some? <==> id in store.repository.paymentRecords
      ensures record.Some? ==> record.value == store.repository.paymentRecords[id] && notFound.None?
      ensures record.None? ==> notFound == Some(RecordNotFound)
    {
      record := store.GetPaymentRecord(id);
      if record.None? {
        notFound := Some(RecordNotFound);
      } else {
        notFound := None;
      }
    }

    /**
     * Creates a payment with one-shot failover. `now` is the clock reading
     * stamped on the ledger record; `calls` lists the provider operations
     * invoked, in order.
     */
    method ProcessPayment(paymentData: Option<PaymentRequest>, now: string) returns (response: Response, calls: seq<Call>)
      requires Valid()
      modifies store.repository
      ensures Valid()
      // A rejected request reaches no provider and leaves the ledger alone.
      ensures var rejection := ValidateRequest(validator, PaymentData(paymentData));
        rejection.Some? ==>
          && response == rejection.value && calls == []
          && store.repository.paymentRecords == old(store.repository.paymentRecords)
      // The primary answered: the fallback is never invoked, the record is tagged provider one.
      ensures var primary := Providers.ProcessPayment(GetPrimaryProvider(), remote, paymentData);
        ValidateRequest(validator, PaymentData(paymentData)).None? && primary.Success? ==>
          && calls == [Charge(ProviderOne)]
          && Recorded(old(store.repository.paymentRecords), store.repository.paymentRecords,
                      response, primary.value, PROVIDER_ONE, now)
      // The primary failed and the fallback answered: the record is tagged provider two.
      ensures var primary := Providers.ProcessPayment(GetPrimaryProvider(), remote, paymentData);
        var fallback := Providers.ProcessPayment(GetFallbackProvider(), remote, paymentData);
        ValidateRequest(validator, PaymentData(paymentData)).None? && primary.Failure? && fallback.Success? ==>
          && calls == [Charge(ProviderOne), Charge(ProviderTwo)]
          && Recorded(old(store.repository.paymentRecords), store.repository.paymentRecords,
                      response, fallback.value, PROVIDER_TWO, now)
      // Both failed: no record, and a 503 carrying both errors.
      ensures var primary := Providers.ProcessPayment(GetPrimaryProvider(), remote, paymentData);
        var fallback := Providers.ProcessPayment(GetFallbackProvider(), remote, paymentData);
        ValidateRequest(validator, PaymentData(paymentData)).None? && primary.Failure? && fallback.Failure? ==>
          && calls == [Charge(ProviderOne), Charge(ProviderTwo)]
          && store.repository.paymentRecords == old(store.repository.paymentRecords)
          && response == HandleProviderFailures(primary.error, fallback.error)
    {
      calls := [];
      var rejection := ValidateRequest(validator, PaymentData(paymentData));
      if rejection.Some? {
        response := rejection.value;
        return;
      }
      var primaryProvider := GetPrimaryProvider();
      calls := calls + [Charge(primaryProvider)];
      var primary := Providers.ProcessPayment(primaryProvider, remote, paymentData);
      match primary {
        case Success(result) =>
          var record := store.CreatePaymentRecord(Field(result, "id"), PROVIDER_ONE, Obj(result), now);
          response := Response(201, FormatSuccessResponse(result, record.id));
        case Failure(primaryError) =>
          var fallbackProvider := GetFallbackProvider();
          calls := calls + [Charge(fallbackProvider)];
          var fallback := Providers.ProcessPayment(fallbackProvider, remote, paymentData);
          match fallback {
            case Success(result) =>
              var record := store.CreatePaymentRecord(Field(result, "id"), PROVIDER_TWO, Obj(result), now);
              response := Response(201, FormatSuccessResponse(result, record.id));
            case Failure(fallbackError) =>
              response := HandleProviderFailures(primaryError, fallbackError);
          }
      }
    }

    /** Details of a recorded payment, fetched from the provider the record names. */
    method GetPaymentDetails(id: string) returns (response: Response, calls: seq<Call>)
      requires store.repository.Valid()
      ensures var rejection := ValidateRequest(validator, IdParam(id));
        rejection.Some? ==> response == rejection.value && calls == []
      // A ledger miss never reaches a provider.
      ensures ValidateRequest(validator, IdParam(id)).None? && id !in store.repository.paymentRecords ==>
        response == RecordNotFound && calls == []
      ensures ValidateRequest(validator, IdParam(id)).None? && id in store.repository.paymentRecords ==>
        var record := store.repository.paymentRecords[id];
        match GetProvider(record.providerName)
        case Failure(e) => calls == [] && response == HandleErrorResponse(404, DetailsUnavailableMessage, e)
        case Success(p) =>
          && calls == [FetchDetails(p, record.providerId)]
          && response == match Providers.GetPaymentDetails(p, remote, record.providerId)
                         case Success(details) => Response(200, WithTransactionId(details, id))
                         case Failure(e) => HandleErrorResponse(404, DetailsUnavailableMessage, e)
      // Under the ledger invariant every found record reaches its provider.
      ensures LedgerResolvable(store.repository.paymentRecords) &&
              ValidateRequest(validator, IdParam(id)).None? && id in store.repository.paymentRecords ==>
        |calls| == 1
    {
      calls := [];
      var rejection := ValidateRequest(validator, IdParam(id));
      if rejection.Some? {
        response := rejection.value;
        return;
      }
      var record, notFound := GetPaymentRecordOrFail(id);
      if record.None? {
        response := notFound.value;
        return;
      }
      var paymentRecord := record.value;
      match GetProvider(paymentRecord.providerName) {
        case Failure(e) =>
          response := HandleErrorResponse(404, DetailsUnavailableMessage, e);
        case Success(provider) =>
          calls := calls + [FetchDetails(provider, paymentRecord.providerId)];
          match Providers.GetPaymentDetails(provider, remote, paymentRecord.providerId) {
            case Success(details) =>
              response := Response(200, WithTransactionId(details, id));
            case Failure(e) =>
              response := HandleErrorResponse(404, DetailsUnavailableMessage, e);
          }
      }
    }

    /**
     * Refunds a recorded payment through the provider the record names,
     * with the provider's own id. The ledger is never written.
     */
    method ProcessRefund(id: string, refundData: Json) returns (response: Response, calls: seq<Call>)
      requires store.repository.Valid()
      ensures var rejection := ValidateRequest(validator, IdParam(id));
        rejection.Some? ==> response == rejection.value && calls == []
      ensures var rejection := ValidateRequest(validator, RefundData(refundData));
        ValidateRequest(validator, IdParam(id)).None? && rejection.Some? ==> response == rejection.value && calls == []
      // A ledger miss never reaches a provider.
      ensures ValidateRequest(validator, IdParam(id)).None? && ValidateRequest(validator, RefundData(refundData)).None? &&
              id !in store.repository.paymentRecords ==>
        response == RecordNotFound && calls == []
      ensures ValidateRequest(validator, IdParam(id)).None? && ValidateRequest(validator, RefundData(refundData)).None? &&
              id in store.repository.paymentRecords ==>
        var record := store.repository.paymentRecords[id];
        match GetProvider(record.providerName)
        case Failure(e) => calls == [] && response == HandleErrorResponse(400, RefundFailedMessage, e)
        case Success(p) =>
          && calls == [Refund(p, record.providerId)]
          && response == match Providers.ProcessRefund(p, remote, record.providerId, refundData)
                         case Success(result) => Response(200, WithTransactionId(result, id))
                         case Failure(e) => HandleErrorResponse(400, RefundFailedMessage, e)
      ensures LedgerResolvable(store.repository.paymentRecords) &&
              ValidateRequest(validator, IdParam(id)).None? && ValidateRequest(validator, RefundData(refundData)).None? &&
              id in store.repository.paymentRecords ==>
        |calls| == 1
    {
      calls := [];
      var rejection := ValidateRequest(validator, IdParam(id));
      if rejection.None? {
        rejection := ValidateRequest(validator, RefundData(refundData));
      }
      if rejection.Some? {
        response := rejection.value;
        return;
      }
      var record, notFound := GetPaymentRecordOrFail(id);
      if record.None? {
        response := notFound.value;
        return;
      }
      var paymentRecord := record.value;
      match GetProvider(paymentRecord.providerName) {
        case Failure(e) =>
          response := HandleErrorResponse(400, RefundFailedMessage, e);
        case Success(provider) =>
          calls := calls + [Refund(provider, paymentRecord.providerId)];
          match Providers.ProcessRefund(provider, remote, paymentRecord.providerId, refundData) {
            case Success(result) =>
              response := Response(200, WithTransactionId(result, id));
            case Failure(e) =>
              response := HandleErrorResponse(400, RefundFailedMessage, e);
          }
      }
    }
  }
}
