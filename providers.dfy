/**
 * The two provider variants over their remote services. Each remote
 * service (an HTTP endpoint of the provider) is an arbitrary function that
 * either answers with a JSON object or fails with an error.
 */
module Providers {
  import opened Wrappers
  import opened Js
  import opened Payments
  import opened PaymentProviderAdapter
  import opened ProviderFactory

  type Outcome = Result<Body, Error>

  /** Provider one's endpoints: charge, charge details, refund. */
  datatype ProviderOneApi = ProviderOneApi(
    processCharge: Option<PaymentRequest> -> Outcome,
    getChargeDetails: Json -> Outcome,
    processRefund: (Json, Json) -> Outcome)

  /** Provider two's endpoints: transaction, transaction details, void. */
  datatype ProviderTwoApi = ProviderTwoApi(
    processTransaction: TwoRequest -> Outcome,
    getTransactionDetails: Json -> Outcome,
    processVoid: (Json, Json) -> Outcome)

  datatype Remotes = Remotes(one: ProviderOneApi, two: ProviderTwoApi)

  /** Charges a payment: provider one forwards the canonical request, provider two adapts it first. */
  function ProcessPayment(p: Provider, remote: Remotes, paymentData: Option<PaymentRequest>): (r: Outcome)
    ensures p == ProviderOne ==> r == remote.one.processCharge(paymentData)
    ensures p == ProviderTwo && paymentData.Some? ==>
              r == remote.two.processTransaction(ConvertToProviderTwoFormat(paymentData).value)
    ensures p == ProviderTwo && paymentData.None? ==> r == Failure(Raise(MissingDataMessage))
  {
    match p
    case ProviderOne => remote.one.processCharge(paymentData)
    case ProviderTwo =>
      match ConvertToProviderTwoFormat(paymentData)
      case Failure(e) => Failure(e)
      case Success(formatted) => remote.two.processTransaction(formatted)
  }

  /** Fetches details by the provider's own id, forwarded unchanged. */
  function GetPaymentDetails(p: Provider, remote: Remotes, paymentId: Json): (r: Outcome)
    ensures p == ProviderOne ==> r == remote.one.getChargeDetails(paymentId)
    ensures p == ProviderTwo ==> r == remote.two.getTransactionDetails(paymentId)
  {
    match p
    case ProviderOne => remote.one.getChargeDetails(paymentId)
    case ProviderTwo => remote.two.getTransactionDetails(paymentId)
  }

  /** Refunds (provider one) or voids (provider two), with id and data forwarded unchanged. */
  function ProcessRefund(p: Provider, remote: Remotes, paymentId: Json, refundData: Json): (r: Outcome)
    ensures p == ProviderOne ==> r == remote.one.processRefund(paymentId, refundData)
    ensures p == ProviderTwo ==> r == remote.two.processVoid(paymentId, refundData)
  {
    match p
    case ProviderOne => remote.one.processRefund(paymentId, refundData)
    case ProviderTwo => remote.two.processVoid(paymentId, refundData)
  }

  /**
   * Provider two rejects a missing request in the adapter, whatever its
   * remote service would answer: no remote call is made.
   */
  lemma ProviderTwoRejectsMissingDataLocally(remote: Remotes, other: Remotes)
    ensures ProcessPayment(ProviderTwo, remote, None) == ProcessPayment(ProviderTwo, other, None)
  {
  }

  /** Provider two's remote receives a two-digit expiration year for a validated card date. */
  lemma ProviderTwoSendsShortExpiration(remote: Remotes, request: PaymentRequest, date: string)
    requires CardOf(request).expirationDate == Some(date) && IsMonthYear(date)
    ensures ProcessPayment(ProviderTwo, remote, Some(request)) ==
      remote.two.processTransaction(ConvertToProviderTwoFormat(Some(request)).value)
    ensures ConvertToProviderTwoFormat(Some(request)).value.card.expiration == date[..3] + date[5..]
  {
    ExpirationOfValidatedDate(date);
  }

  /**
   * Each provider talks only to its own service: two environments that agree
   * on that service give the same outcome for every operation.
   */
  lemma ProvidersUseOnlyTheirOwnService(p: Provider, remote: Remotes, other: Remotes,
                                        paymentData: Option<PaymentRequest>, paymentId: Json, refundData: Json)
    requires p == ProviderOne ==> remote.one == other.one
    requires p == ProviderTwo ==> remote.two == other.two
    ensures ProcessPayment(p, remote, paymentData) == ProcessPayment(p, other, paymentData)
    ensures GetPaymentDetails(p, remote, paymentId) == GetPaymentDetails(p, other, paymentId)
    ensures ProcessRefund(p, remote, paymentId, refundData) == ProcessRefund(p, other, paymentId, refundData)
  {
  }
}
