/**
 * The canonical payment request the backend accepts and hands to the
 * primary provider. Every field may be absent (`undefined`), which is
 * `None`; the backend's validator is what rules absent fields out.
 */
module Payments {
  import opened Wrappers

  datatype Card = Card(
    number: Option<string>,
    holderName: Option<string>,
    cvv: Option<string>,
    expirationDate: Option<string>,
    installments: Option<int>)

  datatype PaymentMethod = PaymentMethod(methodType: Option<string>, card: Option<Card>)

  datatype PaymentRequest = PaymentRequest(
    amount: Option<int>,
    currency: Option<string>,
    description: Option<string>,
    paymentMethod: Option<PaymentMethod>)

  /** The empty object `{}` read as a card: every field absent. */
  const NoCard := Card(None, None, None, None, None)

  /** `request.paymentMethod?.card || {}`. */
  function CardOf(request: PaymentRequest): (c: Card)
    ensures request.paymentMethod.None? || request.paymentMethod.value.card.None? ==> c == NoCard
    ensures request.paymentMethod.Some? && request.paymentMethod.value.card.Some? ==>
              c == request.paymentMethod.value.card.value
  {
    match request.paymentMethod
    case None => NoCard
    case Some(pm) => pm.card.GetOr(NoCard)
  }

  predicate IsDigit(c: char) {
    '0' <= c <= '9'
  }

  /** The validator's expiration pattern `^\d{2}/\d{4}$` (MM/YYYY). */
  predicate IsMonthYear(d: string) {
    && |d| == 7
    && IsDigit(d[0]) && IsDigit(d[1])
    && d[2] == '/'
    && IsDigit(d[3]) && IsDigit(d[4]) && IsDigit(d[5]) && IsDigit(d[6])
  }
}
