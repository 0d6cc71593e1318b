/**
 * The provider simulators' shared payment object: how a new charge or
 * transaction is built, and the one-way transition that refunds or voids it.
 */
module MockPaymentAdapter {
  import opened Wrappers
  import opened Js

  /** The simulators' status values. */
  datatype Status = Paid | Failed | Voided | Succeeded | Refunded

  /** The amount a reversal without a (truthy) amount leaves. */
  const TRANSACTION_DEFAULT_AMOUNT := 0
  const RESPONSE_DEFAULT_AMOUNT := 1000
  const RESPONSE_DEFAULT_CURRENCY := "BRL"
  const RESPONSE_DEFAULT_DESCRIPTION := "Pagamento de teste"

  datatype PaymentResponse = PaymentResponse(
    id: string,
    createdAt: string,
    status: Status,
    originalAmount: int,
    currentAmount: int,
    currency: string,
    description: string,
    paymentMethod: string,
    cardId: string)

  /** The request fields `createResponse` reads. */
  datatype ResponseRequest = ResponseRequest(
    id: string,
    amount: Option<int>,
    currency: Option<string>,
    description: Option<string>)

  /**
   * A new payment object. `createdAt` is today's date and `cardId` a fresh
   * identifier, both drawn by the caller.
   */
  function CreateResponse(status: Status, request: ResponseRequest, createdAt: string, cardId: string): (r: PaymentResponse)
    ensures r.id == request.id && r.status == status
    ensures r.originalAmount == r.currentAmount == OrNumber(request.amount, RESPONSE_DEFAULT_AMOUNT)
    ensures r.currency == OrText(request.currency, RESPONSE_DEFAULT_CURRENCY)
    ensures r.description == OrText(request.description, RESPONSE_DEFAULT_DESCRIPTION)
    ensures r.paymentMethod == "card"
    ensures r.createdAt == createdAt && r.cardId == cardId
  {
    PaymentResponse(
      request.id,
      createdAt,
      status,
      OrNumber(request.amount, RESPONSE_DEFAULT_AMOUNT),
      OrNumber(request.amount, RESPONSE_DEFAULT_AMOUNT),
      OrText(request.currency, RESPONSE_DEFAULT_CURRENCY),
      OrText(request.description, RESPONSE_DEFAULT_DESCRIPTION),
      "card",
      cardId)
  }

  /**
   * Moves a payment to the terminal status `final` (refunded or voided). A
   * payment already there is returned as it is; otherwise a truthy amount is
   * taken off `currentAmount` (with no lower bound) and a falsy one sets it
   * to the default. Nothing else changes.
   */
  function Reverse(p: PaymentResponse, final: Status, amount: Option<int>): (q: PaymentResponse)
    ensures q.status == final
    ensures q == p.(status := q.status, currentAmount := q.currentAmount)
    ensures p.status == final ==> q == p
    ensures p.status != final && amount.Some? && amount.value != 0 ==> q.currentAmount == p.currentAmount - amount.value
    ensures p.status != final && (amount.None? || amount == Some(0)) ==> q.currentAmount == TRANSACTION_DEFAULT_AMOUNT
  {
    if p.status == final then p
    else
      var remaining := if amount.Some? && amount.value != 0 then p.currentAmount - amount.value else TRANSACTION_DEFAULT_AMOUNT;
      p.(status := final, currentAmount := remaining)
  }

  /** Reversing twice is reversing once, whatever the second amount. */
  lemma ReverseIsIdempotent(p: PaymentResponse, final: Status, first: Option<int>, second: Option<int>)
    ensures Reverse(Reverse(p, final, first), final, second) == Reverse(p, final, first)
  {
  }

  /** A payment object held by a simulator; reversal updates it in place. */
  class StoredPayment {
    var data: PaymentResponse

    constructor (data: PaymentResponse)
      ensures this.data == data
    {
      this.data := data;
    }
  }

  /**
   * A simulator's table: each payment is stored under its own id. Hence no
   * two ids share an object, so updating one payment in place leaves the
   * others alone.
   */
  ghost predicate WellKeyed(table: map<string, StoredPayment>)
    reads table.Values
  {
    forall k | k in table :: table[k].data.id == k
  }

  /** The payments a table currently holds. */
  ghost function View(table: map<string, StoredPayment>): map<string, PaymentResponse>
    reads table.Values
  {
    map k | k in table :: table[k].data
  }
}
