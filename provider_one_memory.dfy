/**
 * Provider one's simulator: charges kept in memory, their status decided by
 * the card number's last digit, refunds applied in place.
 */
module ProviderOneMemory {
  import opened Wrappers
  import opened Js
  import opened Text
  import opened Payments
  import opened MockPaymentAdapter
  import Uuid

  const SUCCESSFUL_CHARGE_DIGIT := "0"

  /** `_processStatus`: succeeded for the successful digit, failed for anything else. */
  function ProcessStatus(lastDigit: string): (s: Status)
    ensures s == Succeeded <==> lastDigit == SUCCESSFUL_CHARGE_DIGIT
    ensures s == Succeeded || s == Failed
  {
    if lastDigit == SUCCESSFUL_CHARGE_DIGIT then Succeeded else Failed
  }

  /** The charge request carries a card number (the simulator's own validation demands one). */
  predicate HasCardNumber(chargeData: PaymentRequest)
  {
    chargeData.paymentMethod.Some? && chargeData.paymentMethod.value.card.Some?
    && chargeData.paymentMethod.value.card.value.number.Some?
  }

  function CardNumber(chargeData: PaymentRequest): string
    requires HasCardNumber(chargeData)
  {
    chargeData.paymentMethod.value.card.value.number.value
  }

  /** A charge succeeds exactly when the card number ends in '0'. */
  lemma ChargeStatusByLastDigit(number: string)
    ensures ProcessStatus(SliceLast(number, 1)) == Succeeded <==> |number| > 0 && number[|number| - 1] == '0'
  {
    if |number| > 0 && number[|number| - 1] == '0' {
      assert SliceLast(number, 1) == ['0'];
    }
  }

  /**
   * The charge `createCharge` builds under `id`: succeeded exactly when the
   * card number ends in '0', failed otherwise, with `createResponse`'s fields.
   */
  function NewCharge(chargeData: PaymentRequest, id: string, createdAt: string, cardId: string): (p: PaymentResponse)
    requires HasCardNumber(chargeData)
    ensures p.id == id
    ensures var n := CardNumber(chargeData); p.status == Succeeded <==> |n| > 0 && n[|n| - 1] == '0'
    ensures p.status == Succeeded || p.status == Failed
    ensures p.originalAmount == p.currentAmount == OrNumber(chargeData.amount, RESPONSE_DEFAULT_AMOUNT)
    ensures p.currency == OrText(chargeData.currency, RESPONSE_DEFAULT_CURRENCY)
    ensures p.description == OrText(chargeData.description, RESPONSE_DEFAULT_DESCRIPTION)
    ensures p.paymentMethod == "card" && p.createdAt == createdAt && p.cardId == cardId
  {
    ChargeStatusByLastDigit(CardNumber(chargeData));
    CreateResponse(
      ProcessStatus(SliceLast(CardNumber(chargeData), 1)),
      ResponseRequest(id, chargeData.amount, chargeData.currency, chargeData.description),
      createdAt, cardId)
  }

  class ProviderOneMemoryRepository {
    var charges: map<string, StoredPayment>

    /** Each charge is stored under its own id, and no two ids share an object. */
    ghost predicate Valid()
      reads this, charges.Values
    {
      WellKeyed(charges)
    }

    /** The charges' current values. */
    ghost function Contents(): map<string, PaymentResponse>
      reads this, charges.Values
    {
      View(charges)
    }

    constructor ()
      ensures Valid() && Contents() == map[]
    {
      charges := map[];
    }

    /** Creates and stores a charge under a fresh id; `createdAt` and `cardId` are drawn by the caller. */
    method CreateCharge(chargeData: PaymentRequest, createdAt: string, cardId: string) returns (charge: StoredPayment)
      requires Valid() && HasCardNumber(chargeData)
      modifies this
      ensures Valid() && fresh(charge)
      ensures charge.data.id !in old(charges)
      ensures charge.data == NewCharge(chargeData, charge.data.id, createdAt, cardId)
      ensures charges == old(charges)[charge.data.id := charge]
      ensures Contents() == old(Contents())[charge.data.id := charge.data]
    {
      var id := Uuid.FreshId(charges);
      var data := NewCharge(chargeData, id, createdAt, cardId);
      charge := new StoredPayment(data);
      Set(id, charge);
    }

    /** `charges.set(id, charge)` for a new charge stored under its own id. */
    method Set(id: string, charge: StoredPayment)
      requires Valid() && id !in charges && charge.data.id == id && charge !in charges.Values
      modifies this
      ensures Valid() && charges == old(charges)[id := charge]
      ensures Contents() == old(Contents())[id := charge.data]
    {
      charges := charges[id := charge];
    }

    /** The charge stored under `id`, or None (the source's `null`). */
    method GetCharge(id: string) returns (charge: Option<StoredPayment>)
      requires Valid()
      ensures charge.Some? <==> id in charges
      ensures charge.Some? ==> charge.value == charges[id] && charge.value.data.id == id
    {
      if id in charges {
        charge := Some(charges[id]);
      } else {
        charge := None;
      }
    }

    /** Refunds a charge in place; an unknown id changes nothing and gives None. */
    method RefundCharge(id: string, amount: Option<int>) returns (charge: Option<StoredPayment>)
      requires Valid()
      modifies if id in charges then {charges[id]} else {}
      ensures Valid() && charges == old(charges)
      ensures charge.Some? <==> id in charges
      ensures id !in charges ==> Contents() == old(Contents())
      ensures id in charges ==>
        && charge == Some(charges[id])
        && Contents() == old(Contents())[id := Reverse(old(Contents())[id], Refunded, amount)]
    {
      if id !in charges {
        return None;
      }
      var stored := charges[id];
      stored.data := Reverse(stored.data, Refunded, amount);
      charge := Some(stored);
    }
  }
}
