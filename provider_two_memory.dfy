/**
 * Provider two's simulator: transactions kept in memory, their status
 * decided by the card number's last digit, voids applied in place.
 */
module ProviderTwoMemory {
  import opened Wrappers
  import opened Js
  import opened Text
  import opened PaymentProviderAdapter
  import opened MockPaymentAdapter
  import Uuid

  const SUCCESSFUL_PAYMENT_DIGIT := "1"

  /** `_processStatus`: paid for the successful digit, failed for anything else. */
  function ProcessStatus(lastDigit: string): (s: Status)
    ensures s == Paid <==> lastDigit == SUCCESSFUL_PAYMENT_DIGIT
    ensures s == Paid || s == Failed
  {
    if lastDigit == SUCCESSFUL_PAYMENT_DIGIT then Paid else Failed
  }

  /** A transaction is paid exactly when the card number ends in '1'. */
  lemma TransactionStatusByLastDigit(number: string)
    ensures ProcessStatus(SliceLast(number, 1)) == Paid <==> |number| > 0 && number[|number| - 1] == '1'
  {
    if |number| > 0 && number[|number| - 1] == '1' {
      assert SliceLast(number, 1) == ['1'];
    }
  }

  /**
   * The transaction `createTransaction` builds under `id`: paid exactly when
   * the card number ends in '1', failed otherwise, with the statement
   * descriptor as its description and `createResponse`'s other fields.
   */
  function NewTransaction(transactionData: TwoRequest, id: string, createdAt: string, cardId: string): (p: PaymentResponse)
    ensures p.id == id
    ensures var n := transactionData.card.number; p.status == Paid <==> |n| > 0 && n[|n| - 1] == '1'
    ensures p.status == Paid || p.status == Failed
    ensures p.originalAmount == p.currentAmount == OrNumber(transactionData.amount, RESPONSE_DEFAULT_AMOUNT)
    ensures p.currency == OrText(transactionData.currency, RESPONSE_DEFAULT_CURRENCY)
    ensures p.description == OrText(Some(transactionData.statementDescriptor), RESPONSE_DEFAULT_DESCRIPTION)
    ensures p.paymentMethod == "card" && p.createdAt == createdAt && p.cardId == cardId
  {
    TransactionStatusByLastDigit(transactionData.card.number);
    CreateResponse(
      ProcessStatus(SliceLast(transactionData.card.number, 1)),
      ResponseRequest(id, transactionData.amount, transactionData.currency, Some(transactionData.statementDescriptor)),
      createdAt, cardId)
  }

  class ProviderTwoMemoryStore {
    var transactions: map<string, StoredPayment>

    /** Each transaction is stored under its own id, and no two ids share an object. */
    ghost predicate Valid()
      reads this, transactions.Values
    {
      WellKeyed(transactions)
    }

    /** The transactions' current values. */
    ghost function Contents(): map<string, PaymentResponse>
      reads this, transactions.Values
    {
      View(transactions)
    }

    constructor ()
      ensures Valid() && Contents() == map[]
    {
      transactions := map[];
    }

    /**
     * Creates and stores a transaction under a fresh id; the statement
     * descriptor becomes its description. `createdAt` and `cardId` are drawn
     * by the caller.
     */
    method CreateTransaction(transactionData: TwoRequest, createdAt: string, cardId: string) returns (transaction: StoredPayment)
      requires Valid()
      modifies this
      ensures Valid() && fresh(transaction)
      ensures transaction.data.id !in old(transactions)
      ensures transaction.data == NewTransaction(transactionData, transaction.data.id, createdAt, cardId)
      ensures transactions == old(transactions)[transaction.data.id := transaction]
      ensures Contents() == old(Contents())[transaction.data.id := transaction.data]
    {
      var id := Uuid.FreshId(transactions);
      var data := NewTransaction(transactionData, id, createdAt, cardId);
      transaction := new StoredPayment(data);
      Set(id, transaction);
    }

    /** `transactions.set(id, transaction)` for a new transaction stored under its own id. */
    method Set(id: string, transaction: StoredPayment)
      requires Valid() && id !in transactions && transaction.data.id == id && transaction !in transactions.Values
      modifies this
      ensures Valid() && transactions == old(transactions)[id := transaction]
      ensures Contents() == old(Contents())[id := transaction.data]
    {
      transactions := transactions[id := transaction];
    }

    /** The transaction stored under `id`, or None (the source's `null`). */
    method GetTransaction(id: string) returns (transaction: Option<StoredPayment>)
      requires Valid()
      ensures transaction.Some? <==> id in transactions
      ensures transaction.Some? ==> transaction.value == transactions[id] && transaction.value.data.id == id
    {
      if id in transactions {
        transaction := Some(transactions[id]);
      } else {
        transaction := None;
      }
    }

    /** Voids a transaction in place; an unknown id changes nothing and gives None. */
    method VoidTransaction(id: string, amount: Option<int>) returns (transaction: Option<StoredPayment>)
      requires Valid()
      modifies if id in transactions then {transactions[id]} else {}
      ensures Valid() && transactions == old(transactions)
      ensures transaction.Some? <==> id in transactions
      ensures id !in transactions ==> Contents() == old(Contents())
      ensures id in transactions ==>
        && transaction == Some(transactions[id])
        && Contents() == old(Contents())[id := Reverse(old(Contents())[id], Voided, amount)]
    {
      if id !in transactions {
        return None;
      }
      var stored := transactions[id];
      stored.data := Reverse(stored.data, Voided, amount);
      transaction := Some(stored);
    }
  }
}
