/**
 * How the two simulators decide the same canonical request: provider one
 * reads the card number directly, provider two reads the number the adapter
 * copied. The routing outcome therefore depends on the card's last digit.
 */
module CardRouting {
  import opened Wrappers
  import opened Js
  import opened Text
  import opened Payments
  import opened PaymentProviderAdapter
  import opened MockPaymentAdapter
  import One = ProviderOneMemory
  import Two = ProviderTwoMemory

  /** The status provider one's simulator gives the canonical request. */
  function PrimaryStatus(request: PaymentRequest): Status
    requires One.HasCardNumber(request)
  {
    One.ProcessStatus(SliceLast(One.CardNumber(request), 1))
  }

  /** The status provider two's simulator gives the adapted request. */
  function FallbackStatus(request: PaymentRequest): Status
  {
    Two.ProcessStatus(SliceLast(ConvertToProviderTwoFormat(Some(request)).value.card.number, 1))
  }

  /**
   * A card ending in '0' is charged by the primary; one ending in '1' fails
   * there and is paid by the fallback; any other card fails at both.
   */
  lemma StatusesByLastDigit(request: PaymentRequest)
    requires One.HasCardNumber(request)
    ensures var n := One.CardNumber(request);
      && (PrimaryStatus(request) == Succeeded <==> |n| > 0 && n[|n| - 1] == '0')
      && (FallbackStatus(request) == Paid <==> |n| > 0 && n[|n| - 1] == '1')
  {
    var n := One.CardNumber(request);
    One.ChargeStatusByLastDigit(n);
    assert CardOf(request).number == Some(n);
    assert ConvertToProviderTwoFormat(Some(request)).value.card.number == n;
    Two.TransactionStatusByLastDigit(n);
  }

  /** No card succeeds at both simulators. */
  lemma NeverBothSucceed(request: PaymentRequest)
    requires One.HasCardNumber(request)
    ensures !(PrimaryStatus(request) == Succeeded && FallbackStatus(request) == Paid)
  {
    StatusesByLastDigit(request);
  }

  /**
   * The fallback's stored transaction describes the payment with the
   * request's description, or the simulator's default when there is none.
   */
  lemma FallbackDescription(request: PaymentRequest, id: string, createdAt: string, cardId: string)
    ensures var stored := Two.NewTransaction(ConvertToProviderTwoFormat(Some(request)).value, id, createdAt, cardId);
      && stored.status == FallbackStatus(request)
      && stored.description == OrText(request.description, RESPONSE_DEFAULT_DESCRIPTION)
  {
  }
}
