/**
 * The canonical-to-provider-two request translation: fields renamed, the
 * card's expiration year cut to two digits, absent fields defaulted.
 */
module PaymentProviderAdapter {
  import opened Wrappers
  import opened Js
  import opened Text
  import opened Payments

  /** Provider two's card shape. */
  datatype TwoCard = TwoCard(
    number: string,
    holder: string,
    cvv: string,
    expiration: string,
    installmentNumber: int)

  /** Provider two's transaction request shape. */
  datatype TwoRequest = TwoRequest(
    amount: Option<int>,
    currency: Option<string>,
    statementDescriptor: string,
    paymentType: string,
    card: TwoCard)

  const MissingDataMessage := "Payment data is required"

  /** The `expiration` field: `""` when there is no date, `MM/YY` for a date with exactly one slash, the date itself otherwise. */
  function Expiration(expirationDate: Option<string>): (r: string)
    ensures expirationDate.None? || expirationDate == Some("") ==> r == ""
  {
    match expirationDate
    case None => ""
    case Some(d) =>
      if d == "" then ""
      else
        var parts := Split(d, '/');
        if |parts| == 2 then parts[0] + "/" + SliceLast(parts[1], 2) else d
  }

  /** `paymentData.installments || 1`. */
  function InstallmentNumber(installments: Option<int>): (n: int)
    ensures n != 0
    ensures installments.Some? && installments.value != 0 ==> n == installments.value
    ensures installments.None? || installments == Some(0) ==> n == 1
  {
    OrNumber(installments, 1)
  }

  /** Translates a canonical payment request; only a missing request is an error. */
  function ConvertToProviderTwoFormat(data: Option<PaymentRequest>): (r: Result<TwoRequest, Error>)
    ensures r.Failure? <==> data.None?
    ensures r.Failure? ==> r.error == Raise(MissingDataMessage)
  {
    match data
    case None => Failure(Raise(MissingDataMessage))
    case Some(request) =>
      var card := CardOf(request);
      Success(TwoRequest(
        request.amount,
        request.currency,
        OrText(request.description, ""),
        "card",
        TwoCard(
          OrText(card.number, ""),
          OrText(card.holderName, ""),
          OrText(card.cvv, ""),
          Expiration(card.expirationDate),
          InstallmentNumber(card.installments))))
  }

  /** A date with one slash keeps its month part and the last two characters of its year part. */
  lemma ExpirationOfMonthYear(month: string, year: string)
    requires '/' !in month && '/' !in year
    ensures Expiration(Some(month + "/" + year)) == month + "/" + SliceLast(year, 2)
  {
    SplitAtFirstSeparator(month, '/', year);
    SplitWithoutSeparator(year, '/');
  }

  /** A non-empty date whose slash count is not one passes through unchanged. */
  lemma ExpirationPassesThrough(d: string)
    requires d != "" && multiset(d)['/'] != 1
    ensures Expiration(Some(d)) == d
  {
    SplitCount(d, '/');
  }

  /** A date that passed the validator's MM/YYYY pattern becomes MM/YY. */
  lemma ExpirationOfValidatedDate(d: string)
    requires IsMonthYear(d)
    ensures Expiration(Some(d)) == d[..3] + d[5..]
  {
    var month, year := d[..2], d[3..];
    assert d == month + "/" + year;
    assert '/' !in month by {
      forall i | 0 <= i < |month| ensures month[i] != '/' {
        assert month[i] == d[i];
      }
    }
    assert '/' !in year by {
      forall i | 0 <= i < |year| ensures year[i] != '/' {
        assert year[i] == d[3 + i];
      }
    }
    ExpirationOfMonthYear(month, year);
  }

  lemma ExpirationExample()
    ensures Expiration(Some("12/2025")) == "12/25"
  {
    ExpirationOfValidatedDate("12/2025");
  }

  /** Amount and currency are copied, the description becomes the statement descriptor, the type is always card. */
  lemma ConvertCopiesPaymentFields(request: PaymentRequest)
    ensures var r := ConvertToProviderTwoFormat(Some(request));
      && r.Success?
      && r.value.amount == request.amount
      && r.value.currency == request.currency
      && r.value.statementDescriptor == OrText(request.description, "")
      && r.value.paymentType == "card"
  {
  }

  /** Card fields are renamed, with `""` for every absent text field and 1 for absent or zero installments. */
  lemma ConvertRenamesCardFields(request: PaymentRequest)
    ensures var r := ConvertToProviderTwoFormat(Some(request));
      var card := CardOf(request);
      && r.Success?
      && r.value.card.number == OrText(card.number, "")
      && r.value.card.holder == OrText(card.holderName, "")
      && r.value.card.cvv == OrText(card.cvv, "")
      && r.value.card.expiration == Expiration(card.expirationDate)
      && r.value.card.installmentNumber == InstallmentNumber(card.installments)
  {
  }

  /** A request without a card still converts, to an all-default card. */
  lemma ConvertWithoutCard(request: PaymentRequest)
    requires request.paymentMethod.None? || request.paymentMethod.value.card.None?
    ensures ConvertToProviderTwoFormat(Some(request)) ==
      Success(TwoRequest(request.amount, request.currency, OrText(request.description, ""), "card",
                         TwoCard("", "", "", "", 1)))
  {
  }

  /**
   * Reading a provider-two card back as a canonical card, taking the
   * two-digit year to be in the 2000s.
   */
  function RestoreCard(c: TwoCard): Card
  {
    var exp := c.expiration;
    var expirationDate := if |exp| == 5 then exp[..3] + "20" + exp[3..] else exp;
    Card(Some(c.number), Some(c.holder), Some(c.cvv), Some(expirationDate), Some(c.installmentNumber))
  }

  /** A fully validated card of this century survives the translation: reading it back gives the same card. */
  lemma ValidatedCardRoundTrip(request: PaymentRequest, card: Card)
    requires request.paymentMethod.Some? && request.paymentMethod.value.card == Some(card)
    requires card.number.Some? && card.holderName.Some? && card.cvv.Some?
    requires card.expirationDate.Some? && IsMonthYear(card.expirationDate.value)
    requires card.expirationDate.value[3..5] == "20"
    requires card.installments.Some? && card.installments.value >= 1
    ensures var r := ConvertToProviderTwoFormat(Some(request));
      r.Success? && RestoreCard(r.value.card) == card
  {
    var d := card.expirationDate.value;
    ExpirationOfValidatedDate(d);
    var e := d[..3] + d[5..];
    assert e[..3] + "20" + e[3..] == d;
  }
}
