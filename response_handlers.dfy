/**
 * Response shaping: every outcome of the controller becomes a status code
 * and a JSON body.
 */
module ResponseHandlers {
  import opened Wrappers
  import opened Js
  import opened Text
  import opened ProviderFactory

  datatype Response = Response(status: int, body: Body)

  /** A validator's error: one message per violated rule. */
  datatype ValidationError = ValidationError(details: seq<string>)

  const AllProvidersFailedMessage := "Payment service unavailable, all providers failed"
  const UnknownErrorMessage := "Unknown error"
  const ValidationErrorMessage := "Validation error"

  /** `error?.message || 'Unknown error'`: never empty. */
  function ErrorText(error: Error): (text: string)
    ensures text != ""
    ensures error.message.Some? && error.message.value != "" ==> text == error.message.value
    ensures error.message.None? || error.message == Some("") ==> text == UnknownErrorMessage
  {
    OrText(error.message, UnknownErrorMessage)
  }

  /** A response with the given status and `{message, error: error.message}`. */
  function HandleErrorResponse(statusCode: int, message: string, error: Error): (r: Response)
    ensures r.status == statusCode
    ensures r.body.Keys == {"message", "error"}
    ensures r.body["message"] == Str(message) && r.body["error"] == MessageValue(error)
  {
    Response(statusCode, map["message" := Str(message), "error" := MessageValue(error)])
  }

  function ProviderEntry(providerName: string, error: Error): Json
  {
    Obj(map["provider" := Str(providerName), "error" := Str(ErrorText(error))])
  }

  /** 503 with the all-providers-failed message and an `errors` list (see ProviderFailuresListBoth). */
  function HandleProviderFailures(primaryError: Error, fallbackError: Error): (r: Response)
    ensures r.status == 503
    ensures r.body.Keys == {"message", "errors"}
    ensures r.body["message"] == Str(AllProvidersFailedMessage)
  {
    Response(503, map[
      "message" := Str(AllProvidersFailedMessage),
      "errors" := Arr([ProviderEntry(PROVIDER_ONE, primaryError), ProviderEntry(PROVIDER_TWO, fallbackError)])])
  }

  /** The failure body lists both providers, primary first, each with its error's text. */
  lemma ProviderFailuresListBoth(primaryError: Error, fallbackError: Error)
    ensures ProviderErrors(HandleProviderFailures(primaryError, fallbackError).body) ==
      Some([(PROVIDER_ONE, ErrorText(primaryError)), (PROVIDER_TWO, ErrorText(fallbackError))])
  {
    var second := [ProviderEntry(PROVIDER_TWO, fallbackError)];
    var pairs := [(PROVIDER_ONE, ErrorText(primaryError)), (PROVIDER_TWO, ErrorText(fallbackError))];
    ReadProviderEntry(PROVIDER_TWO, fallbackError, []);
    assert second + [] == second && [pairs[1]] + [] == [pairs[1]];
    ReadProviderEntry(PROVIDER_ONE, primaryError, second);
    assert [ProviderEntry(PROVIDER_ONE, primaryError)] + second ==
      [ProviderEntry(PROVIDER_ONE, primaryError), ProviderEntry(PROVIDER_TWO, fallbackError)];
    assert [pairs[0]] + [pairs[1]] == pairs;
  }

  /**
   * Reads a failure body's `errors` list back as (provider, message) pairs;
   * None when the list is missing or an entry is not of that shape.
   */
  function ProviderErrors(body: Body): Option<seq<(string, string)>>
  {
    if "errors" in body && body["errors"].Arr? then ReadEntries(body["errors"].items) else None
  }

  function ReadEntries(items: seq<Json>): Option<seq<(string, string)>>
  {
    if items == [] then Some([])
    else
      var head := items[0];
      if head.Obj? && "provider" in head.fields && head.fields["provider"].Str?
         && "error" in head.fields && head.fields["error"].Str?
      then
        match ReadEntries(items[1..])
        case None => None
        case Some(rest) => Some([(head.fields["provider"].s, head.fields["error"].s)] + rest)
      else None
  }

  /** An entry written by ProviderEntry reads back as its provider name and error text. */
  lemma ReadProviderEntry(providerName: string, error: Error, rest: seq<Json>)
    ensures ReadEntries([ProviderEntry(providerName, error)] + rest) ==
      if ReadEntries(rest).Some? then Some([(providerName, ErrorText(error))] + ReadEntries(rest).value) else None
  {
    var items := [ProviderEntry(providerName, error)] + rest;
    assert items[0] == ProviderEntry(providerName, error) && items[1..] == rest;
  }

  /** The result without its provider `id`, plus `transactionId`. */
  function FormatSuccessResponse(result: Body, transactionId: string): (r: Body)
    ensures "id" !in r
    ensures "transactionId" in r && r["transactionId"] == Str(transactionId)
    ensures forall k :: k in result && k != "id" && k != "transactionId" ==> k in r && r[k] == result[k]
    ensures forall k :: k in r ==> k == "transactionId" || (k in result && k != "id")
  {
    (result - {"id"})["transactionId" := Str(transactionId)]
  }

  /** 400 with every detail message, in order, separated by ", ". */
  function HandleValidationError(error: ValidationError): (r: Response)
    ensures r.status == 400
    ensures r.body == map["message" := Str(ValidationErrorMessage), "error" := Str(Join(error.details, ", "))]
  {
    Response(400, map["message" := Str(ValidationErrorMessage), "error" := Str(Join(error.details, ", "))])
  }

  /** The messages of two groups of details appear one group after the other. */
  lemma ValidationMessagesInOrder(first: seq<string>, second: seq<string>)
    requires first != [] && second != []
    ensures HandleValidationError(ValidationError(first + second)).body["error"].s ==
      HandleValidationError(ValidationError(first)).body["error"].s + ", " +
      HandleValidationError(ValidationError(second)).body["error"].s
  {
    JoinAppend(first, second, ", ");
  }
}
