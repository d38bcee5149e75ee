/**
 * The browser's client for the token relay (frontend/src/services/api/index.ts):
 * one POST to the relay, and the classification of its failures by HTTP status.
 * The HTTP call itself is an input: the settled outcome of the axios request.
 */
module TokenClient {
  import opened Js

  const TokenPath := "/api/transcribe/token"
  const InvalidKeyMessage := "Invalid API key. Please check your OpenAI API key and try again."
  const RateLimitMessage := "Rate limit exceeded. Please try again later."
  const OtherErrorPrefix := "Error getting ephemeral token: "

  datatype HttpResponse = HttpResponse(status: int, data: Value)

  /**
   * How the axios POST settled: a 2xx response with its parsed body; an axios
   * error (a non-2xx response, or none at all on a network failure) with the
   * error's own message; or anything else that was thrown on the way.
   */
  datatype PostOutcome =
    | Answered(data: Value)
    | AxiosFailure(response: Option<HttpResponse>, message: string)
    | OtherFailure(error: Exception)

  /** `error.response?.status` */
  function StatusOf(response: Option<HttpResponse>): Option<int> {
    if response.Some? then Some(response.value.status) else None
  }

  /** `error.response?.data?.error?.message || error.message` */
  function ErrorDetail(response: Option<HttpResponse>, message: string): (d: Value)
    ensures response.Some? && Truthy(OptMember(OptMember(response.value.data, "error"), "message"))
            ==> d == OptMember(OptMember(response.value.data, "error"), "message")
    ensures response.Some? && !Truthy(OptMember(OptMember(response.value.data, "error"), "message"))
            ==> d == Str(message)
    ensures response.None? ==> d == Str(message)
  {
    var data := if response.Some? then response.value.data else Undefined;
    Or(OptMember(OptMember(data, "error"), "message"), Str(message))
  }

  /** `getEphemeralToken`: the response body, or the error the promise rejects with. */
  function GetEphemeralToken(outcome: PostOutcome): (r: Result<Value>)
    // a 2xx body is handed back exactly as received
    ensures outcome.Answered? <==> r.Success?
    ensures outcome.Answered? ==> r.value == outcome.data
    // anything that is not an axios error is rethrown unchanged
    ensures outcome.OtherFailure? ==> r == Failure(outcome.error)
    // 401 and 429 have fixed messages, whatever the body says
    ensures outcome.AxiosFailure? && StatusOf(outcome.response) == Some(401)
            ==> r == Failure(PlainError(InvalidKeyMessage))
    ensures outcome.AxiosFailure? && StatusOf(outcome.response) == Some(429)
            ==> r == Failure(PlainError(RateLimitMessage))
    // every other axios error carries the relay's message, else axios' own
    ensures outcome.AxiosFailure? && StatusOf(outcome.response) != Some(401)
            && StatusOf(outcome.response) != Some(429)
            ==> r == Failure(PlainError(OtherErrorPrefix
                                        + ToJsString(ErrorDetail(outcome.response, outcome.message))))
  {
    match outcome
    case Answered(data) => Success(data)
    case AxiosFailure(response, message) =>
      var statusCode := StatusOf(response);
      var errorMessage := ErrorDetail(response, message);
      if statusCode == Some(401) then Failure(PlainError(InvalidKeyMessage))
      else if statusCode == Some(429) then Failure(PlainError(RateLimitMessage))
      else Failure(PlainError(OtherErrorPrefix + ToJsString(errorMessage)))
    case OtherFailure(error) => Failure(error)
  }

  /** The relay's JSON message wins over axios' message; a network failure falls back to axios' message. */
  lemma RelayMessagePreferred(status: int, relayMessage: string, axiosMessage: string)
    requires status != 401 && status != 429 && relayMessage != ""
    ensures var body := Obj(map["error" := Obj(map["message" := Str(relayMessage)])]);
            GetEphemeralToken(AxiosFailure(Some(HttpResponse(status, body)), axiosMessage))
            == Failure(PlainError(OtherErrorPrefix + relayMessage))
            && GetEphemeralToken(AxiosFailure(None, axiosMessage))
               == Failure(PlainError(OtherErrorPrefix + axiosMessage))
  {
  }

  /** A response without a usable `error.message`, such as an HTML error page, falls back to axios' message. */
  lemma BodyWithoutMessageFallsBack(status: int, body: Value, axiosMessage: string)
    requires status != 401 && status != 429
    requires !Truthy(OptMember(OptMember(body, "error"), "message"))
    ensures GetEphemeralToken(AxiosFailure(Some(HttpResponse(status, body)), axiosMessage))
            == Failure(PlainError(OtherErrorPrefix + axiosMessage))
  {
  }
}
