/**
 * The backend's token endpoint (backend/src/controllers/transcribeController.js):
 * choose the OpenAI key, ask the realtime sessions API for an ephemeral token,
 * and shape the reply. The upstream HTTP call is an input: how it settled.
 */
module TokenRelay {
  import opened Js

  const SessionsUrl := "https://api.openai.com/v1/realtime/sessions"
  const SessionModel := "gpt-4o-realtime-preview-2024-12-17"
  const KeyRequiredMessage := "API key is required. Provide it via X-API-Key header or configure it on the server."
  const FallbackMessage := "Failed to generate ephemeral token"
  const FallbackType := "unknown_error"

  /** The one upstream request the relay makes. */
  datatype SessionRequest = SessionRequest(url: string, authorization: string, model: string)

  /** How the upstream `fetch` settled: a response (status, and its body parsed as JSON or the parse error), or a rejection. */
  datatype Upstream =
    | Answered(status: int, body: Result<Value>)
    | Unreachable(error: Exception)

  /** What the handler does with the Express response: `res.status(..).json(..)`, `res.send(..)`, or `next(error)`. */
  datatype Reply =
    | Respond(status: int, body: Value)
    | Send(body: Value)
    | PassToNext(error: Exception)

  datatype Exchange = Exchange(request: Option<SessionRequest>, reply: Reply)

  predicate IsOk(status: int) {
    200 <= status <= 299
  }

  /** `req.headers['x-api-key'] || process.env.OPENAI_API_KEY`, None when that is falsy. */
  function SelectKey(header: Option<string>, env: Option<string>): (key: Option<string>)
    ensures key.Some? ==> key.value != ""
    ensures header.Some? && header.value != "" ==> key == header
    ensures (header.None? || header.value == "") && env.Some? && env.value != "" ==> key == env
    ensures key.None? <==> (header.None? || header.value == "") && (env.None? || env.value == "")
  {
    if header.Some? && header.value != "" then header
    else if env.Some? && env.value != "" then env
    else None
  }

  function ErrorBody(message: Value, kind: Option<Value>): Value {
    var fields := map["message" := message];
    Obj(map["error" := Obj(if kind.Some? then fields["type" := kind.value] else fields)])
  }

  /** The reply for an upstream answer that is not OK: same status, message and type with fallbacks. */
  function ForwardFailure(status: int, errorData: Value): (reply: Reply)
    ensures errorData.Null? || errorData.Undefined? ==> reply.PassToNext?
    ensures !(errorData.Null? || errorData.Undefined?) ==> reply.Respond? && reply.status == status
    ensures !(errorData.Null? || errorData.Undefined?) ==>
              var detail := Member(errorData, "error").value;
              var message := OptMember(detail, "message");
              var kind := OptMember(detail, "type");
              reply.body == ErrorBody(if Truthy(message) then message else Str(FallbackMessage),
                                      Some(if Truthy(kind) then kind else Str(FallbackType)))
  {
    match Member(errorData, "error")
    case Failure(e) => PassToNext(e)
    case Success(detail) =>
      Respond(status, ErrorBody(Or(OptMember(detail, "message"), Str(FallbackMessage)),
                                Some(Or(OptMember(detail, "type"), Str(FallbackType)))))
  }

  /** `generateEphemeralToken` */
  function GenerateEphemeralToken(header: Option<string>, env: Option<string>, upstream: Upstream): (x: Exchange)
    // the upstream request is made exactly when some key is available, and carries that key
    ensures x.request.Some? <==> SelectKey(header, env).Some?
    ensures x.request.Some? ==>
              x.request.value == SessionRequest(SessionsUrl, "Bearer " + SelectKey(header, env).value, SessionModel)
    // without a key: 401 with the fixed message
    ensures x.request.None? ==> x.reply == Respond(401, ErrorBody(Str(KeyRequiredMessage), None))
    // an upstream failure status is passed through to the client
    ensures x.request.Some? && upstream.Answered? && !IsOk(upstream.status) && upstream.body.Success? ==>
              x.reply == ForwardFailure(upstream.status, upstream.body.value)
    // an upstream success forwards the upstream body unchanged
    ensures x.request.Some? && upstream.Answered? && IsOk(upstream.status) && upstream.body.Success? ==>
              x.reply == Send(upstream.body.value)
    // whatever throws goes to the Express error handler
    ensures x.request.Some? && upstream.Unreachable? ==> x.reply == PassToNext(upstream.error)
    ensures x.request.Some? && upstream.Answered? && upstream.body.Failure? ==>
              x.reply == PassToNext(upstream.body.error)
  {
    match SelectKey(header, env)
    case None => Exchange(None, Respond(401, ErrorBody(Str(KeyRequiredMessage), None)))
    case Some(apiKey) =>
      var request := Some(SessionRequest(SessionsUrl, "Bearer " + apiKey, SessionModel));
      match upstream
      case Unreachable(e) => Exchange(request, PassToNext(e))
      case Answered(status, body) =>
        match body
        case Failure(e) => Exchange(request, PassToNext(e))
        case Success(data) =>
          if !IsOk(status) then Exchange(request, ForwardFailure(status, data))
          else Exchange(request, Send(data))
  }

  /** Without a key the reply does not depend on the upstream service at all. */
  lemma NoKeyNoUpstream(env: Option<string>, u1: Upstream, u2: Upstream)
    requires env.None? || env.value == ""
    ensures GenerateEphemeralToken(None, env, u1) == GenerateEphemeralToken(None, env, u2)
    ensures GenerateEphemeralToken(Some(""), env, u1) == GenerateEphemeralToken(None, env, u2)
  {
  }

  /** The header key wins over the server key, whatever the server key is. */
  lemma HeaderKeyWins(key: string, env1: Option<string>, env2: Option<string>, upstream: Upstream)
    requires key != ""
    ensures GenerateEphemeralToken(Some(key), env1, upstream) == GenerateEphemeralToken(Some(key), env2, upstream)
  {
  }

  /** An upstream error with neither message nor type gets both fallbacks, under the upstream status. */
  lemma FallbacksForBareError(status: int)
    requires !IsOk(status)
    ensures GenerateEphemeralToken(Some("k"), None, Answered(status, Success(Obj(map[]))))
            == Exchange(Some(SessionRequest(SessionsUrl, "Bearer k", SessionModel)),
                        Respond(status, Obj(map["error" := Obj(map["message" := Str(FallbackMessage),
                                                                   "type" := Str(FallbackType)])])))
  {
    assert Member(Obj(map[]), "error") == Success(Undefined);
    assert "message" != "type" by { assert |"message"| != |"type"|; }
    var fields := map["message" := Str(FallbackMessage)]["type" := Str(FallbackType)];
    assert fields == map["message" := Str(FallbackMessage), "type" := Str(FallbackType)];
    assert SelectKey(Some("k"), None) == Some("k");
    assert "Bearer " + "k" == "Bearer k";
    assert !Truthy(OptMember(Undefined, "message"));
    assert ForwardFailure(status, Obj(map[])) == Respond(status, ErrorBody(Str(FallbackMessage), Some(Str(FallbackType))));
    assert ErrorBody(Str(FallbackMessage), Some(Str(FallbackType))) == Obj(map["error" := Obj(fields)]);
  }
}
