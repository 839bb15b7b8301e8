/** The response interpreter of `make_request`: what one call yields once
    the transport has answered. The transport (cURL) and the JSON decoder
    are not modelled; they are given as a `Network` of two functions. */
module Responses {
  import opened PhpValues
  import opened Requests

  /** What json_decode makes of a body: a value, or a parse error. */
  datatype Decoding = Malformed | Parsed(value: Json)

  /** What `make_request` returns when it does not return false: the raw
      body for a non-JSON content type, the decoded value for JSON. */
  datatype Payload = Raw(text: string) | Decoded(value: Json)

  /** The outside world: the transport answers a sent request with a body
      or with nothing (a failed cURL call), the decoder parses a body. */
  datatype Network = Network(transport: Request -> Option<string>, decode: string -> Decoding)

  /** The outcome of one call: a failure that is not logged, a failure
      envelope whose detail is logged as an Error, or a payload. */
  datatype Reply =
    | Failed
    | Rejected(message: Json, operation: Json, code: Json, detail: Json)
    | Delivered(payload: Payload)

  /** `$response->status->success` is truthy. */
  predicate Succeeded(j: Json)
  {
    Truthy(Get(Get(j, "status"), "success"))
  }

  /** The declared content type is JSON (`switch` on the `Content-Type` header). */
  predicate IsJson(resolved: Request)
  {
    Lookup(resolved.httpHeader, "Content-Type") == Some(JsonType)
  }

  /** Lines 431-454 of `make_request`: a falsy transport result fails; for
      JSON a parse error fails, an envelope without a truthy
      `status.success` is rejected with the detail of `status.detail`, and
      any other value is delivered decoded; for any other content type the
      raw body is delivered untouched. */
  function Interpret(resolved: Request, raw: Option<string>, decode: string -> Decoding): (reply: Reply)
    ensures reply.Rejected? <==>
              && raw.Some? && TruthyText(raw.value) && IsJson(resolved)
              && decode(raw.value).Parsed? && !Succeeded(decode(raw.value).value)
    ensures reply.Rejected? ==>
              var detail := Get(Get(decode(raw.value).value, "status"), "detail");
              reply == Rejected(Get(detail, "errormessage"), Get(detail, "operation"),
                                Get(detail, "errorcode"), Get(detail, "error"))
    ensures reply.Delivered? ==> raw.Some? && TruthyText(raw.value)
    ensures reply.Delivered? && reply.payload.Raw? ==> !IsJson(resolved) && reply.payload.text == raw.value
    ensures reply.Delivered? && reply.payload.Decoded? ==>
              IsJson(resolved) && decode(raw.value) == Parsed(reply.payload.value) && Succeeded(reply.payload.value)
    ensures raw.Some? && TruthyText(raw.value) && !IsJson(resolved) ==> reply == Delivered(Raw(raw.value))
    ensures raw.Some? && TruthyText(raw.value) && IsJson(resolved)
            && decode(raw.value).Parsed? && Succeeded(decode(raw.value).value) ==>
              reply == Delivered(Decoded(decode(raw.value).value))
    ensures reply.Failed? <==>
              raw.None? || !TruthyText(raw.value) || (IsJson(resolved) && decode(raw.value).Malformed?)
  {
    if raw.None? || !TruthyText(raw.value) then Failed
    else if !IsJson(resolved) then Delivered(Raw(raw.value))
    else
      match decode(raw.value)
      case Malformed => Failed
      case Parsed(j) =>
        if !Succeeded(j) then
          var detail := Get(Get(j, "status"), "detail");
          Rejected(Get(detail, "errormessage"), Get(detail, "operation"), Get(detail, "errorcode"), Get(detail, "error"))
        else Delivered(Decoded(j))
  }

  /** `$response->response` of a returned payload: null for a raw body. */
  function ResponseOf(p: Payload): Json
  {
    match p
    case Decoded(j) => Get(j, "response")
    case Raw(_) => Null
  }

  /** One call as `make_request` makes it: normalise, send, interpret. */
  function Exchange(request: Request, hostUrl: string, authToken: string, net: Network): Reply
  {
    var resolved := Normalized(request, hostUrl, authToken);
    Interpret(resolved, net.transport(resolved), net.decode)
  }

  /** The number of errors one call logs: one for a failure envelope,
      none otherwise. */
  function Rejections(request: Request, hostUrl: string, authToken: string, net: Network): nat
  {
    if Exchange(request, hostUrl, authToken, net).Rejected? then 1 else 0
  }

  /** A transport failure, an empty body or a body of "0" fails the call,
      whatever the content type, and nothing is logged. */
  lemma TransportFailureFails(resolved: Request, raw: Option<string>, decode: string -> Decoding)
    requires raw.None? || !TruthyText(raw.value)
    ensures Interpret(resolved, raw, decode) == Failed
  {
  }

  /** A JSON body that does not parse fails the call, and nothing is logged. */
  lemma MalformedFails(resolved: Request, raw: string, decode: string -> Decoding)
    requires TruthyText(raw) && IsJson(resolved) && decode(raw) == Malformed
    ensures Interpret(resolved, Some(raw), decode) == Failed
  {
  }

  /** For any other content type the body comes back exactly as received. */
  lemma NonJsonPassesThrough(resolved: Request, raw: string, decode: string -> Decoding)
    requires TruthyText(raw) && !IsJson(resolved)
    ensures Interpret(resolved, Some(raw), decode) == Delivered(Raw(raw))
  {
  }

  /** PHP's truthiness of what `make_request` returns. */
  predicate PayloadTruthy(p: Payload)
  {
    match p
    case Raw(text) => TruthyText(text)
    case Decoded(value) => Truthy(value)
  }

  /** What is delivered is always truthy, so the callers' `if (!$response
      = $this->make_request(...))` fails exactly when the call failed. */
  lemma DeliveredIsTruthy(resolved: Request, raw: Option<string>, decode: string -> Decoding)
    requires Interpret(resolved, raw, decode).Delivered?
    ensures PayloadTruthy(Interpret(resolved, raw, decode).payload)
  {
    var p := Interpret(resolved, raw, decode).payload;
    if p.Decoded? {
      assert Truthy(Get(Get(p.value, "status"), "success"));
      assert p.value.Obj?;
    }
  }

  /** A failure envelope `{"status":{"success":false,"detail":{...}}}` is
      rejected and carries its message "Bad", operation "login", code
      "401" and error "Auth". */
  lemma FailureEnvelopeExample(resolved: Request, raw: string)
    requires TruthyText(raw) && IsJson(resolved)
    ensures
      var detail := Obj([("errormessage", Str("Bad")), ("operation", Str("login")),
                         ("errorcode", Str("401")), ("error", Str("Auth"))]);
      var envelope := Obj([("status", Obj([("success", Bool(false)), ("detail", detail)]))]);
      Interpret(resolved, Some(raw), _ => Parsed(envelope))
        == Rejected(Str("Bad"), Str("login"), Str("401"), Str("Auth"))
  {
  }
}
