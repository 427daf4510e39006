/**
 * The request a builder sends, what the transport answers, and the
 * decision `Call` takes on that answer, stated once for both copies of
 * the client. The two copies differ only in which statuses they treat as
 * failures (`StatusRule`).
 */
module Http {
  import opened Wrappers
  import opened Json
  import Paths
  import Query

  /** The media type sent in the `Accept` header. */
  const JsonApiMediaType := "application/vnd.api+json"

  /** A request URI: scheme and host (opaque), the path as segments, the query as values. */
  datatype Uri = Uri(origin: string, path: Paths.Path, query: Query.Values)

  /** What `http.NewRequest` is given, with the headers copied onto it. */
  datatype Request = Request(httpMethod: string, uri: Uri, headers: map<string, string>, body: Option<Bytes>)

  /**
   * How a round trip ends: the request could not be built (`http.NewRequest`
   * failed), the transport failed (`HTTPClient.Do` failed), or a response came
   * back with a status code and a body.
   */
  datatype Exchange =
    | ConstructFail(reason: string)
    | TransportFail(reason: string)
    | Response(status: int, body: Bytes)

  /** The configured `*http.Client`: the exchange it performs for each request. */
  type Transport = Request -> Exchange

  /** The error `Call` returns. */
  datatype CallError =
    | RequestError(reason: string)
    | TransportError(reason: string)
    | DecodeFailure(cause: DecodeError)

  /** Which statuses a copy of `Call` decodes as an error. */
  datatype StatusRule =
    | Over299      // pkg/form3/client.go: `StatusCode > 299`
    | Outside2xx   // pkg/client.go: `StatusCode < 200 || StatusCode > 299`

  predicate IsErrorStatus(rule: StatusRule, status: int) {
    match rule
    case Over299 => status > 299
    case Outside2xx => status < 200 || status > 299
  }

  /** The two rules disagree exactly on the statuses below 200, which only the second treats as errors. */
  lemma RulesDifferBelow200(status: int)
    ensures IsErrorStatus(Over299, status) != IsErrorStatus(Outside2xx, status) <==> status < 200
    ensures IsErrorStatus(Over299, status) ==> IsErrorStatus(Outside2xx, status)
  {
  }

  /**
   * The headers a fresh builder starts with: `Accept` always, and
   * `Authorization` when the client holds a non-empty key.
   */
  function InitialHeaders(authKey: string): (h: map<string, string>)
    ensures "Accept" in h && h["Accept"] == JsonApiMediaType
    ensures "Authorization" in h <==> authKey != ""
    ensures "Authorization" in h ==> h["Authorization"] == authKey
    ensures h.Keys <= {"Accept", "Authorization"}
  {
    var anonymous := map["Accept" := JsonApiMediaType];
    if authKey == "" then anonymous else anonymous["Authorization" := authKey]
  }

  /** The `for key, val := range rc.Headers { req.Header.Set(key, val) }` loop of `Call`. */
  method CopyHeaders(headers: map<string, string>) returns (copy: map<string, string>)
    ensures copy == headers
  {
    copy := map[];
    var rest := headers.Keys;
    while rest != {}
      invariant rest <= headers.Keys
      invariant copy.Keys == headers.Keys - rest
      invariant forall k :: k in copy ==> copy[k] == headers[k]
      decreases rest
    {
      var k :| k in rest;
      copy := copy[k := headers[k]];
      rest := rest - {k};
    }
  }

  /** The state `Call` leaves behind and the error it returns. */
  datatype Effect = Effect(
    response: Fields,               // the response target's fields
    errorTarget: Option<Fields>,    // the error target's fields, if one was supplied
    errorRefCleared: bool,          // whether `ErrorRef` was set to nil
    result: Option<CallError>)      // the returned error

  function Failed(cause: Option<DecodeError>): Option<CallError> {
    if cause.Some? then Some(DecodeFailure(cause.value)) else None
  }

  /**
   * `Call` as a function of the exchange, the targets' fields before the call
   * and whether the response target is the status-only `*BaseHTTPResponse`.
   */
  function Outcome(rule: StatusRule, ex: Exchange, parse: Parser,
                   response: Fields, errorTarget: Option<Fields>, statusOnly: bool): (e: Effect)
    requires ex.Response? ==> response.HasStatus()
    requires errorTarget.Some? ==> errorTarget.value.ErrorList?
    // no response: the error is returned as it is and nothing is touched, not even the status
    ensures ex.ConstructFail? ==> e == Effect(response, errorTarget, false, Some(RequestError(ex.reason)))
    ensures ex.TransportFail? ==> e == Effect(response, errorTarget, false, Some(TransportError(ex.reason)))
    // a response: its status is always attached, and only a decode failure is returned
    ensures ex.Response? ==> e.response.HasStatus() && e.response.statusCode == ex.status
    ensures ex.Response? ==> e.result.None? || e.result.value.DecodeFailure?
    ensures ex.Response? ==> (e.errorRefCleared <==> !IsErrorStatus(rule, ex.status))
    // an error status: the response body is decoded into the error target when there is one, and only then
    ensures ex.Response? && IsErrorStatus(rule, ex.status) ==> Body(e.response) == Body(response)
    ensures ex.Response? && IsErrorStatus(rule, ex.status) && errorTarget.None? ==> e.errorTarget.None? && e.result.None?
    ensures ex.Response? && IsErrorStatus(rule, ex.status) && errorTarget.Some? ==>
              e.errorTarget == Some(DecodeBody(errorTarget.value, parse(ex.body)).0) &&
              e.result == Failed(DecodeBody(errorTarget.value, parse(ex.body)).1)
    // a success status: the error target is left alone, and the body is decoded unless the target is status-only
    ensures ex.Response? && !IsErrorStatus(rule, ex.status) ==> e.errorTarget == errorTarget
    ensures ex.Response? && !IsErrorStatus(rule, ex.status) && statusOnly ==>
              e.result.None? && Body(e.response) == Body(response)
    ensures ex.Response? && !IsErrorStatus(rule, ex.status) && !statusOnly ==>
              Body(e.response) == Body(DecodeBody(response, parse(ex.body)).0) &&
              e.result == Failed(DecodeBody(response, parse(ex.body)).1)
  {
    match ex
    case ConstructFail(reason) => Effect(response, errorTarget, false, Some(RequestError(reason)))
    case TransportFail(reason) => Effect(response, errorTarget, false, Some(TransportError(reason)))
    case Response(status, body) =>
      if IsErrorStatus(rule, status) then
        if errorTarget.Some? then
          var decoded := DecodeBody(errorTarget.value, parse(body));
          Effect(WithStatus(response, status), Some(decoded.0), false, Failed(decoded.1))
        else
          Effect(WithStatus(response, status), None, false, None)
      else if statusOnly then
        Effect(WithStatus(response, status), errorTarget, true, None)
      else
        var decoded := DecodeBody(response, parse(body));
        Effect(WithStatus(decoded.0, status), errorTarget, true, Failed(decoded.1))
  }

  /**
   * A success status on a target that expects a body: the call returns no
   * error exactly when the body parses and its members fit the target.
   */
  lemma SuccessErrorIffUndecodable(rule: StatusRule, status: int, body: Bytes, parse: Parser,
                                   response: Fields, errorTarget: Option<Fields>)
    requires response.HasStatus() && !IsErrorStatus(rule, status)
    requires errorTarget.Some? ==> errorTarget.value.ErrorList?
    ensures Outcome(rule, Response(status, body), parse, response, errorTarget, false).result.None?
            <==> parse(body).Some? && DecodeInto(response, parse(body).value).1.None?
  {
  }
}
