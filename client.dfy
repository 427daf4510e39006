/**
 * pkg/client.go: the second copy of the client and its request builder,
 * over the response structs of pkg/domain.go.
 *
 * Its `Call` decodes every status outside [200, 299] as an error
 * (`Http.Outside2xx`). The account endpoints of this copy are not part of
 * the model.
 */
module PkgClient {
  import opened Wrappers
  import opened Json
  import opened Http
  import Paths
  import Query
  import R = Domain

  /** `Client`: the transport, the base URL, the debug flag and the static authorization key. */
  class Client {
    var transport: Transport
    var baseURL: Uri
    var debug: bool
    var authKey: string

    constructor (transport: Transport, baseURL: Uri, debug: bool, authKey: string)
      ensures this.transport == transport && this.baseURL == baseURL
      ensures this.debug == debug && this.authKey == authKey
    {
      this.transport, this.baseURL, this.debug, this.authKey := transport, baseURL, debug, authKey;
    }

    /** A fresh builder on a copy of the base URL that asks for JSON:API and sends no credentials. */
    method StartAnonymous(responseRef: R.Target, errorRef: R.Errors?) returns (rc: RestClient)
      ensures fresh(rc)
      ensures rc.uri == baseURL && rc.httpMethod == "" && rc.body == None
      ensures rc.headers == map["Accept" := JsonApiMediaType]
      ensures rc.responseRef == responseRef && rc.errorRef == errorRef
      ensures rc.debug == debug && rc.transport == transport
    {
      rc := new RestClient(debug, errorRef, transport, responseRef, baseURL);
      rc := rc.WithHeader("Accept", JsonApiMediaType);
    }

    /** `StartAnonymous` followed by `SetAuthorization(authKey)`. */
    method Start(responseRef: R.Target, errorRef: R.Errors?) returns (rc: RestClient)
      ensures fresh(rc)
      ensures rc.uri == baseURL && rc.httpMethod == "" && rc.body == None
      ensures rc.headers == InitialHeaders(authKey)
      ensures rc.responseRef == responseRef && rc.errorRef == errorRef
      ensures rc.debug == debug && rc.transport == transport
    {
      rc := StartAnonymous(responseRef, errorRef);
      rc := rc.SetAuthorization(authKey);
    }
  }

  /**
   * `NewHTTPClient`: a client over the given transport and base URL. It sets neither
   * the debug flag nor the authorization key, so both keep their zero values.
   * The default transport (a plain client with a timeout) or the one it is given
   * is the `transport` parameter here.
   */
  method NewHTTPClient(transport: Transport, baseURL: Uri) returns (c: Client)
    ensures fresh(c)
    ensures c.transport == transport && c.baseURL == baseURL
    ensures !c.debug && c.authKey == ""
  {
    c := new Client(transport, baseURL, false, "");
  }

  /** `restClient`: one request being put together, then sent once by `Call`. */
  class RestClient {
    var uri: Uri
    var httpMethod: string
    var errorRef: R.Errors?
    var body: Option<Bytes>
    var debug: bool
    var headers: map<string, string>
    var transport: Transport
    var responseRef: R.Target

    /** The struct literal of `StartAnonymous`, with the URI already in place. */
    constructor (debug: bool, errorRef: R.Errors?, transport: Transport, responseRef: R.Target, uri: Uri)
      ensures this.debug == debug && this.errorRef == errorRef && this.transport == transport
      ensures this.responseRef == responseRef && this.uri == uri
      ensures httpMethod == "" && body == None && headers == map[]
    {
      this.debug, this.errorRef, this.transport, this.responseRef, this.uri := debug, errorRef, transport, responseRef, uri;
      httpMethod, body, headers := "", None, map[];
    }

    /** The request `Call` hands to the transport. */
    function Outgoing(): Request
      reads this
    {
      Request(httpMethod, uri, headers, body)
    }

    function ErrorTarget(): set<object>
      reads this
    {
      if errorRef == null then {} else {errorRef}
    }

    function ErrorFields(): (f: Option<Fields>)
      reads this, ErrorTarget()
      ensures f.Some? ==> f.value.ErrorList?
    {
      if errorRef == null then None else Some(errorRef.Fields())
    }

    method SetHeader(key: string, value: string) returns (rc: RestClient)
      modifies this`headers
      ensures rc == this
      ensures headers == old(headers)[key := value]
    {
      headers := headers[key := value];
      rc := this;
    }

    /** An empty key is ignored; any other becomes the `Authorization` header. */
    method SetAuthorization(key: string) returns (rc: RestClient)
      modifies this`headers
      ensures rc == this
      ensures headers == if key == "" then old(headers) else old(headers)["Authorization" := key]
    {
      if key != "" {
        var _ := WithHeader("Authorization", key);
      }
      rc := this;
    }

    /** Ask for JSON:API and make the serialised payload the body. */
    method SetJSONBody<P>(payload: P, marshal: Marshaller<P>) returns (rc: RestClient)
      modifies this`headers, this`body
      ensures rc == this
      ensures headers == old(headers)["Accept" := JsonApiMediaType]
      ensures body == Some(Encoded(marshal(payload)))
    {
      var _ := SetHeader("Accept", JsonApiMediaType);
      body := Some(Encoded(marshal(payload)));
      rc := this;
    }

    method SetMethod(verb: string) returns (rc: RestClient)
      modifies this`httpMethod
      ensures rc == this && httpMethod == verb
    {
      httpMethod := verb;
      rc := this;
    }

    /** Add query entries under `key`: one per element of a string list, one formatted value otherwise. */
    method SetParameter(key: string, value: Query.ParamValue) returns (rc: RestClient)
      modifies this`uri
      ensures rc == this
      ensures uri == old(uri).(query := Query.Put(old(uri.query), key, value))
    {
      var q := uri.query;
      if value.StringList? {
        var items := value.items;
        for i := 0 to |items|
          invariant q == Query.AddAll(uri.query, key, items[..i])
        {
          assert items[..i + 1][..i] == items[..i];
          q := Query.Add(q, key, items[i]);
        }
        assert items[..|items|] == items;
      } else {
        q := Query.Add(q, key, Query.Format(value));
      }
      uri := uri.(query := q);
      rc := this;
    }

    /** `path.Join` of the current path and `p`. */
    method WithURI(p: string) returns (rc: RestClient)
      modifies this`uri
      ensures rc == this
      ensures uri == old(uri).(path := old(uri.path) + Paths.Segments(p))
    {
      uri := uri.(path := uri.path + Paths.Segments(p));
      rc := this;
    }

    /** `path.Join` of the current path and "/" + `segment`, skipped for an empty segment. */
    method WithURISegment(segment: string) returns (rc: RestClient)
      modifies this`uri
      ensures rc == this
      ensures uri == if segment == "" then old(uri) else old(uri).(path := old(uri.path) + Paths.Segments(segment))
    {
      if segment != "" {
        uri := uri.(path := uri.path + Paths.Segments(segment));
      }
      rc := this;
    }

    method WithHeader(key: string, value: string) returns (rc: RestClient)
      modifies this`headers
      ensures rc == this
      ensures headers == old(headers)[key := value]
    {
      headers := headers[key := value];
      rc := this;
    }

    method WithMethod(verb: string) returns (rc: RestClient)
      modifies this`httpMethod
      ensures rc == this && httpMethod == verb
    {
      httpMethod := verb;
      rc := this;
    }

    /**
     * Send the request and dispatch on the answer. The response target must
     * be `StatusAble` whenever a response arrives; the source panics otherwise.
     */
    method Call(parse: Parser) returns (err: Option<CallError>)
      requires transport(Outgoing()).Response? ==> responseRef.StatusAble()
      modifies this`errorRef, responseRef.Obj(), ErrorTarget()
      ensures var e := Outcome(Outside2xx, transport(old(Outgoing())), parse, old(responseRef.Fields()),
                               old(ErrorFields()), responseRef.IsStatusOnlyMarker());
              && err == e.result
              && responseRef.Fields() == e.response
              && errorRef == (if e.errorRefCleared then null else old(errorRef))
              && (old(errorRef) != null ==> e.errorTarget == Some(old(errorRef).Fields()))
    {
      var copied := CopyHeaders(headers);
      var ex := transport(Request(httpMethod, uri, copied, body));
      match ex {
        case ConstructFail(reason) =>
          err := Some(RequestError(reason));
        case TransportFail(reason) =>
          err := Some(TransportError(reason));
        case Response(status, payload) =>
          var failure: Option<DecodeError> := None;
          if status < 200 || status > 299 {
            if errorRef != null {
              failure := R.Decode(R.ErrorsRef(errorRef), parse(payload));
            }
          } else {
            errorRef := null;
            if !responseRef.IsStatusOnlyMarker() {
              failure := R.Decode(responseRef, parse(payload));
            }
          }
          R.SetStatus(responseRef, status);
          err := Failed(failure);
      }
    }
  }
}
