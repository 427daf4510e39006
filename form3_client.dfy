/**
 * pkg/form3/client.go: the client, its fluent request builder `restClient`,
 * the dispatcher `Call`, and the account endpoints built on them.
 *
 * This copy treats every status above 299 as an error and everything else,
 * including statuses below 200, as success (`Http.Over299`).
 */
module Form3Client {
  import opened Wrappers
  import opened Json
  import opened Http
  import Paths
  import Query
  import R = Form3Responses

  /** The accounts collection, below the organisation resource. */
  const OrganisationPath := "/organisation"
  const AccountsPath := OrganisationPath + "/accounts"

  /** `Client`: the transport, the base URL, the debug flag and the static authorization key. */
  class Client {
    var transport: Transport
    var baseURL: Uri
    var debug: bool
    var authKey: string

    constructor (transport: Transport, baseURL: Uri, debug: bool, authKey: string)
      ensures this.transport == transport && this.baseURL == baseURL
      ensures this.debug == debug && this.authKey == authKey
    {
      this.transport, this.baseURL, this.debug, this.authKey := transport, baseURL, debug, authKey;
    }

    /** A fresh builder on a copy of the base URL that asks for JSON:API and sends no credentials. */
    method StartAnonymous(responseRef: R.Target, errorRef: R.Errors?) returns (rc: RestClient)
      ensures fresh(rc)
      ensures rc.uri == baseURL && rc.httpMethod == "" && rc.body == None
      ensures rc.headers == map["Accept" := JsonApiMediaType]
      ensures rc.responseRef == responseRef && rc.errorRef == errorRef
      ensures rc.debug == debug && rc.transport == transport
    {
      rc := new RestClient(debug, errorRef, transport, responseRef, baseURL);
      rc := rc.WithHeader("Accept", JsonApiMediaType);
    }

    /** `StartAnonymous` followed by `SetAuthorization(authKey)`. */
    method Start(responseRef: R.Target, errorRef: R.Errors?) returns (rc: RestClient)
      ensures fresh(rc)
      ensures rc.uri == baseURL && rc.httpMethod == "" && rc.body == None
      ensures rc.headers == InitialHeaders(authKey)
      ensures rc.responseRef == responseRef && rc.errorRef == errorRef
      ensures rc.debug == debug && rc.transport == transport
    {
      rc := StartAnonymous(responseRef, errorRef);
      rc := rc.SetAuthorization(authKey);
    }

    /** The base URL with the accounts collection joined onto its path. */
    function AccountsUri(): Uri
      reads this
    {
      baseURL.(path := baseURL.path + Paths.Segments(AccountsPath))
    }

    /** GET the accounts collection, one page of it. */
    method ListAccounts(parse: Parser, pageNumber: int, pageSize: int)
      returns (resp: R.ListResponse, err: Option<CallError>)
      ensures fresh(resp)
      ensures var query := Query.Put(Query.Put(baseURL.query, "page[number]", Query.Integer(pageNumber)),
                                     "page[size]", Query.Integer(pageSize));
              var request := Request("GET", AccountsUri().(query := query), InitialHeaders(authKey), None);
              var e := Outcome(Over299, transport(request), parse, AccountList(0, []), None, false);
              R.ListRef(resp).Fields() == e.response && err == e.result
    {
      resp := new R.ListResponse();
      var rc := Start(R.ListRef(resp), null);
      rc := rc.WithURI(AccountsPath);
      rc := rc.SetParameter("page[number]", Query.Integer(pageNumber));
      rc := rc.SetParameter("page[size]", Query.Integer(pageSize));
      rc := rc.SetMethod("GET");
      assert rc.Outgoing().uri.query == Query.Put(Query.Put(baseURL.query, "page[number]", Query.Integer(pageNumber)),
                                                  "page[size]", Query.Integer(pageSize));
      assert rc.Outgoing().uri.path == AccountsUri().path;
      assert R.ListRef(resp).Fields() == AccountList(0, []);
      err := rc.Call(parse);
    }

    /**
     * POST a new account. The error document is returned exactly when the
     * builder's `ErrorRef` is still set after the call, that is, unless a
     * response with a success status arrived.
     */
    method CreateAccount(parse: Parser, marshal: Marshaller<R.CreateAccountRequest>, request: R.CreateAccountRequest)
      returns (resp: R.CreateAccountResponse, errors: R.Errors?, err: Option<CallError>)
      ensures fresh(resp) && (errors != null ==> fresh(errors))
      ensures var sent := Request("POST", AccountsUri(), InitialHeaders(authKey)["Accept" := JsonApiMediaType],
                                  Some(Encoded(marshal(request))));
              var e := Outcome(Over299, transport(sent), parse, SingleAccount(0, Account("", "", "", 0)),
                               Some(ErrorList(map[], [])), false);
              && R.CreateRef(resp).Fields() == e.response && err == e.result
              && (errors == null <==> e.errorRefCleared)
              && (errors != null ==> e.errorTarget == Some(errors.Fields()))
    {
      resp := new R.CreateAccountResponse();
      var errorDoc := new R.Errors();
      var rc := Start(R.CreateRef(resp), errorDoc);
      var chained := rc.WithURI(AccountsPath);
      chained := chained.SetJSONBody(request, marshal);
      chained := chained.SetMethod("POST");
      assert chained == rc && rc.Outgoing().uri == AccountsUri();
      assert R.CreateRef(resp).Fields() == SingleAccount(0, Account("", "", "", 0));
      assert rc.ErrorFields() == Some(ErrorList(map[], []));
      err := chained.Call(parse);
      if rc.errorRef == null {
        errors := null;
      } else {
        errors := errorDoc;
      }
    }

    /** GET one account; an empty id leaves the collection path as it is. */
    method FetchAccount(parse: Parser, accountID: string)
      returns (resp: R.FetchAccountResponse, err: Option<CallError>)
      ensures fresh(resp)
      ensures var collection := baseURL.path + Paths.Segments(AccountsPath + "/");
              var uri := baseURL.(path := if accountID == "" then collection else collection + Paths.Segments(accountID));
              var e := Outcome(Over299, transport(Request("GET", uri, InitialHeaders(authKey), None)), parse,
                               SingleAccount(0, Account("", "", "", 0)), None, false);
              R.FetchRef(resp).Fields() == e.response && err == e.result
    {
      resp := new R.FetchAccountResponse();
      var rc := Start(R.FetchRef(resp), null);
      rc := rc.WithURI(AccountsPath + "/");
      rc := rc.WithURISegment(accountID);
      rc := rc.SetMethod("GET");
      assert R.FetchRef(resp).Fields() == SingleAccount(0, Account("", "", "", 0));
      err := rc.Call(parse);
    }

    /** DELETE one version of an account; the response target is the status-only `BaseHTTPResponse`. */
    method DeleteAccount(parse: Parser, accountID: string, version: int)
      returns (resp: R.BaseHTTPResponse, errors: R.Errors?, err: Option<CallError>)
      ensures fresh(resp) && (errors != null ==> fresh(errors))
      ensures var collection := baseURL.path + Paths.Segments(AccountsPath);
              var path := if accountID == "" then collection else collection + Paths.Segments(accountID);
              var uri := baseURL.(path := path, query := Query.Put(baseURL.query, "version", Query.Integer(version)));
              var e := Outcome(Over299, transport(Request("DELETE", uri, InitialHeaders(authKey), None)), parse,
                               StatusOnly(0), Some(ErrorList(map[], [])), true);
              && R.BaseRef(resp).Fields() == e.response && err == e.result
              && (errors == null <==> e.errorRefCleared)
              && (errors != null ==> e.errorTarget == Some(errors.Fields()))
    {
      resp := new R.BaseHTTPResponse();
      var errorDoc := new R.Errors();
      var rc := Start(R.BaseRef(resp), errorDoc);
      var chained := rc.WithURI(AccountsPath);
      chained := chained.WithURISegment(accountID);
      chained := chained.SetParameter("version", Query.Integer(version));
      chained := chained.SetMethod("DELETE");
      assert chained == rc && rc.Outgoing().uri.query == Query.Put(baseURL.query, "version", Query.Integer(version));
      assert R.BaseRef(resp).Fields() == StatusOnly(0);
      assert rc.ErrorFields() == Some(ErrorList(map[], []));
      err := chained.Call(parse);
      if rc.errorRef == null {
        errors := null;
      } else {
        errors := errorDoc;
      }
    }
  }

  /**
   * DELETE answered 200 with the plain-text body "OK": the status-only target
   * is not decoded, so whatever the body is, the call returns no error, the
   * status 200 is attached and no error document is handed back.
   */
  lemma DeleteIgnoresBody(body: Bytes, parse: Parser)
    ensures Outcome(Over299, Response(200, body), parse, StatusOnly(0), Some(ErrorList(map[], [])), true)
            == Effect(StatusOnly(200), Some(ErrorList(map[], [])), true, None)
  {
  }

  /**
   * DELETE of a stale version answered 409 with an error document: the
   * message lands in the error target, the returned error is nil and 409 is
   * attached to the response target.
   */
  lemma DeleteConflictFillsErrors(body: Bytes, parse: Parser, conflict: ApiError)
    requires parse(body) == Some(Document(None, None, None, Some([conflict])))
    ensures var e := Outcome(Over299, Response(409, body), parse, StatusOnly(0), Some(ErrorList(map[], [])), true);
            e.result.None? && e.response == StatusOnly(409) && !e.errorRefCleared &&
            e.errorTarget == Some(ErrorList(map[], [conflict]))
  {
  }

  /** Listing answered 200 with two accounts: both are decoded, in order, under status 200. */
  lemma ListDecodesAccounts(body: Bytes, parse: Parser, first: Account, second: Account)
    requires parse(body) == Some(Document(None, Some(Many([first, second])), None, None))
    ensures Outcome(Over299, Response(200, body), parse, AccountList(0, []), None, false)
            == Effect(AccountList(200, [first, second]), None, true, None)
  {
  }

  /** A refused connection while creating: the transport error comes back and no status is attached. */
  lemma CreateTransportFailure(reason: string, parse: Parser)
    ensures var e := Outcome(Over299, TransportFail(reason), parse, SingleAccount(0, Account("", "", "", 0)),
                             Some(ErrorList(map[], [])), false);
            e.result == Some(TransportError(reason)) && e.response.statusCode == 0 && !e.errorRefCleared
  {
  }

  /**
   * `NewClient`: a client over the given transport and base URL. It sets neither
   * the debug flag nor the authorization key, so both keep their zero values.
   * The TLS transport the source builds from the certificate files, or the one it is
   * given, is the `transport` parameter here.
   */
  method NewClient(transport: Transport, baseURL: Uri) returns (c: Client)
    ensures fresh(c)
    ensures c.transport == transport && c.baseURL == baseURL
    ensures !c.debug && c.authKey == ""
  {
    c := new Client(transport, baseURL, false, "");
  }

  /** `restClient`: one request being put together, then sent once by `Call`. */
  class RestClient {
    var uri: Uri
    var httpMethod: string
    var errorRef: R.Errors?
    var body: Option<Bytes>
    var debug: bool
    var headers: map<string, string>
    var transport: Transport
    var responseRef: R.Target

    /** The struct literal of `StartAnonymous`, with the URI already in place. */
    constructor (debug: bool, errorRef: R.Errors?, transport: Transport, responseRef: R.Target, uri: Uri)
      ensures this.debug == debug && this.errorRef == errorRef && this.transport == transport
      ensures this.responseRef == responseRef && this.uri == uri
      ensures httpMethod == "" && body == None && headers == map[]
    {
      this.debug, this.errorRef, this.transport, this.responseRef, this.uri := debug, errorRef, transport, responseRef, uri;
      httpMethod, body, headers := "", None, map[];
    }

    /** The request `Call` hands to the transport. */
    function Outgoing(): Request
      reads this
    {
      Request(httpMethod, uri, headers, body)
    }

    function ErrorTarget(): set<object>
      reads this
    {
      if errorRef == null then {} else {errorRef}
    }

    function ErrorFields(): (f: Option<Fields>)
      reads this, ErrorTarget()
      ensures f.Some? ==> f.value.ErrorList?
    {
      if errorRef == null then None else Some(errorRef.Fields())
    }

    method SetHeader(key: string, value: string) returns (rc: RestClient)
      modifies this`headers
      ensures rc == this
      ensures headers == old(headers)[key := value]
    {
      headers := headers[key := value];
      rc := this;
    }

    /** An empty key is ignored; any other becomes the `Authorization` header. */
    method SetAuthorization(key: string) returns (rc: RestClient)
      modifies this`headers
      ensures rc == this
      ensures headers == if key == "" then old(headers) else old(headers)["Authorization" := key]
    {
      if key != "" {
        var _ := WithHeader("Authorization", key);
      }
      rc := this;
    }

    /** Ask for JSON:API and make the serialised payload the body. */
    method SetJSONBody<P>(payload: P, marshal: Marshaller<P>) returns (rc: RestClient)
      modifies this`headers, this`body
      ensures rc == this
      ensures headers == old(headers)["Accept" := JsonApiMediaType]
      ensures body == Some(Encoded(marshal(payload)))
    {
      var _ := SetHeader("Accept", JsonApiMediaType);
      body := Some(Encoded(marshal(payload)));
      rc := this;
    }

    method SetMethod(verb: string) returns (rc: RestClient)
      modifies this`httpMethod
      ensures rc == this && httpMethod == verb
    {
      httpMethod := verb;
      rc := this;
    }

    /** Add query entries under `key`: one per element of a string list, one formatted value otherwise. */
    method SetParameter(key: string, value: Query.ParamValue) returns (rc: RestClient)
      modifies this`uri
      ensures rc == this
      ensures uri == old(uri).(query := Query.Put(old(uri.query), key, value))
    {
      var q := uri.query;
      if value.StringList? {
        var items := value.items;
        for i := 0 to |items|
          invariant q == Query.AddAll(uri.query, key, items[..i])
        {
          assert items[..i + 1][..i] == items[..i];
          q := Query.Add(q, key, items[i]);
        }
        assert items[..|items|] == items;
      } else {
        q := Query.Add(q, key, Query.Format(value));
      }
      uri := uri.(query := q);
      rc := this;
    }

    /** `path.Join` of the current path and `p`. */
    method WithURI(p: string) returns (rc: RestClient)
      modifies this`uri
      ensures rc == this
      ensures uri == old(uri).(path := old(uri.path) + Paths.Segments(p))
    {
      uri := uri.(path := uri.path + Paths.Segments(p));
      rc := this;
    }

    /** `path.Join` of the current path and "/" + `segment`, skipped for an empty segment. */
    method WithURISegment(segment: string) returns (rc: RestClient)
      modifies this`uri
      ensures rc == this
      ensures uri == if segment == "" then old(uri) else old(uri).(path := old(uri.path) + Paths.Segments(segment))
    {
      if segment != "" {
        uri := uri.(path := uri.path + Paths.Segments(segment));
      }
      rc := this;
    }

    method WithHeader(key: string, value: string) returns (rc: RestClient)
      modifies this`headers
      ensures rc == this
      ensures headers == old(headers)[key := value]
    {
      headers := headers[key := value];
      rc := this;
    }

    method WithMethod(verb: string) returns (rc: RestClient)
      modifies this`httpMethod
      ensures rc == this && httpMethod == verb
    {
      httpMethod := verb;
      rc := this;
    }

    /**
     * Send the request and dispatch on the answer. The response target must
     * be `StatusAble` whenever a response arrives; the source panics otherwise.
     */
    method Call(parse: Parser) returns (err: Option<CallError>)
      requires transport(Outgoing()).Response? ==> responseRef.StatusAble()
      modifies this`errorRef, responseRef.Obj(), ErrorTarget()
      ensures var e := Outcome(Over299, transport(old(Outgoing())), parse, old(responseRef.Fields()),
                               old(ErrorFields()), responseRef.IsStatusOnlyMarker());
              && err == e.result
              && responseRef.Fields() == e.response
              && errorRef == (if e.errorRefCleared then null else old(errorRef))
              && (old(errorRef) != null ==> e.errorTarget == Some(old(errorRef).Fields()))
    {
      var copied := CopyHeaders(headers);
      var ex := transport(Request(httpMethod, uri, copied, body));
      match ex {
        case ConstructFail(reason) =>
          err := Some(RequestError(reason));
        case TransportFail(reason) =>
          err := Some(TransportError(reason));
        case Response(status, payload) =>
          var failure: Option<DecodeError> := None;
          if status > 299 {
            if errorRef != null {
              failure := R.Decode(R.ErrorsRef(errorRef), parse(payload));
            }
          } else {
            errorRef := null;
            if !responseRef.IsStatusOnlyMarker() {
              failure := R.Decode(responseRef, parse(payload));
            }
          }
          R.SetStatus(responseRef, status);
          err := Failed(failure);
      }
    }
  }
}
