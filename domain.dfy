/**
 * The response structs of pkg/domain.go, the copy that pkg/client.go uses.
 * They differ from those of pkg/form3/responses.go in two ways. Here
 * `CreateAccountResponse.Data` is a slice of accounts. Here the account's
 * organisation id is tagged `organziation_id`, so the `organisation_id`
 * member of a body does not reach it; the model does not capture this
 * second difference (it reads the account members as `Json.Account`). Each is a
 * caller-owned object that `Call` fills in place; every struct but `Errors`
 * embeds `BaseHTTPResponse` and so has the `StatusAble` capability,
 * `SetStatus`, which writes the status code and nothing else.
 */
module Domain {
  import opened Wrappers
  import opened Json

  /** The status-only response; `Call` skips decoding for it. */
  class BaseHTTPResponse {
    var statusCode: int

    constructor ()
      ensures statusCode == 0
    {
      statusCode := 0;
    }

    method SetStatus(status: int)
      modifies this
      ensures statusCode == status
    {
      statusCode := status;
    }
  }

  class ListResponse {
    var statusCode: int
    var data: seq<Account>

    constructor ()
      ensures statusCode == 0 && data == []
    {
      statusCode, data := 0, [];
    }

    method SetStatus(status: int)
      modifies this`statusCode
      ensures statusCode == status && data == old(data)
    {
      statusCode := status;
    }
  }

  /** Gains `SetStatus` from the embedded `BaseHTTPResponse`. */
  class FetchAccountResponse {
    var statusCode: int
    var data: Account

    constructor ()
      ensures statusCode == 0 && data == Account("", "", "", 0)
    {
      statusCode, data := 0, Account("", "", "", 0);
    }

    method SetStatus(status: int)
      modifies this`statusCode
      ensures statusCode == status && data == old(data)
    {
      statusCode := status;
    }
  }

  /** Gains `SetStatus` from the embedded `BaseHTTPResponse`; its data is a slice here. */
  class CreateAccountResponse {
    var statusCode: int
    var data: seq<Account>

    constructor ()
      ensures statusCode == 0 && data == []
    {
      statusCode, data := 0, [];
    }

    method SetStatus(status: int)
      modifies this`statusCode
      ensures statusCode == status && data == old(data)
    {
      statusCode := status;
    }
  }

  /** The error document; it has no status, so it is not `StatusAble`. */
  class Errors {
    var fieldErrors: map<string, seq<ApiError>>
    var generalErrors: seq<ApiError>

    constructor ()
      ensures fieldErrors == map[] && generalErrors == []
    {
      fieldErrors, generalErrors := map[], [];
    }

    function Fields(): (f: Fields)
      reads this
      ensures f.ErrorList?
    {
      ErrorList(fieldErrors, generalErrors)
    }
  }

  /** A pointer handed to the builder as a decode target (an `interface{}` in the source). */
  datatype Target =
    | BaseRef(base: BaseHTTPResponse)
    | ListRef(list: ListResponse)
    | FetchRef(fetch: FetchAccountResponse)
    | CreateRef(create: CreateAccountResponse)
    | ErrorsRef(errors: Errors)
  {
    /** Whether the pointee implements `StatusAble`; `Call` panics on a response target that does not. */
    predicate StatusAble() {
      !ErrorsRef?
    }

    /** Whether the pointee is exactly a `*BaseHTTPResponse`. */
    predicate IsStatusOnlyMarker() {
      BaseRef?
    }

    function Obj(): object {
      match this
      case BaseRef(b) => b
      case ListRef(l) => l
      case FetchRef(f) => f
      case CreateRef(c) => c
      case ErrorsRef(e) => e
    }

    /** The pointee's fields, by the shape of its type. */
    function Fields(): (f: Fields)
      reads Obj()
      ensures f.HasStatus() <==> StatusAble()
    {
      match this
      case BaseRef(b) => StatusOnly(b.statusCode)
      case ListRef(l) => AccountList(l.statusCode, l.data)
      case FetchRef(f) => SingleAccount(f.statusCode, f.data)
      case CreateRef(c) => AccountList(c.statusCode, c.data)
      case ErrorsRef(e) => e.Fields()
    }
  }

  /** `target.(StatusAble).SetStatus(status)`: the type assertion and the dynamic call. */
  method SetStatus(target: Target, status: int)
    requires target.StatusAble()
    modifies target.Obj()
    ensures target.Fields() == WithStatus(old(target.Fields()), status)
  {
    match target
    case BaseRef(b) => b.SetStatus(status);
    case ListRef(l) => l.SetStatus(status);
    case FetchRef(f) => f.SetStatus(status);
    case CreateRef(c) => c.SetStatus(status);
  }

  /** `json.NewDecoder(body).Decode(target)`, given the oracle's reading of the body. */
  method Decode(target: Target, parsed: Option<Document>) returns (failure: Option<DecodeError>)
    modifies target.Obj()
    ensures (target.Fields(), failure) == DecodeBody(old(target.Fields()), parsed)
  {
    var decoded := DecodeBody(target.Fields(), parsed);
    var f := decoded.0;
    failure := decoded.1;
    match target
    case BaseRef(b) => b.statusCode := f.statusCode;
    case ListRef(l) => l.statusCode, l.data := f.statusCode, f.accounts;
    case FetchRef(r) => r.statusCode, r.data := f.statusCode, f.account;
    case CreateRef(c) => c.statusCode, c.data := f.statusCode, f.accounts;
    case ErrorsRef(e) => e.fieldErrors, e.generalErrors := f.fieldErrors, f.generalErrors;
  }
}
