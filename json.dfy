/**
 * JSON as far as the client sees it.
 *
 * Parsing bytes is left to an oracle (`Parser`), which yields the top-level
 * members of a JSON object that the response structs declare. Filling a
 * struct from a parsed document is modelled the way `encoding/json` does it:
 * members that are present overwrite the matching field, absent members
 * leave the field as it was, a map member is merged into the existing map,
 * and a member whose JSON shape does not fit the field is skipped and
 * reported as an error.
 */
module Json {
  import opened Wrappers

  newtype byte = x: int | 0 <= x < 256
  type Bytes = seq<byte>

  /** The identifying members of an account resource; its attributes are an opaque payload here. */
  datatype Account = Account(kind: string, id: string, organisationID: string, version: int)

  /** One entry of the API's error document. */
  datatype ApiError = ApiError(code: string, message: string)

  /** The "data" member: a single resource object or an array of them. */
  datatype Data = One(account: Account) | Many(accounts: seq<Account>)

  /** The members of a parsed JSON object that any response struct declares; None = absent or null (a `null` member is read as absent). */
  datatype Document = Document(
    statusCode: Option<int>,
    data: Option<Data>,
    fieldErrors: Option<map<string, seq<ApiError>>>,
    generalErrors: Option<seq<ApiError>>)

  /**
   * Parsing a body: None when decoding the whole value fails before any
   * member is read. That is a syntax error, an empty body, or a JSON value
   * other than an object or `null`. A `null` body is read as the empty
   * `Document`, because decoding `null` into a struct pointer changes
   * nothing and reports no error.
   */
  type Parser = Bytes -> Option<Document>

  /** Serialising a request payload: None when `json.Marshal` fails. */
  type Marshaller<-P> = P -> Option<Bytes>

  datatype DecodeError =
    | Malformed      // the body is not JSON, is empty, or is an array, string, number or boolean
    | TypeMismatch   // a member's JSON shape does not fit the struct field

  /**
   * The fields of a response struct, by the shape of its Go type. Every shape
   * but `ErrorList` embeds `BaseHTTPResponse` and so carries a status code.
   */
  datatype Fields =
    | StatusOnly(statusCode: int)                        // BaseHTTPResponse
    | AccountList(statusCode: int, accounts: seq<Account>)  // Data []Account
    | SingleAccount(statusCode: int, account: Account)     // Data Account
    | ErrorList(fieldErrors: map<string, seq<ApiError>>, generalErrors: seq<ApiError>)  // Errors
  {
    predicate HasStatus() {
      !ErrorList?
    }
  }

  /** Two field values of the same Go type. */
  predicate SameShape(f: Fields, g: Fields) {
    (f.StatusOnly? <==> g.StatusOnly?) && (f.AccountList? <==> g.AccountList?) &&
    (f.SingleAccount? <==> g.SingleAccount?) && (f.ErrorList? <==> g.ErrorList?)
  }

  /** Everything but the status code. */
  function Body(f: Fields): Fields {
    if f.HasStatus() then f.(statusCode := 0) else f
  }

  /** `SetStatus(status)` on a struct holding `f`. */
  function WithStatus(f: Fields, status: int): (r: Fields)
    requires f.HasStatus()
    ensures r.HasStatus() && r.statusCode == status
    ensures Body(r) == Body(f)
  {
    f.(statusCode := status)
  }

  /** Successive `SetStatus` calls: the last one wins. */
  lemma LastStatusWins(f: Fields, first: int, second: int)
    requires f.HasStatus()
    ensures WithStatus(WithStatus(f, first), second) == WithStatus(f, second)
  {
  }

  /** Setting the status it already has changes nothing. */
  lemma SetStatusIdempotent(f: Fields, status: int)
    requires f.HasStatus()
    ensures WithStatus(WithStatus(f, status), status) == WithStatus(f, status)
  {
  }

  /** Decoding a parsed object into a struct holding `f`: the new fields and the error, if any. */
  function DecodeInto(f: Fields, doc: Document): (r: (Fields, Option<DecodeError>))
    ensures SameShape(r.0, f)
    ensures r.1 == None || r.1 == Some(TypeMismatch)
    ensures f.HasStatus() ==> r.0.statusCode == doc.statusCode.GetOr(f.statusCode)
    ensures doc.data.None? && doc.fieldErrors.None? && doc.generalErrors.None? && doc.statusCode.None? ==> r == (f, None)
  {
    match f
    case StatusOnly(s) =>
      (StatusOnly(doc.statusCode.GetOr(s)), None)
    case AccountList(s, accounts) =>
      var s' := doc.statusCode.GetOr(s);
      (match doc.data
       case None => (AccountList(s', accounts), None)
       case Some(Many(xs)) => (AccountList(s', xs), None)
       case Some(One(_)) => (AccountList(s', accounts), Some(TypeMismatch)))
    case SingleAccount(s, account) =>
      var s' := doc.statusCode.GetOr(s);
      (match doc.data
       case None => (SingleAccount(s', account), None)
       case Some(One(a)) => (SingleAccount(s', a), None)
       case Some(Many(_)) => (SingleAccount(s', account), Some(TypeMismatch)))
    case ErrorList(fieldErrors, generalErrors) =>
      var merged := if doc.fieldErrors.Some? then fieldErrors + doc.fieldErrors.value else fieldErrors;
      (ErrorList(merged, doc.generalErrors.GetOr(generalErrors)), None)
  }

  /** `json.NewDecoder(body).Decode(target)`: a body that does not parse leaves the target as it was. */
  function DecodeBody(f: Fields, parsed: Option<Document>): (r: (Fields, Option<DecodeError>))
    ensures SameShape(r.0, f)
    ensures parsed.None? ==> r == (f, Some(Malformed))
    ensures parsed.Some? ==> r.1 != Some(Malformed)
  {
    if parsed.None? then (f, Some(Malformed)) else DecodeInto(f, parsed.value)
  }

  /** A well-formed error document fills the error struct and decodes without error. */
  lemma ErrorDocumentFillsErrors(f: Fields, doc: Document)
    requires f.ErrorList? && doc.generalErrors.Some?
    ensures DecodeBody(f, Some(doc)).1 == None
    ensures DecodeBody(f, Some(doc)).0.generalErrors == doc.generalErrors.value
  {
  }

  /** What `json.NewEncoder(buf).Encode(payload)` leaves in the buffer: the encoding and a newline, or nothing. */
  function Encoded(marshalled: Option<Bytes>): (body: Bytes)
    ensures marshalled.None? ==> body == []
    ensures marshalled.Some? ==> |body| == |marshalled.value| + 1 && body[..|marshalled.value|] == marshalled.value
    ensures marshalled.Some? ==> body[|body| - 1] == 10
  {
    if marshalled.Some? then marshalled.value + [10] else []
  }
}
