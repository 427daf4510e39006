/**
 * The query of a request URI as Go's `url.Values`: every key maps to the
 * list of its values, in the order they were added. The percent-encoded
 * text (`Values.Encode`, `URL.Query`) is not modelled; the builder keeps
 * this structured value instead.
 */
module Query {

  type Values = map<string, seq<string>>

  /** `Values.Get` generalised to all values: the list under `key`, empty when the key is absent. */
  function Get(q: Values, key: string): seq<string> {
    if key in q then q[key] else []
  }

  /** `Values.Add`: append one value under `key`. */
  function Add(q: Values, key: string, value: string): Values {
    q[key := Get(q, key) + [value]]
  }

  /** The loop `for _, v := range values { q.Add(key, v) }`, one `Add` per element, in order. */
  function AddAll(q: Values, key: string, values: seq<string>): (r: Values)
    ensures Get(r, key) == Get(q, key) + values
    ensures forall k :: k != key ==> Get(r, k) == Get(q, k)
    ensures r.Keys == if values == [] then q.Keys else q.Keys + {key}
    decreases |values|
  {
    if values == [] then q
    else Add(AddAll(q, key, values[..|values| - 1]), key, values[|values| - 1])
  }

  /** The value handed to `SetParameter`, which takes any Go value. */
  datatype ParamValue =
    | StringList(items: seq<string>)   // a `[]string`
    | Text(text: string)
    | Integer(number: int)
    | Boolean(flag: bool)

  /** `fmt.Sprintf("%v", v)` for the scalar kinds. */
  function Format(v: ParamValue): string
    requires !v.StringList?
  {
    match v
    case Text(s) => s
    case Integer(n) => Decimal(n)
    case Boolean(b) => if b then "true" else "false"
  }

  /** The query entries `SetParameter` adds for `v`: one per element of a list, one stringified value otherwise. */
  function Entries(v: ParamValue): seq<string> {
    if v.StringList? then v.items else [Format(v)]
  }

  /**
   * What `SetParameter(key, v)` does to the query: the entries of `v` are
   * appended under `key` in order, and everything already there is kept.
   */
  function Put(q: Values, key: string, v: ParamValue): (r: Values)
    ensures v.StringList? ==> Get(r, key) == Get(q, key) + v.items
    ensures !v.StringList? ==> Get(r, key) == Get(q, key) + [Format(v)]
    ensures forall k :: k != key ==> Get(r, k) == Get(q, k)
    ensures key in r <==> key in q || Entries(v) != []
  {
    if v.StringList? then AddAll(q, key, v.items) else Add(q, key, Format(v))
  }

  function DigitChar(d: nat): char
    requires d < 10
  {
    "0123456789"[d]
  }

  function DigitValue(c: char): nat {
    if '0' <= c <= '9' then (c - '0') as nat else 0
  }

  predicate IsDigit(c: char) {
    '0' <= c <= '9'
  }

  /** Decimal digits of `n`, most significant first, with no leading zero. */
  function Natural(n: nat): (s: string)
    ensures |s| >= 1
    ensures forall i :: 0 <= i < |s| ==> IsDigit(s[i])
    ensures |s| > 1 ==> s[0] != '0'
  {
    if n < 10 then [DigitChar(n)] else Natural(n / 10) + [DigitChar(n % 10)]
  }

  /** `%v` of a Go `int`: a minus sign for negatives, then the decimal digits. */
  function Decimal(n: int): string {
    if n < 0 then "-" + Natural(-n) else Natural(n)
  }

  /** Reads the decimal digits of `s`, as `strconv.Atoi` does for digit strings. */
  function ParseNatural(s: string): nat {
    if s == [] then 0 else 10 * ParseNatural(s[..|s| - 1]) + DigitValue(s[|s| - 1])
  }

  function ParseDecimal(s: string): int {
    if s != [] && s[0] == '-' then 0 - ParseNatural(s[1..]) as int else ParseNatural(s)
  }

  lemma {:induction false} ParseNaturalOfNatural(n: nat)
    ensures ParseNatural(Natural(n)) == n
  {
    var s := Natural(n);
    if n >= 10 {
      assert s[..|s| - 1] == Natural(n / 10);
      assert s[|s| - 1] == DigitChar(n % 10);
      ParseNaturalOfNatural(n / 10);
    }
  }

  /** A server reading the page or version number back gets the number the client sent. */
  lemma DecimalRoundTrip(n: int)
    ensures ParseDecimal(Decimal(n)) == n
  {
    if n < 0 {
      assert Decimal(n)[1..] == Natural(-n);
      ParseNaturalOfNatural(-n);
    } else {
      assert IsDigit(Natural(n)[0]);
      ParseNaturalOfNatural(n);
    }
  }
}
