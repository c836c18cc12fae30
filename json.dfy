/**
 * The JSON values a loaded document is made of, with the few pieces of
 * Python behaviour the card processor relies on: `dict.get` with a default,
 * truthiness (`not x`), and `str(x)` when a value is spliced into a file name.
 */
module Json {

  /** A decoded JSON value. Numbers are integers only. */
  datatype JSON =
    | JNull
    | JBool(b: bool)
    | JNum(n: int)
    | JStr(s: string)
    | JArr(arr: seq<JSON>)
    | JObj(obj: map<string, JSON>)

  /** A JSON object, i.e. a Python dict with string keys. */
  type Obj = map<string, JSON>

  /** Python's `d.get(key, default)`. */
  function Get(d: Obj, key: string, default: JSON): JSON
  {
    if key in d then d[key] else default
  }

  /** A list of dicts as a JSON array. */
  function Objects(os: seq<Obj>): (r: seq<JSON>)
    ensures |r| == |os|
    ensures forall j :: 0 <= j < |os| ==> r[j] == JObj(os[j])
  {
    seq(|os|, j requires 0 <= j < |os| => JObj(os[j]))
  }

  /** Python truthiness: `not x` is false exactly when this holds. */
  predicate Truthy(j: JSON)
  {
    match j
    case JNull => false
    case JBool(b) => b
    case JNum(n) => n != 0
    case JStr(s) => s != ""
    case JArr(a) => a != []
    case JObj(o) => o != map[]
  }

  function DigitChar(d: nat): (c: char)
    requires d < 10
    ensures '0' <= c <= '9'
  {
    "0123456789"[d]
  }

  /** The decimal digits of a natural number, most significant first. */
  function NatDigits(n: nat): (r: string)
    ensures r != []
    ensures forall k :: 0 <= k < |r| ==> '0' <= r[k] <= '9'
  {
    if n < 10 then [DigitChar(n)] else NatDigits(n / 10) + [DigitChar(n % 10)]
  }

  /** Python's `str(n)` for an integer. */
  function IntToString(n: int): (r: string)
    ensures r != []
    ensures forall k :: 0 <= k < |r| ==> r[k] == '-' || '0' <= r[k] <= '9'
    ensures n >= 0 ==> forall k :: 0 <= k < |r| ==> '0' <= r[k] <= '9'
  {
    if n < 0 then "-" + NatDigits(-n) else NatDigits(n)
  }

  /** The value of a string of decimal digits. */
  function DigitsValue(s: string): nat
    requires forall k :: 0 <= k < |s| ==> '0' <= s[k] <= '9'
  {
    if s == [] then 0 else DigitsValue(s[..|s| - 1]) * 10 + (s[|s| - 1] as int - '0' as int)
  }

  /** Reading the digits back gives the number: `str` on naturals loses nothing. */
  lemma {:induction false} NatDigitsValue(n: nat)
    ensures DigitsValue(NatDigits(n)) == n
  {
    if n >= 10 {
      var r := NatDigits(n);
      assert r[..|r| - 1] == NatDigits(n / 10);
      NatDigitsValue(n / 10);
    }
  }

  /**
   * Python's `str(x)` as used in an f-string. Arrays and objects would be
   * rendered with `repr`, which this model does not reproduce: they give "".
   */
  function Str(j: JSON): (r: string)
    ensures j.JStr? ==> r == j.s
    ensures !j.JStr? ==> forall k :: 0 <= k < |r| ==> r[k] != '.'
  {
    match j
    case JNull => "None"
    case JBool(b) => if b then "True" else "False"
    case JNum(n) => IntToString(n)
    case JStr(s) => s
    case JArr(_) => ""
    case JObj(_) => ""
  }
}
