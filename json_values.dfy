/**
 * The values the notifier handles: a parsed JSON body as Python's `json`
 * module builds it, the keys of a Python dict, and the Option and
 * Result wrappers used by the rest of the model.
 */
module JsonValues {

  datatype Option<+T> = None | Some(value: T)

  datatype Result<+T, +E> = Success(value: T) | Failure(error: E)

  /** A decoded JSON value: `null`, a boolean, an integer, a string, an array or an object. */
  datatype Json =
    | JNull
    | JBool(b: bool)
    | JInt(i: int)
    | JStr(s: string)
    | JList(items: seq<Json>)
    | JObject(fields: map<string, Json>)

  /** Python's `d.get(key)`: the value under `key`, or `None` when the key is absent. */
  function Get(fields: map<string, Json>, key: string): Json
  {
    if key in fields then fields[key] else JNull
  }

  /** `type(v).__name__` of the Python object the JSON decoder builds for `v`. */
  function TypeName(v: Json): string
  {
    match v
    case JNull => "NoneType"
    case JBool(_) => "bool"
    case JInt(_) => "int"
    case JStr(_) => "str"
    case JList(_) => "list"
    case JObject(_) => "dict"
  }

  /**
   * A key of a Python dict. Python compares `True == 1` and `False == 0` and
   * hashes them alike, so a boolean key is the integer key with the same value.
   */
  datatype Key = KNone | KInt(n: int) | KStr(s: string)

  /** The dict key a value hashes to, or None for the unhashable list and dict. */
  function KeyOf(v: Json): (k: Option<Key>)
    ensures k.None? <==> v.JList? || v.JObject?
    ensures v.JStr? ==> k == Some(KStr(v.s))
  {
    match v
    case JNull => Some(KNone)
    case JBool(b) => Some(KInt(if b then 1 else 0))
    case JInt(i) => Some(KInt(i))
    case JStr(s) => Some(KStr(s))
    case JList(_) => None
    case JObject(_) => None
  }

  function DigitChar(d: nat): char
    requires d < 10
  {
    "0123456789"[d]
  }

  /** The decimal digits of a natural number, most significant first. */
  function Digits(n: nat): (s: string)
    ensures |s| >= 1
    decreases n
  {
    if n < 10 then [DigitChar(n)] else Digits(n / 10) + [DigitChar(n % 10)]
  }

  /** `str(i)` for a Python int. */
  function DecimalString(i: int): string
  {
    if i < 0 then "-" + Digits(-i) else Digits(i)
  }

  /**
   * `str(v)` as an f-string renders it. Strings are embedded as they are and
   * scalars in Python's spelling; a list or dict is rendered by a placeholder
   * (see README, "Left out").
   */
  function Display(v: Json): string
  {
    match v
    case JNull => "None"
    case JBool(b) => if b then "True" else "False"
    case JInt(i) => DecimalString(i)
    case JStr(s) => s
    case JList(_) => "[...]"
    case JObject(_) => "{...}"
  }
}
