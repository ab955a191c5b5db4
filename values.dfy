/** JSON scalars as the request handlers see them, with the two Python
    conversions the handlers apply to them: truthiness (`if provider:`) and
    `str()` (inside the f-strings that build store keys). */
module Values {

  datatype Option<+T> = None | Some(value: T)

  datatype Result<+T, +E> = Ok(value: T) | Err(error: E)

  /** A scalar of a JSON request body. A number keeps the text Python's
      `str()` prints for it ("10.5", "123"), so that store keys built from it
      and its truthiness are exact without reasoning about floats. */
  datatype Value = Null | Bool(b: bool) | Num(text: string) | Str(s: string)

  /** A flat field map: a decoded request body, or a rendered record. */
  type Fields = map<string, Value>

  /** What `str()` prints for a numeric zero. */
  const ZeroTexts: set<string> := {"0", "0.0", "-0.0"}

  /** Python truthiness of a scalar: None, False, zero and "" are false. */
  predicate Truthy(v: Value)
  {
    match v
    case Null => false
    case Bool(b) => b
    case Num(t) => t !in ZeroTexts
    case Str(s) => s != ""
  }

  /** Python `str()` of a scalar. It is not injective: `None` and "None"
      print alike, and so do the number 123 and the string "123". */
  function Text(v: Value): string
  {
    match v
    case Null => "None"
    case Bool(b) => if b then "True" else "False"
    case Num(t) => t
    case Str(s) => s
  }

  /** `dict.get(key)`: the value under `key`, or None when it is absent. */
  function Get(m: Fields, key: string): Value
  {
    if key in m then m[key] else Null
  }

  /** A query-string argument counts only when it is present and non-empty
      (`if patient_id:` on `request.args.get(...)`). */
  predicate Given(arg: Option<string>)
  {
    arg.Some? && arg.value != ""
  }
}
