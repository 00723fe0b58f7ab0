/**
 * PHP values as they arrive in a request's item data, and the bits of PHP's
 * loose semantics the engine relies on: truthiness, `isset`, `empty`, and
 * arithmetic that reads `null` as 0.
 */
module Values {
  import opened Wrappers

  datatype Value =
    | Null
    | Bool(b: bool)
    | Num(n: real)
    | Str(s: string)
    | Arr(entries: map<string, Value>)

  /** An associative PHP array with string keys. */
  type Data = map<string, Value>

  /** PHP truthiness of a string: everything but "" and "0". */
  predicate StringTruthy(s: string)
  {
    s != "" && s != "0"
  }

  /** PHP truthiness (`if ($v)`, `!empty($v)`, `$v == true`). */
  predicate Truthy(v: Value)
  {
    match v
    case Null => false
    case Bool(b) => b
    case Num(n) => n != 0.0
    case Str(s) => StringTruthy(s)
    case Arr(m) => |m| != 0
  }

  /** PHP `isset($data[$key])`: present and not null. */
  predicate IsSet(data: Data, key: string)
  {
    key in data && !data[key].Null?
  }

  /** PHP `empty($data[$key])`: absent or falsy. */
  predicate IsEmpty(data: Data, key: string)
  {
    key !in data || !Truthy(data[key])
  }

  /** PHP truthiness of a `float|null`. */
  predicate NumberTruthy(x: Option<real>)
  {
    x.Some? && x.value != 0.0
  }

  /** PHP arithmetic reads `null` as 0. */
  function NumberOrZero(x: Option<real>): real
  {
    if x.Some? then x.value else 0.0
  }

  /** PHP `$tax > 0` on a `float|null`. */
  predicate Positive(x: Option<real>)
  {
    x.Some? && x.value > 0.0
  }

  /** PHP `$currency ?: $default` on a `string|null`. */
  function OrDefault(currency: Option<string>, default: string): (r: string)
    ensures currency.Some? && StringTruthy(currency.value) ==> r == currency.value
    ensures !(currency.Some? && StringTruthy(currency.value)) ==> r == default
  {
    if currency.Some? && StringTruthy(currency.value) then currency.value else default
  }
}
