/**
 * The values the backend handles: JSON frames decoded into Python objects,
 * configuration and mode-specific dictionaries, and the exceptions Python
 * raises when one of them has an unexpected type.
 */
module Values {

  /** A decoded JSON value as Python holds it (floating-point numbers are not modelled). */
  datatype Value =
    | Null
    | Bool(b: bool)
    | Int(i: int)
    | Str(s: string)
    | List(items: seq<Value>)
    | Object(fields: map<string, Value>)

  /** A Python dictionary with string keys (every JSON object, every mode-data dict). */
  type Dict = map<string, Value>

  /** The exceptions the modelled code can raise or wrap. */
  datatype PyError =
    | AttributeError      // e.g. `.get` or `.strip` on a value of the wrong type
    | TypeError           // unhashable dictionary key, bad operand of `+`, `<` or `[]`
    | NotInitialized      // 'Groq service not initialized. Check your API key.'
    | ServiceError        // 'AI service error: ...' wrapping a failure inside generate_response

  datatype Option<T> = None | Some(value: T)

  datatype Result<T> = Ok(value: T) | Err(error: PyError)

  /** `d.get(key, default)` */
  function Get(d: Dict, key: string, default: Value): Value
  {
    if key in d then d[key] else default
  }

  /** `{} if config is None else config`, the first step of every function that takes a configuration. */
  function OrEmpty(config: Value): Value
  {
    if config.Null? then Object(map[]) else config
  }

  /** Python truthiness (`if v:`). */
  predicate Truthy(v: Value)
  {
    match v
    case Null => false
    case Bool(b) => b
    case Int(i) => i != 0
    case Str(s) => s != ""
    case List(items) => items != []
    case Object(fields) => fields != map[]
  }

  /** Lists and dicts cannot be dictionary keys: looking them up raises TypeError. */
  predicate Hashable(v: Value)
  {
    !v.List? && !v.Object?
  }

  /** The integer a value stands for in `+` and `<`; Python's bool is a subclass of int. */
  function AsInt(v: Value): Option<int>
  {
    match v
    case Int(i) => Some(i)
    case Bool(b) => Some(if b then 1 else 0)
    case _ => None
  }

  /** One decimal digit. */
  function Digit(d: nat): char
    requires d < 10
  {
    "0123456789"[d]
  }

  /** The digit stands for its own value. */
  lemma DigitValue(d: nat)
    requires d < 10
    ensures '0' <= Digit(d) <= '9'
    ensures Digit(d) as int - '0' as int == d
  {
  }

  /** The number a string of decimal digits denotes, most significant first. */
  function DigitsValue(s: string): nat
    requires forall i :: 0 <= i < |s| ==> '0' <= s[i] <= '9'
  {
    if s == [] then 0 else DigitsValue(s[..|s| - 1]) * 10 + (s[|s| - 1] as int - '0' as int)
  }

  /** Decimal digits of a natural number, most significant first: they denote `n`, with no leading zero. */
  function Digits(n: nat): (r: string)
    ensures |r| >= 1
    ensures forall i :: 0 <= i < |r| ==> '0' <= r[i] <= '9'
    ensures n >= 10 ==> r[0] != '0'
    ensures DigitsValue(r) == n
  {
    DigitValue(n % 10);
    if n < 10 then
      assert [Digit(n)][..0] == [];
      [Digit(n)]
    else
      var r := Digits(n / 10) + [Digit(n % 10)];
      assert r[..|r| - 1] == Digits(n / 10);
      r
  }

  /** `str(n)` for an int. */
  function DecimalString(n: int): string
  {
    if n < 0 then "-" + Digits(-n) else Digits(n)
  }

  /**
   * What an f-string interpolation `{v}` produces. Lists and objects are
   * shown by a placeholder rather than by Python's repr.
   */
  function Show(v: Value): string
  {
    match v
    case Null => "None"
    case Bool(b) => if b then "True" else "False"
    case Int(i) => DecimalString(i)
    case Str(s) => s
    case List(_) => "[...]"
    case Object(_) => "{...}"
  }
}
