/**
 * The Python values the payment service works on.
 *
 * Transactions, cards and enrollment records are Python dictionaries decoded
 * from JSON: which keys are present matters as much as what they hold, values
 * are tested for Python truthiness, and a few of them go through `int()`.
 * Exceptions that escape to the caller are values of `Raised`.
 */
module PyValues {

  datatype Option<+T> = None | Some(value: T)

  /** A JSON value as Python holds it after decoding. */
  datatype Value =
    | Null
    | Bool(b: bool)
    | Int(i: int)
    | Str(s: string)
    | Dict(fields: map<string, Value>)

  /** A Python dictionary with string keys: a transaction, a card, a record. */
  type TxData = map<string, Value>

  /** The exceptions the modelled code lets escape to its caller. */
  datatype Raised =
    | KeyError(key: string)
    | AttributeError(attribute: string)
    | TypeError(operation: string)
    | ValueError(operation: string)

  /** The outcome of a Python call that either returns or raises. */
  datatype Result<+T> = Ok(value: T) | Raise(error: Raised)

  /** Python's truth value of `v`: empty strings, empty dicts, 0, False and None are false. */
  predicate Truthy(v: Value)
  {
    match v
    case Null => false
    case Bool(b) => b
    case Int(i) => i != 0
    case Str(s) => |s| > 0
    case Dict(f) => |f| > 0
  }

  predicate IsDigit(c: char)
  {
    '0' <= c <= '9'
  }

  predicate AllDigits(s: string)
  {
    forall i :: 0 <= i < |s| ==> IsDigit(s[i])
  }

  function DigitValue(c: char): (n: nat)
    requires IsDigit(c)
    ensures n <= 9
  {
    (c as int) - ('0' as int)
  }

  /** The number a string of decimal digits denotes. */
  function DecimalValue(s: string): nat
    requires AllDigits(s)
  {
    if s == [] then 0 else DecimalValue(s[..|s| - 1]) * 10 + DigitValue(s[|s| - 1])
  }

  /**
   * Python's `int(v)` on the values the service passes it; `None` where
   * Python would raise (null, dictionaries, strings that are not a signed
   * decimal numeral).
   */
  function ParseInt(v: Value): Option<int>
  {
    match v
    case Int(i) => Some(i)
    case Bool(b) => Some(if b then 1 else 0)
    case Str(s) =>
      if |s| > 0 && AllDigits(s) then Some(DecimalValue(s))
      else if |s| > 1 && (s[0] == '+' || s[0] == '-') && AllDigits(s[1..]) then
        var n: int := DecimalValue(s[1..]);
        Some(if s[0] == '-' then -n else n)
      else None
    case _ => None
  }

  /** The decimal numeral of a natural number, most significant digit first. */
  function Numeral(n: nat): (s: string)
    ensures |s| > 0 && AllDigits(s)
    ensures DecimalValue(s) == n
    decreases n
  {
    var last := [(('0' as int) + n % 10) as char];
    if n < 10 then last
    else
      var s := Numeral(n / 10) + last;
      assert s[..|s| - 1] == Numeral(n / 10);
      s
  }

  /** Python's `str(v)` on the scalar values the service passes it. */
  function PyStr(v: Value): (s: string)
    requires !v.Dict?
    ensures v.Str? ==> s == v.s
  {
    match v
    case Null => "None"
    case Bool(b) => if b then "True" else "False"
    case Int(i) => if i < 0 then "-" + Numeral(-i) else Numeral(i)
    case Str(s) => s
  }

  /** A calendar date; Python's `datetime.date` compares them field by field. */
  datatype Date = Date(year: int, month: int, day: int)

  /** `a < b` on dates. */
  predicate Before(a: Date, b: Date)
  {
    a.year < b.year
    || (a.year == b.year && a.month < b.month)
    || (a.year == b.year && a.month == b.month && a.day < b.day)
  }
}
