/** The dynamic values that flow through properties, and the conversions the
    property kinds apply to them: truthiness, `int(...)` and `float(...)`. */
module Values {
  import opened Wrappers
  import Text

  /** A dynamically typed value. `Null` is Python's `None` (JavaScript's
      `null`); `Comp` is a reference to a component, compared by identity;
      `Object` is any other object, such as the event loop itself. Floats are
      modelled as exact reals. */
  datatype Value =
    | Null
    | Bool(b: bool)
    | Int(i: int)
    | Float(r: real)
    | Str(s: string)
    | Tuple(items: seq<Value>)
    | List(items: seq<Value>)
    | Comp(id: nat)
    | Object(tag: nat)

  /** The exceptions the modelled code raises. */
  datatype Error = TypeError | ValueError | AttributeError | RuntimeError

  /** Python's `bool(v)`. */
  function Truthy(v: Value): (t: bool)
    ensures v.Null? ==> !t
    ensures v.Bool? ==> t == v.b
    ensures v.Int? ==> (t <==> v.i != 0)
    ensures v.Float? ==> (t <==> v.r != 0.0)
    ensures v.Comp? || v.Object? ==> t
    ensures v.Str? ==> (t <==> v.s != "")
    ensures v.Tuple? || v.List? ==> (t <==> v.items != [])
  {
    match v
    case Null => false
    case Bool(b) => b
    case Int(i) => i != 0
    case Float(r) => r != 0.0
    case Str(s) => s != ""
    case Tuple(items) => items != []
    case List(items) => items != []
    case Comp(_) => true
    case Object(_) => true
  }

  /** `isinstance(v, (int, float))`; a bool is an int in Python. */
  predicate IsNumber(v: Value)
  {
    v.Int? || v.Float? || v.Bool?
  }

  /** `isinstance(v, (tuple, list))`. */
  predicate IsSequence(v: Value)
  {
    v.Tuple? || v.List?
  }

  predicate IsDigit(c: char)
  {
    '0' <= c <= '9'
  }

  predicate AllDigits(s: string)
  {
    forall i :: 0 <= i < |s| ==> IsDigit(s[i])
  }

  function Pow10(n: nat): (p: nat)
    ensures p >= 1
  {
    if n == 0 then 1 else 10 * Pow10(n - 1)
  }

  /** The number a string of decimal digits denotes. */
  function DigitsValue(s: string): (n: nat)
    requires AllDigits(s)
    ensures n < Pow10(|s|)
  {
    if |s| == 0 then 0
    else DigitsValue(s[..|s| - 1]) * 10 + (s[|s| - 1] as int - '0' as int)
  }

  /** Splits an optional leading sign off a numeric literal. */
  function SignOf(s: string): (r: (int, string))
    ensures r.0 == 1 || r.0 == -1
    ensures |r.1| <= |s| && r.1 == s[|s| - |r.1|..]
  {
    if |s| > 0 && s[0] == '-' then (-1, s[1..])
    else if |s| > 0 && s[0] == '+' then (1, s[1..])
    else (1, s)
  }

  /** `int(s)` on a string: optional sign and at least one decimal digit,
      surrounding white space allowed; anything else raises ValueError. */
  function ParseInt(s: string): (r: Option<int>)
  {
    var t := Text.Trim(s);
    var (sign, body) := SignOf(t);
    if body != "" && AllDigits(body) then Some(if sign < 0 then -(DigitsValue(body) as int) else DigitsValue(body)) else None
  }

  /** `float(s)` on a string: optional sign, digits, an optional fraction
      after one `.`, at least one digit in all. */
  function ParseFloat(s: string): (r: Option<real>)
  {
    var t := Text.Trim(s);
    var (sign, body) := SignOf(t);
    var parts := Text.Split(body, '.');
    if |parts| == 1 && parts[0] != "" && AllDigits(parts[0]) then
      Some(if sign < 0 then -(DigitsValue(parts[0]) as real) else DigitsValue(parts[0]) as real)
    else if |parts| == 2 && parts[0] + parts[1] != "" && AllDigits(parts[0]) && AllDigits(parts[1]) then
      var x := DigitsValue(parts[0]) as real + DigitsValue(parts[1]) as real / Pow10(|parts[1]|) as real;
      Some(if sign < 0 then -x else x)
    else None
  }

  /** A plain run of decimal digits parses, as an int and as a float, to the
      number it denotes. */
  lemma ParseDigits(s: string)
    requires s != "" && AllDigits(s)
    ensures ParseInt(s) == Some(DigitsValue(s))
    ensures ParseFloat(s) == Some(DigitsValue(s) as real)
  {
    assert IsDigit(s[0]) && IsDigit(s[|s| - 1]);
    Text.TrimOfTrimmed(s);
    assert SignOf(s) == (1, s);
    assert '.' !in s by {
      forall i | 0 <= i < |s| ensures s[i] != '.' { assert IsDigit(s[i]); }
    }
    Text.SplitNoSeparator(s, '.');
  }

  /** SignOf splits a sign written before a run of digits from them. */
  lemma SignOfSigned(sign: string, d: string)
    requires sign == "" || sign == "+" || sign == "-"
    requires d != "" && AllDigits(d)
    ensures SignOf(sign + d) == (if sign == "-" then -1 else 1, d)
  {
    assert IsDigit(d[0]);
    if sign == "" {
      assert sign + d == d;
    } else {
      assert (sign + d)[0] == sign[0] && (sign + d)[1..] == d;
    }
  }

  /** Trimming a signed run of digits padded with white space leaves the
      sign and the digits. */
  lemma TrimSignedDigits(pre: string, sign: string, d: string, post: string)
    requires forall i :: 0 <= i < |pre| ==> Text.IsSpace(pre[i])
    requires forall i :: 0 <= i < |post| ==> Text.IsSpace(post[i])
    requires sign == "" || sign == "+" || sign == "-"
    requires d != "" && AllDigits(d)
    ensures Text.Trim(pre + sign + d + post) == sign + d
  {
    var x := sign + d;
    assert IsDigit(d[0]) && IsDigit(d[|d| - 1]);
    assert x[0] == if sign == "" then d[0] else sign[0];
    assert x[|x| - 1] == d[|d| - 1];
    assert pre + sign + d + post == pre + x + post;
    Text.TrimPadded(pre, x, post);
  }

  /** `int()` of a string whose sign and digits SignOf finds after trimming
      is the signed value. */
  lemma ParseIntSigned(s: string, sign: int, d: string)
    requires SignOf(Text.Trim(s)) == (sign, d)
    requires d != "" && AllDigits(d)
    ensures ParseInt(s) == Some(if sign < 0 then -(DigitsValue(d) as int) else DigitsValue(d))
  {
  }

  /** `float()` of a string whose sign and digits SignOf finds after
      trimming is the signed value. */
  lemma ParseFloatSigned(s: string, sign: int, d: string)
    requires SignOf(Text.Trim(s)) == (sign, d)
    requires d != "" && AllDigits(d)
    ensures ParseFloat(s) == Some(if sign < 0 then -(DigitsValue(d) as real) else DigitsValue(d) as real)
  {
    assert '.' !in d by {
      forall i | 0 <= i < |d| ensures d[i] != '.' { assert IsDigit(d[i]); }
    }
    Text.SplitNoSeparator(d, '.');
  }

  /** A signed run of decimal digits with white space around it parses, as
      an int, to its signed value. */
  lemma ParseIntPadded(pre: string, sign: string, d: string, post: string)
    requires forall i :: 0 <= i < |pre| ==> Text.IsSpace(pre[i])
    requires forall i :: 0 <= i < |post| ==> Text.IsSpace(post[i])
    requires sign == "" || sign == "+" || sign == "-"
    requires d != "" && AllDigits(d)
    ensures ParseInt(pre + sign + d + post) == Some(if sign == "-" then -(DigitsValue(d) as int) else DigitsValue(d))
  {
    TrimSignedDigits(pre, sign, d, post);
    SignOfSigned(sign, d);
    ParseIntSigned(pre + sign + d + post, if sign == "-" then -1 else 1, d);
  }

  /** A signed run of decimal digits with white space around it parses, as
      a float, to its signed value. */
  lemma ParseFloatPadded(pre: string, sign: string, d: string, post: string)
    requires forall i :: 0 <= i < |pre| ==> Text.IsSpace(pre[i])
    requires forall i :: 0 <= i < |post| ==> Text.IsSpace(post[i])
    requires sign == "" || sign == "+" || sign == "-"
    requires d != "" && AllDigits(d)
    ensures ParseFloat(pre + sign + d + post) == Some(if sign == "-" then -(DigitsValue(d) as real) else DigitsValue(d) as real)
  {
    TrimSignedDigits(pre, sign, d, post);
    SignOfSigned(sign, d);
    ParseFloatSigned(pre + sign + d + post, if sign == "-" then -1 else 1, d);
  }

  /** Python's `int(r)` on a float: truncation toward zero. */
  function Truncate(r: real): (n: int)
    ensures r >= 0.0 ==> n as real <= r < n as real + 1.0
    ensures r < 0.0 ==> n as real - 1.0 < r <= n as real
  {
    if r >= 0.0 then r.Floor else -((-r).Floor)
  }

  /** Python's `int(v)` for the values the Int kind admits. */
  function ToInt(v: Value): (r: Result<int, Error>)
    requires IsNumber(v) || v.Str?
    ensures v.Int? ==> r == Success(v.i)
    ensures v.Bool? ==> r == Success(if v.b then 1 else 0)
    ensures v.Float? ==> r == Success(Truncate(v.r))
    ensures v.Str? ==> (r.Success? <==> ParseInt(v.s).Some?)
    ensures r.Failure? ==> r.error == ValueError
  {
    match v
    case Int(i) => Success(i)
    case Bool(b) => Success(if b then 1 else 0)
    case Float(x) => Success(Truncate(x))
    case Str(s) => if ParseInt(s).Some? then Success(ParseInt(s).value) else Failure(ValueError)
  }

  /** Python's `float(v)` for numbers and strings. */
  function ToFloat(v: Value): (r: Result<real, Error>)
    requires IsNumber(v) || v.Str?
    ensures v.Float? ==> r == Success(v.r)
    ensures v.Int? ==> r == Success(v.i as real)
    ensures v.Bool? ==> r == Success(if v.b then 1.0 else 0.0)
    ensures v.Str? ==> (r.Success? <==> ParseFloat(v.s).Some?)
    ensures r.Failure? ==> r.error == ValueError
  {
    match v
    case Int(i) => Success(i as real)
    case Bool(b) => Success(if b then 1.0 else 0.0)
    case Float(x) => Success(x)
    case Str(s) => if ParseFloat(s).Some? then Success(ParseFloat(s).value) else Failure(ValueError)
  }
}
