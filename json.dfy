/**
 * The decoded body of an API answer, as Python's json module hands it
 * over, together with the few pieces of Python semantics the bot applies
 * to such values: isinstance checks, the `in` operator, type names and
 * str() of scalars.
 */
module Json {

  /** A decoded JSON value. Objects keep the last value of a repeated key, as dict does. */
  datatype Json =
    | Null
    | Bool(b: bool)
    | Int(i: int)
    | Str(s: string)
    | Arr(items: seq<Json>)
    | Obj(fields: map<string, Json>)

  /** isinstance(v, int): in Python bool is a subclass of int, so booleans pass too. */
  predicate IsPyInt(v: Json) {
    v.Int? || v.Bool?
  }

  /** Python's truth value of a decoded value: zero, empty and None are false. */
  predicate PyTruthy(v: Json) {
    match v
    case Null => false
    case Bool(b) => b
    case Int(i) => i != 0
    case Str(s) => s != ""
    case Arr(items) => items != []
    case Obj(fields) => fields != map[]
  }

  /**
   * The integer a value that passes isinstance(v, int) stands for (True is
   * 1, False is 0). It is zero exactly when Python finds the value false,
   * so `value or default` on it can be decided on the integer.
   */
  function PyIntValue(v: Json): (n: int)
    requires IsPyInt(v)
    ensures PyTruthy(v) <==> n != 0
  {
    match v
    case Int(i) => i
    case Bool(b) => if b then 1 else 0
  }

  /** Values that are hashable in Python, and whose str() the model renders. */
  predicate IsScalar(v: Json) {
    !v.Arr? && !v.Obj?
  }

  /** The name of the Python type a decoded value has. */
  function PyTypeName(v: Json): string {
    match v
    case Null => "NoneType"
    case Bool(_) => "bool"
    case Int(_) => "int"
    case Str(_) => "str"
    case Arr(_) => "list"
    case Obj(_) => "dict"
  }

  /** str(type(v)), as an f-string renders it: the type's name inside `<class '...'>`. */
  function PyTypeRepr(v: Json): (r: string)
    ensures |r| == |PyTypeName(v)| + 10
    ensures r[..8] == "<class '" && r[8..|r| - 2] == PyTypeName(v) && r[|r| - 2..] == "'>"
  {
    "<class '" + PyTypeName(v) + "'>"
  }

  /** The number a string of decimal digits spells, most significant first. */
  function DigitsValue(s: string): int
    decreases |s|
  {
    if s == [] then 0 else DigitsValue(s[..|s| - 1]) * 10 + (s[|s| - 1] as int - '0' as int)
  }

  /** The integer an optionally signed decimal numeral spells, as int() reads it. */
  function DecimalValue(s: string): int {
    if |s| > 0 && s[0] == '-' then -DigitsValue(s[1..]) else DigitsValue(s)
  }

  /** Decimal digits of a natural number, most significant first; reading them back gives the number. */
  function Digits(n: nat): (r: string)
    ensures |r| > 0
    ensures forall k :: 0 <= k < |r| ==> '0' <= r[k] <= '9'
    ensures DigitsValue(r) == n
    ensures r[0] == '0' <==> n == 0
    ensures |r| == 1 || r[0] != '0'
    decreases n
  {
    var d := ['0' + (n % 10) as char];
    if n < 10 then d
    else
      var r := Digits(n / 10) + d;
      assert r[..|r| - 1] == Digits(n / 10);
      r
  }

  /** str(n) for a Python int: a minus sign exactly for negatives, and it reads back as n. */
  function DecimalText(n: int): (r: string)
    ensures |r| > 0 && (r[0] == '-' <==> n < 0)
    ensures DecimalValue(r) == n
    ensures n >= 0 ==> |r| == 1 || r[0] != '0'
    ensures n < 0 ==> |r| >= 2 && r[1] != '0'
    ensures forall k :: (if n < 0 then 1 else 0) <= k < |r| ==> '0' <= r[k] <= '9'
  {
    if n < 0 then
      var r := "-" + Digits(-n);
      assert r[1..] == Digits(-n);
      r
    else Digits(n)
  }

  /** str(v) for a scalar, as an f-string renders it: a string unchanged, an int as a numeral that reads back. */
  function PyStr(v: Json): (r: string)
    requires IsScalar(v)
    ensures v.Str? ==> r == v.s
    ensures v.Int? ==> r == DecimalText(v.i) && DecimalValue(r) == v.i
    ensures v.Null? ==> r == "None"
    ensures v.Bool? ==> r in {"True", "False"} && (r == "True" <==> v.b)
  {
    match v
    case Null => "None"
    case Bool(b) => if b then "True" else "False"
    case Int(i) => DecimalText(i)
    case Str(s) => s
  }

  /** Whether `key` occurs as a contiguous piece of `s`: Python's `key in s` on two strings. */
  function Occurs(key: string, s: string): bool
    decreases |s|
  {
    if |key| > |s| then false
    else if s[..|key|] == key then true
    else Occurs(key, s[1..])
  }

  /** `key` is spelled by the window of `s` that starts at `i`. */
  predicate SpelledAt(key: string, s: string, i: int) {
    0 <= i <= |s| - |key| && s[i..i + |key|] == key
  }

  /** Dropping the first character of `s` shifts every later window by one. */
  lemma WindowShift(key: string, s: string, i: int)
    requires 0 < i <= |s| - |key|
    ensures SpelledAt(key, s, i) <==> SpelledAt(key, s[1..], i - 1)
  {
    assert s[i..i + |key|] == s[1..][i - 1..i - 1 + |key|];
  }

  /** Occurs finds exactly the substrings: some window of `s` spells `key`. */
  lemma {:induction false} OccursIsSubstring(key: string, s: string)
    ensures Occurs(key, s) <==> exists i :: SpelledAt(key, s, i)
    decreases |s|
  {
    if |key| > |s| {
    } else if s[..|key|] == key {
      assert SpelledAt(key, s, 0);
    } else {
      OccursIsSubstring(key, s[1..]);
      if Occurs(key, s[1..]) {
        var i :| SpelledAt(key, s[1..], i);
        WindowShift(key, s, i + 1);
      } else {
        forall i | 0 < i <= |s| - |key|
          ensures !SpelledAt(key, s, i)
        {
          WindowShift(key, s, i);
        }
        assert !SpelledAt(key, s, 0);
      }
    }
  }

  /** Values on which Python's `in` operator does not raise. */
  predicate IsIterable(v: Json) {
    v.Obj? || v.Arr? || v.Str?
  }

  /** Python's `key in v` for a string key: a dict tests its keys, a list its elements, a string its substrings. */
  function PyIn(key: string, v: Json): (r: bool)
    requires IsIterable(v)
    ensures v.Obj? ==> (r <==> key in v.fields)
    ensures v.Arr? ==> (r <==> Str(key) in v.items)
    ensures v.Str? ==> (r <==> exists i :: SpelledAt(key, v.s, i))
  {
    match v
    case Obj(fields) => key in fields
    case Arr(items) => Str(key) in items
    case Str(s) => OccursIsSubstring(key, s); Occurs(key, s)
  }
}
