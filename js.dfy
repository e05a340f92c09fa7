/**
 * The few pieces of JavaScript value semantics the page script relies on:
 * an absent value (`null` or `undefined`), the truthiness that `||` tests,
 * the nullishness that `??` tests, and the conversion of a number to the
 * text that string concatenation produces.
 */
module Js {

  /** A value that may be absent: `None` stands for both `null` and `undefined`. */
  datatype Option<+T> = None | Some(value: T)

  /** A scalar field of a JSON response: a number or a string. */
  datatype Scalar = Num(n: int) | Str(s: string)

  /** Truthiness of a possibly absent string: absent and "" are falsy. */
  predicate Truthy(v: Option<string>)
  {
    v.Some? && v.value != ""
  }

  /** JavaScript `a || b` on possibly absent strings. */
  function Or(a: Option<string>, b: Option<string>): Option<string>
  {
    if Truthy(a) then a else b
  }

  /** JavaScript `a ?? b`: only an absent value falls back. */
  function Nullish<T>(a: Option<T>, b: T): T
  {
    match a
    case Some(v) => v
    case None => b
  }

  function Digit(d: nat): (c: char)
    requires d < 10
    ensures '0' <= c <= '9'
  {
    "0123456789"[d]
  }

  function DigitValue(c: char): (d: nat)
    requires '0' <= c <= '9'
    ensures d < 10 && Digit(d) == c
  {
    (c as int - '0' as int) as nat
  }

  predicate IsDigits(s: string)
  {
    forall i :: 0 <= i < |s| ==> '0' <= s[i] <= '9'
  }

  /** The decimal notation of a natural number, most significant digit first. */
  function DecimalString(n: nat): (s: string)
    ensures s != [] && IsDigits(s)
    ensures s[0] == '0' ==> n == 0 && s == "0"
    decreases n
  {
    if n < 10 then [Digit(n)] else DecimalString(n / 10) + [Digit(n % 10)]
  }

  /** The number a string of decimal digits denotes (the empty string denotes 0). */
  function DecimalValue(s: string): nat
    requires IsDigits(s)
  {
    if s == [] then 0 else 10 * DecimalValue(s[..|s| - 1]) + DigitValue(s[|s| - 1])
  }

  /** Reading back the decimal notation of `n` gives `n`. */
  lemma {:induction false} DecimalRoundTrip(n: nat)
    ensures DecimalValue(DecimalString(n)) == n
  {
    if n >= 10 {
      var s := DecimalString(n);
      assert s[..|s| - 1] == DecimalString(n / 10);
      DecimalRoundTrip(n / 10);
    }
  }

  /** `String(v)` for an integral number `v`, as `"" + v` produces it. */
  function NumberToString(n: int): (s: string)
    ensures s != []
    ensures n >= 0 ==> IsDigits(s) && DecimalValue(s) == n && (s[0] == '0' ==> s == "0")
    ensures n < 0 ==> |s| > 1 && s[0] == '-' && s[1] != '0' && IsDigits(s[1..]) && DecimalValue(s[1..]) == -n
  {
    DecimalRoundTrip(if n >= 0 then n else -n);
    if n >= 0 then DecimalString(n) else "-" + DecimalString(-n)
  }

  /** The text a scalar turns into when concatenated to a string. */
  function ScalarText(v: Scalar): string
  {
    match v
    case Num(n) => NumberToString(n)
    case Str(s) => s
  }
}
