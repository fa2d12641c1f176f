/**
 * The JavaScript values the logger inspects: option values, the global
 * threshold and palette entries. Only the two operations the logger applies
 * to them are modelled: truthiness (`if (x)`, `x ? a : b`, `x || d`) and
 * conversion to text by string concatenation (`'' + x`).
 */
module Values {

  /** Numbers are the palette's small non-negative integers; other numbers are not modelled. */
  datatype Value = Null | Bool(b: bool) | Num(n: nat) | Str(s: string)

  /** JavaScript truthiness of a value. */
  predicate Truthy(v: Value) {
    match v
    case Null => false
    case Bool(b) => b
    case Num(n) => n != 0
    case Str(s) => s != ""
  }

  /** The character of a decimal digit. */
  function DigitChar(d: nat): (c: char)
    requires d < 10
    ensures '0' <= c <= '9' && c as int - '0' as int == d
  {
    (('0' as int) + d) as char
  }

  /** The decimal numeral of `n`, as `'' + n` renders a non-negative integer. */
  function Digits(n: nat): (r: string)
    ensures |r| >= 1
    ensures forall i :: 0 <= i < |r| ==> '0' <= r[i] <= '9'
    ensures n < 10 <==> |r| == 1
  {
    if n < 10 then [DigitChar(n)] else Digits(n / 10) + [DigitChar(n % 10)]
  }

  /** Reads a decimal numeral back: the inverse of `Digits`. */
  function NumeralValue(s: string): (n: nat)
    requires forall i :: 0 <= i < |s| ==> '0' <= s[i] <= '9'
  {
    if s == [] then 0
    else NumeralValue(s[..|s| - 1]) * 10 + (s[|s| - 1] as int - '0' as int)
  }

  /** The numeral `Digits` produces denotes the number it was made from. */
  lemma {:induction false} DigitsRoundTrip(n: nat)
    ensures NumeralValue(Digits(n)) == n
  {
    var r := Digits(n);
    if n >= 10 {
      DigitsRoundTrip(n / 10);
      assert r[..|r| - 1] == Digits(n / 10);
    }
  }

  /** The text of a value under string concatenation. */
  function ToText(v: Value): (t: string)
    ensures v.Num? ==> forall i :: 0 <= i < |t| ==> '0' <= t[i] <= '9'
    ensures v.Str? ==> t == v.s
  {
    match v
    case Null => "null"
    case Bool(b) => if b then "true" else "false"
    case Num(n) => Digits(n)
    case Str(s) => s
  }
}
