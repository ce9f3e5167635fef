/**
 * The scalar values a parsed JSON configuration document holds, together with
 * the two Python operations the demo applies to them: truthiness (`if not v`)
 * and `str(v)` (what `"{0}".format(v)` inserts).
 */
module Json {

  /** A JSON scalar as Python sees it after `json.load`. */
  datatype Value = Null | Bool(b: bool) | Num(n: int) | Str(s: string)

  /** Python truthiness: None, False, 0 and "" are falsy, everything else truthy. */
  predicate Truthy(v: Value) {
    match v
    case Null => false
    case Bool(b) => b
    case Num(n) => n != 0
    case Str(s) => s != ""
  }

  /** The decimal digit for `d`. */
  function DigitChar(d: nat): (c: char)
    requires d < 10
    ensures '0' <= c <= '9'
    ensures c as int - '0' as int == d
  {
    ('0' as int + d) as char
  }

  /** Python's `str(n)` for a natural number: its decimal digits, most significant first. */
  function Natural(n: nat): (r: string)
    ensures |r| >= 1
    ensures forall i :: 0 <= i < |r| ==> '0' <= r[i] <= '9'
    ensures n >= 10 ==> r[0] != '0'
    decreases n
  {
    if n < 10 then [DigitChar(n)] else Natural(n / 10) + [DigitChar(n % 10)]
  }

  /** The number a string of decimal digits denotes (the inverse of Natural). */
  function DigitsValue(r: string): int
  {
    if r == [] then 0 else DigitsValue(r[..|r| - 1]) * 10 + (r[|r| - 1] as int - '0' as int)
  }

  lemma {:induction false} NaturalRoundTrip(n: nat)
    ensures DigitsValue(Natural(n)) == n
  {
    if n >= 10 {
      NaturalRoundTrip(n / 10);
      var r := Natural(n);
      assert r[..|r| - 1] == Natural(n / 10);
    }
  }

  /** Python's `str(n)` for any integer. */
  function Decimal(n: int): string
  {
    if n < 0 then "-" + Natural(-n) else Natural(n)
  }

  /** Python's `str(v)`. */
  function Render(v: Value): string
  {
    match v
    case Null => "None"
    case Bool(b) => if b then "True" else "False"
    case Num(n) => Decimal(n)
    case Str(s) => s
  }
}
