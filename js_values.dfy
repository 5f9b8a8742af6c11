/** JavaScript values as the components see them, and the string
    conversions the components rely on: truthiness, `String(v)` and
    `String.prototype.padStart`. */
module JsValues {

  datatype Option<+T> = None | Some(value: T)

  /** A scalar field of a JSON object or of a component's state:
      absent (`undefined`), `null`, an integral number, or a string. */
  datatype Scalar = Undefined | Null | Num(n: int) | Text(s: string)

  /** JavaScript truthiness: `!v` is false exactly for these values. */
  predicate Truthy(v: Scalar)
  {
    match v
    case Undefined => false
    case Null => false
    case Num(n) => n != 0
    case Text(s) => s != ""
  }

  predicate IsDigit(c: char)
  {
    '0' <= c <= '9'
  }

  predicate IsDigits(s: string)
  {
    forall i :: 0 <= i < |s| ==> IsDigit(s[i])
  }

  function DigitChar(d: nat): (c: char)
    requires d < 10
    ensures IsDigit(c)
    ensures (c == '0') == (d == 0)
  {
    ('0' as int + d) as char
  }

  function DigitValue(c: char): (d: nat)
    requires IsDigit(c)
    ensures d < 10
  {
    c as int - '0' as int
  }

  /** Decimal rendering of a natural number, most significant digit first,
      as `String(n)` produces it. */
  function NatToString(n: nat): (s: string)
    ensures s != [] && IsDigits(s)
    ensures |s| == 1 <==> n < 10
    ensures s[0] == '0' ==> n == 0
    decreases n
  {
    if n < 10 then [DigitChar(n)] else NatToString(n / 10) + [DigitChar(n % 10)]
  }

  /** Reads a digit string back as a number (Horner's rule). */
  function ParseNat(s: string): nat
    requires IsDigits(s)
    decreases |s|
  {
    if s == [] then 0 else 10 * ParseNat(s[..|s| - 1]) + DigitValue(s[|s| - 1])
  }

  /** `String(n)` for an integral number: a minus sign, then the digits. */
  function IntToString(n: int): string
  {
    if n < 0 then "-" + NatToString(-n) else NatToString(n)
  }

  /** `String(v)`, which is also what a template literal `${v}` inserts. */
  function JsString(v: Scalar): string
  {
    match v
    case Undefined => "undefined"
    case Null => "null"
    case Num(n) => IntToString(n)
    case Text(s) => s
  }

  /** `s.padStart(width, fill)` for a one-character fill string: the
      result keeps `s` at its end and fills the front up to `width`. */
  function PadStart(s: string, width: nat, fill: char): (r: string)
    ensures |r| == if |s| < width then width else |s|
    ensures r[|r| - |s|..] == s
    ensures forall i :: 0 <= i < |r| - |s| ==> r[i] == fill
  {
    if |s| >= width then s else seq(width - |s|, _ => fill) + s
  }

  /** ParseNat undoes NatToString. */
  lemma {:induction false} ParseNatToString(n: nat)
    ensures ParseNat(NatToString(n)) == n
  {
    if n >= 10 {
      var s := NatToString(n);
      assert s[..|s| - 1] == NatToString(n / 10);
      ParseNatToString(n / 10);
    } else {
      assert NatToString(n)[..0] == [];
    }
  }

  lemma {:induction false} ParseNatZeros(z: string)
    requires forall i :: 0 <= i < |z| ==> z[i] == '0'
    ensures IsDigits(z) && ParseNat(z) == 0
  {
    if z != [] {
      ParseNatZeros(z[..|z| - 1]);
    }
  }

  /** Leading zeros do not change the value a digit string denotes. */
  lemma {:induction false} ParseNatLeadingZeros(z: string, s: string)
    requires forall i :: 0 <= i < |z| ==> z[i] == '0'
    requires IsDigits(s)
    ensures IsDigits(z + s) && ParseNat(z + s) == ParseNat(s)
    decreases |s|
  {
    ParseNatZeros(z);
    if s == [] {
      assert z + s == z;
    } else {
      var t := s[..|s| - 1];
      assert (z + s)[..|z + s| - 1] == z + t;
      ParseNatLeadingZeros(z, t);
    }
  }

  /** A natural number below 100, zero-padded to two characters, is two
      digits that read back as that number. */
  lemma Pad2RoundTrip(n: nat)
    requires n < 100
    ensures var s := PadStart(NatToString(n), 2, '0');
            |s| == 2 && IsDigits(s) && ParseNat(s) == n
  {
    var d := NatToString(n);
    var s := PadStart(d, 2, '0');
    if n >= 10 {
      assert |NatToString(n / 10)| == 1;
    }
    assert |d| <= 2;
    var z := s[..|s| - |d|];
    assert s == z + d;
    ParseNatLeadingZeros(z, d);
    ParseNatToString(n);
  }
}
