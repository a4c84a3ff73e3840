/** Byte strings as Go stores them, the substring search behind `strings.Index`,
    and the decimal rendering behind `fmt.Sprintf("%d", n)`. */
module Bytes {

  /** A Go string is a sequence of bytes. A byte is modelled as a character below 256,
      so that an ASCII literal such as "id=" is already a byte string. */
  type Byte = c: char | c as int < 256

  /** A byte string: what Go's `string` and `[]byte` hold. */
  type Line = seq<Byte>

  // ---------------------------------------------------------------------------
  // Substring search
  // ---------------------------------------------------------------------------

  /** `pat` occurs in `s` starting at byte position `i`. */
  predicate OccursAt(s: Line, pat: Line, i: int)
  {
    0 <= i && i + |pat| <= |s| && s[i..i + |pat|] == pat
  }

  /** `i` is the first position at which `pat` occurs in `s`. */
  predicate FirstAt(s: Line, pat: Line, i: int)
  {
    OccursAt(s, pat, i) && forall j :: 0 <= j < i ==> !OccursAt(s, pat, j)
  }

  /** The first position at or after `i` where `pat` occurs in `s`, or -1. */
  function IndexFrom(s: Line, pat: Line, i: nat): (r: int)
    decreases |s| - i
    ensures r == -1 || (i <= r && OccursAt(s, pat, r))
    ensures forall j :: i <= j && (r == -1 || j < r) ==> !OccursAt(s, pat, j)
  {
    if i + |pat| > |s| then -1
    else if s[i..i + |pat|] == pat then i
    else IndexFrom(s, pat, i + 1)
  }

  /** `strings.Index(s, pat)`: the byte position of the first occurrence of `pat`
      in `s`, or -1 when there is none. */
  function IndexOf(s: Line, pat: Line): (r: int)
    ensures r >= 0 ==> FirstAt(s, pat, r)
    ensures r == -1 <==> forall j :: !OccursAt(s, pat, j)
    ensures r >= -1
  {
    IndexFrom(s, pat, 0)
  }

  /** Whenever `pat` occurs in `s` at all, it has a first occurrence, and it is the only one. */
  lemma FirstOccurrence(s: Line, pat: Line, i: int)
    requires OccursAt(s, pat, i)
    ensures IndexOf(s, pat) >= 0 && FirstAt(s, pat, IndexOf(s, pat))
    ensures forall k :: FirstAt(s, pat, k) ==> k == IndexOf(s, pat)
  {
  }

  // ---------------------------------------------------------------------------
  // Decimal rendering of natural numbers
  // ---------------------------------------------------------------------------

  predicate IsDigit(b: Byte)
  {
    '0' <= b <= '9'
  }

  function Digit(d: nat): (b: Byte)
    requires d < 10
  {
    (48 + d) as char
  }

  function DigitValue(b: Byte): nat
    requires IsDigit(b)
  {
    b as int - 48
  }

  /** `fmt.Sprintf("%d", n)` for a natural number: its decimal digits without leading zeros. */
  function Decimal(n: nat): (s: Line)
    ensures |s| >= 1
    ensures forall i :: 0 <= i < |s| ==> IsDigit(s[i])
    ensures s[0] == '0' ==> n == 0
  {
    if n < 10 then [Digit(n)] else Decimal(n / 10) + [Digit(n % 10)]
  }

  /** The value of a string of decimal digits (the inverse of Decimal). */
  function ParseDecimal(s: Line): nat
    requires forall i :: 0 <= i < |s| ==> IsDigit(s[i])
  {
    if s == [] then 0 else 10 * ParseDecimal(s[..|s| - 1]) + DigitValue(s[|s| - 1])
  }

  /** Reading back the decimal rendering of `n` gives `n`. */
  lemma {:induction false} ParseDecimalOfDecimal(n: nat)
    ensures ParseDecimal(Decimal(n)) == n
  {
    if n >= 10 {
      var s := Decimal(n);
      assert s[..|s| - 1] == Decimal(n / 10);
      ParseDecimalOfDecimal(n / 10);
    }
  }

  /** Different numbers have different decimal renderings. */
  lemma DecimalInjective(m: nat, n: nat)
    ensures Decimal(m) == Decimal(n) <==> m == n
  {
    ParseDecimalOfDecimal(m);
    ParseDecimalOfDecimal(n);
  }
}
