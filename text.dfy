/** Text operations the shop's comparisons rely on: Python's `str.lower()`,
    the substring test `needle in haystack`, and the rendering of an integer
    by an f-string. */
module Text {

  /** Lower-case one character as `str.lower()` does for the Basic Latin and
      Latin-1 Supplement upper-case letters (A-Z and U+00C0..U+00DE except
      the multiplication sign U+00D7, so "Ñ" becomes "ñ"); every other
      character is left as it is. */
  function LowerChar(c: char): (r: char)
    ensures IsUpper(c) ==> r as int == c as int + 32
    ensures !IsUpper(c) ==> r == c
    ensures !IsUpper(r)
  {
    if IsUpper(c) then (c as int + 32) as char else c
  }

  predicate IsUpper(c: char) {
    'A' <= c <= 'Z' || ('\U{C0}' <= c <= '\U{DE}' && c != '\U{D7}')
  }

  /** `s.lower()`, character by character. */
  function Lower(s: string): (r: string)
    ensures |r| == |s|
    ensures forall i :: 0 <= i < |s| ==> r[i] == LowerChar(s[i])
  {
    if s == [] then [] else [LowerChar(s[0])] + Lower(s[1..])
  }

  /** Python's `needle in haystack` on strings: some window of `haystack`
      starting at an offset is `needle`; the empty needle is in every string. */
  function Contains(needle: string, haystack: string): bool
    decreases |haystack|
  {
    if needle <= haystack then true
    else if haystack == [] then false
    else Contains(needle, haystack[1..])
  }

  lemma {:induction false} ContainsIff(needle: string, haystack: string)
    ensures Contains(needle, haystack) <==>
            exists i :: 0 <= i <= |haystack| && needle <= haystack[i..]
    decreases |haystack|
  {
    if needle <= haystack {
      assert haystack[0..] == haystack;
    } else if haystack == [] {
      forall i | 0 <= i <= |haystack| ensures !(needle <= haystack[i..]) {
        assert haystack[i..] == haystack;
      }
    } else {
      ContainsIff(needle, haystack[1..]);
      if Contains(needle, haystack[1..]) {
        var i :| 0 <= i <= |haystack[1..]| && needle <= haystack[1..][i..];
        assert haystack[1..][i..] == haystack[i + 1..];
      } else {
        forall i | 0 <= i <= |haystack| ensures !(needle <= haystack[i..]) {
          if i == 0 {
            assert haystack[0..] == haystack;
          } else {
            assert haystack[1..][i - 1..] == haystack[i..];
          }
        }
      }
    }
  }

  /** The decimal digits of `n`, as `f"{n}"` prints a non-negative int. */
  function Decimal(n: nat): (r: string)
    ensures |r| >= 1
    ensures forall i :: 0 <= i < |r| ==> '0' <= r[i] <= '9'
    decreases n
  {
    if n < 10 then [Digit(n)] else Decimal(n / 10) + [Digit(n % 10)]
  }

  function Digit(d: nat): (c: char)
    requires d < 10
    ensures '0' <= c <= '9'
  {
    ('0' as int + d) as char
  }

  /** The value a string of decimal digits denotes. */
  function DigitsValue(s: string): nat
    requires forall i :: 0 <= i < |s| ==> '0' <= s[i] <= '9'
  {
    if s == [] then 0 else DigitsValue(s[..|s| - 1]) * 10 + (s[|s| - 1] as int - '0' as int)
  }

  /** `f"{n}"` can be read back: the digits denote `n`. */
  lemma {:induction false} DecimalRoundTrip(n: nat)
    ensures DigitsValue(Decimal(n)) == n
    decreases n
  {
    if n >= 10 {
      DecimalRoundTrip(n / 10);
      var r := Decimal(n);
      assert r[..|r| - 1] == Decimal(n / 10);
    }
  }

  /** `f"{i}"` for any int: a minus sign before the digits of a negative. */
  function IntString(i: int): string {
    if i < 0 then "-" + Decimal(-i) else Decimal(i)
  }
}
