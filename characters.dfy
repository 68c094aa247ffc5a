/** Character classes used by the CNPJ patterns: the regex class `\d` (ASCII
    digits only, as in Java's default regex mode) and the digit filter that
    `replaceAll("[^0-9]", "")` performs. */
module Characters {

  predicate IsAsciiDigit(c: char) {
    '0' <= c <= '9'
  }

  predicate AllDigits(s: string) {
    forall i :: 0 <= i < |s| ==> IsAsciiDigit(s[i])
  }

  /** Numeric value of an ASCII digit (Java's `c - '0'`). */
  function DigitValue(c: char): (d: int)
    requires IsAsciiDigit(c)
    ensures 0 <= d <= 9
    ensures c == ('0' as int + d) as char
  {
    c as int - '0' as int
  }

  /** The numeric values of a string of ASCII digits, position by position. */
  function DigitValues(s: string): (ds: seq<int>)
    requires AllDigits(s)
    ensures |ds| == |s|
    ensures forall i :: 0 <= i < |s| ==> 0 <= ds[i] <= 9 && ds[i] == DigitValue(s[i])
  {
    seq(|s|, i requires 0 <= i < |s| => DigitValue(s[i]))
  }

  /** `s.replaceAll("[^0-9]", "")`: keeps the ASCII digits of `s`, in order. */
  function StripNonDigits(s: string): (r: string)
    ensures AllDigits(r)
    ensures |r| <= |s|
  {
    if s == [] then []
    else (if IsAsciiDigit(s[0]) then [s[0]] else []) + StripNonDigits(s[1..])
  }

  /** Stripping distributes over concatenation. */
  lemma {:induction false} StripConcat(a: string, b: string)
    ensures StripNonDigits(a + b) == StripNonDigits(a) + StripNonDigits(b)
  {
    if a == [] {
      assert a + b == b;
    } else {
      assert (a + b)[0] == a[0];
      assert (a + b)[1..] == a[1..] + b;
      StripConcat(a[1..], b);
    }
  }

  /** A string of digits only is left as it is. */
  lemma {:induction false} StripAllDigits(s: string)
    requires AllDigits(s)
    ensures StripNonDigits(s) == s
  {
    if s != [] {
      assert AllDigits(s[1..]) by {
        forall i | 0 <= i < |s[1..]| ensures IsAsciiDigit(s[1..][i]) {
          assert s[1..][i] == s[i + 1];
        }
      }
      StripAllDigits(s[1..]);
      assert [s[0]] + s[1..] == s;
    }
  }

  /** A single non-digit character is removed. */
  lemma StripNonDigitChar(c: char)
    requires !IsAsciiDigit(c)
    ensures StripNonDigits([c]) == []
  {
    assert [c][1..] == [];
  }

  /** Stripping keeps every digit of the input and nothing else. */
  lemma {:induction false} StripKeepsExactlyDigits(s: string, c: char)
    ensures c in StripNonDigits(s) <==> c in s && IsAsciiDigit(c)
  {
    if s != [] {
      StripKeepsExactlyDigits(s[1..], c);
      assert c in s <==> c == s[0] || c in s[1..];
    }
  }
}
