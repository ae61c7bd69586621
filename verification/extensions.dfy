/** String helpers the interpreter relies on: the Java-style substring
    extension, suffix tests, and the decimal text of an integer as string
    interpolation renders it. */
module Extensions {

  /** `s.JavaStyleSubstring(beginIndex, endIndex)`: the characters from
      `beginIndex` up to but excluding `endIndex`. The underlying
      `Substring(beginIndex, endIndex - beginIndex)` throws unless the
      indices lie inside the string in order, so callers must ensure that. */
  function JavaStyleSubstring(s: string, beginIndex: int, endIndex: int): (r: string)
    requires 0 <= beginIndex <= endIndex <= |s|
    ensures |r| == endIndex - beginIndex
    ensures forall k :: 0 <= k < |r| ==> r[k] == s[beginIndex + k]
  {
    s[beginIndex..endIndex]
  }

  /** Equal indices give the empty string, wherever they point. */
  lemma SubstringEmpty(s: string, i: int)
    requires 0 <= i <= |s|
    ensures JavaStyleSubstring(s, i, i) == ""
  {
  }

  /** Substrings compose: cutting [b, m) and [m, e) and joining them gives [b, e). */
  lemma SubstringConcat(s: string, b: int, m: int, e: int)
    requires 0 <= b <= m <= e <= |s|
    ensures JavaStyleSubstring(s, b, m) + JavaStyleSubstring(s, m, e) == JavaStyleSubstring(s, b, e)
  {
    var left := JavaStyleSubstring(s, b, m);
    var right := JavaStyleSubstring(s, m, e);
    var whole := JavaStyleSubstring(s, b, e);
    assert |left + right| == |whole|;
    forall k | 0 <= k < |whole|
      ensures (left + right)[k] == whole[k]
    {
      if k < |left| {
        assert (left + right)[k] == left[k] == s[b + k];
      } else {
        assert (left + right)[k] == right[k - |left|] == s[m + (k - |left|)];
      }
    }
  }

  /** `text.EndsWith(suffix)` (ordinal comparison). */
  predicate EndsWith(text: string, suffix: string)
  {
    |suffix| <= |text| && text[|text| - |suffix|..] == suffix
  }

  predicate IsAsciiDigit(c: char)
  {
    '0' <= c <= '9'
  }

  function DigitChar(d: nat): (c: char)
    requires d < 10
    ensures IsAsciiDigit(c)
    ensures (c as int) - ('0' as int) == d
  {
    (('0' as int) + d) as char
  }

  /** The decimal text of a non-negative integer, as `$"{n}"` renders it. */
  function NatToString(n: nat): (r: string)
    ensures |r| > 0
    ensures forall k :: 0 <= k < |r| ==> IsAsciiDigit(r[k])
    decreases n
  {
    if n < 10 then [DigitChar(n)] else NatToString(n / 10) + [DigitChar(n % 10)]
  }

  /** The value a string of decimal digits denotes. */
  function DecimalValue(s: string): nat
    requires forall k :: 0 <= k < |s| ==> IsAsciiDigit(s[k])
  {
    if |s| == 0 then 0
    else
      assert IsAsciiDigit(s[|s| - 1]);
      DecimalValue(s[..|s| - 1]) * 10 + ((s[|s| - 1] as int) - ('0' as int))
  }

  /** The decimal text reads back as the number it was made from. */
  lemma {:induction false} NatToStringRoundTrip(n: nat)
    ensures DecimalValue(NatToString(n)) == n
    decreases n
  {
    var r := NatToString(n);
    if n < 10 {
      assert r[..|r| - 1] == "";
    } else {
      NatToStringRoundTrip(n / 10);
      assert r[..|r| - 1] == NatToString(n / 10);
    }
  }
}
