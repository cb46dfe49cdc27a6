/** Character and string helpers with the semantics of the Rust and Python
    standard-library calls the bindings use: `to_ascii_lowercase`,
    `char::is_alphanumeric` restricted to ASCII, `str::trim` (Unicode
    White_Space), decimal formatting of integers, and splitting on a
    separator. */
module Text {

  predicate IsAsciiUpper(c: char) {
    'A' <= c <= 'Z'
  }

  predicate IsAsciiDigit(c: char) {
    '0' <= c <= '9'
  }

  predicate IsAsciiAlphanumeric(c: char) {
    IsAsciiDigit(c) || 'a' <= c <= 'z' || IsAsciiUpper(c)
  }

  /** `char::to_ascii_lowercase`: only `A`..`Z` change. */
  function LowerChar(c: char): (r: char)
    ensures !IsAsciiUpper(r)
    ensures !IsAsciiUpper(c) ==> r == c
    ensures IsAsciiUpper(c) ==> r as int == c as int + 32
  {
    if IsAsciiUpper(c) then (c as int + 32) as char else c
  }

  /** `str::to_ascii_lowercase`. */
  function ToAsciiLower(s: string): (r: string)
    ensures |r| == |s|
    ensures forall i :: 0 <= i < |s| ==> r[i] == LowerChar(s[i])
  {
    seq(|s|, i requires 0 <= i < |s| => LowerChar(s[i]))
  }

  /** Lowering twice is lowering once. */
  lemma ToAsciiLowerIdempotent(s: string)
    ensures ToAsciiLower(ToAsciiLower(s)) == ToAsciiLower(s)
  {
  }

  /** `char::is_whitespace`: the Unicode White_Space property. */
  predicate IsWhitespace(c: char) {
    ('\U{9}' <= c <= '\U{D}') || c == '\U{20}' || c == '\U{85}' || c == '\U{A0}'
    || c == '\U{1680}' || ('\U{2000}' <= c <= '\U{200A}') || c == '\U{2028}'
    || c == '\U{2029}' || c == '\U{202F}' || c == '\U{205F}' || c == '\U{3000}'
  }

  predicate AllWhitespace(s: string) {
    forall i :: 0 <= i < |s| ==> IsWhitespace(s[i])
  }

  /** Number of leading whitespace characters. */
  function LeadingWhitespace(s: string): (n: nat)
    ensures n <= |s|
    ensures AllWhitespace(s[..n])
    ensures n < |s| ==> !IsWhitespace(s[n])
  {
    if |s| == 0 || !IsWhitespace(s[0]) then 0
    else
      var n := 1 + LeadingWhitespace(s[1..]);
      assert s[..n] == [s[0]] + s[1..][..n - 1];
      n
  }

  /** Number of trailing whitespace characters. */
  function TrailingWhitespace(s: string): (n: nat)
    ensures n <= |s|
    ensures AllWhitespace(s[|s| - n..])
    ensures n < |s| ==> !IsWhitespace(s[|s| - n - 1])
  {
    if |s| == 0 || !IsWhitespace(s[|s| - 1]) then 0
    else
      var init := s[..|s| - 1];
      var m := TrailingWhitespace(init);
      var tail := s[|s| - m - 1..];
      var initTail := init[|init| - m..];
      assert AllWhitespace(tail) by {
        forall j | 0 <= j < |tail|
          ensures IsWhitespace(tail[j])
        {
          if j < m {
            assert tail[j] == initTail[j];
          }
        }
      }
      assert m < |init| ==> s[|s| - m - 2] == init[|init| - m - 1];
      m + 1
  }

  /** `str::trim`: the longest slice that neither starts nor ends with
      whitespace; everything cut off is whitespace. */
  function Trim(s: string): (r: string)
    ensures exists lo, hi :: (0 <= lo <= hi <= |s| && r == s[lo..hi]
                              && AllWhitespace(s[..lo]) && AllWhitespace(s[hi..]))
    ensures |r| > 0 ==> !IsWhitespace(r[0]) && !IsWhitespace(r[|r| - 1])
    ensures |r| == 0 <==> AllWhitespace(s)
  {
    var lo := LeadingWhitespace(s);
    if lo == |s| then
      assert s == s[..lo];
      s[lo..lo]
    else
      var hi := |s| - TrailingWhitespace(s);
      assert lo < hi;
      var r := s[lo..hi];
      assert r[0] == s[lo];
      assert !AllWhitespace(s) by { assert !IsWhitespace(s[lo]); }
      r
  }

  /** A string is blank exactly when `trim` leaves nothing. */
  lemma TrimEmptyIffBlank(s: string)
    ensures Trim(s) == [] <==> AllWhitespace(s)
  {
  }

  /** Lowering the case never turns a character into whitespace or back. */
  lemma LowerKeepsWhitespace(c: char)
    ensures IsWhitespace(LowerChar(c)) == IsWhitespace(c)
  {
  }

  lemma {:induction false} LeadingWhitespaceLower(s: string)
    ensures LeadingWhitespace(ToAsciiLower(s)) == LeadingWhitespace(s)
  {
    if |s| > 0 {
      var t := ToAsciiLower(s);
      assert t[0] == LowerChar(s[0]);
      LowerKeepsWhitespace(s[0]);
      LowerSlice(s, 1, |s|);
      assert t[1..] == ToAsciiLower(s[1..]);
      if IsWhitespace(s[0]) {
        LeadingWhitespaceLower(s[1..]);
      }
    }
  }

  lemma {:induction false} TrailingWhitespaceLower(s: string)
    ensures TrailingWhitespace(ToAsciiLower(s)) == TrailingWhitespace(s)
  {
    if |s| > 0 {
      var t := ToAsciiLower(s);
      var init := s[..|s| - 1];
      var last := s[|s| - 1];
      assert t[|t| - 1] == LowerChar(last);
      LowerKeepsWhitespace(last);
      LowerSlice(s, 0, |s| - 1);
      assert t[..|t| - 1] == ToAsciiLower(init);
      if IsWhitespace(last) {
        TrailingWhitespaceLower(init);
      }
    }
  }

  /** Lowering the case of a slice is slicing the lowered string. */
  lemma LowerSlice(s: string, lo: nat, hi: nat)
    requires lo <= hi <= |s|
    ensures ToAsciiLower(s)[lo..hi] == ToAsciiLower(s[lo..hi])
  {
  }

  /** Trimming and lowering the case commute. */
  lemma TrimLower(s: string)
    ensures Trim(ToAsciiLower(s)) == ToAsciiLower(Trim(s))
  {
    LeadingWhitespaceLower(s);
    TrailingWhitespaceLower(s);
    var lo := LeadingWhitespace(s);
    if lo < |s| {
      LowerSlice(s, lo, |s| - TrailingWhitespace(s));
    } else {
      LowerSlice(s, lo, lo);
    }
  }

  lemma {:induction false} LeadingWhitespacePadded(pad: string, s: string)
    requires AllWhitespace(pad)
    requires |s| > 0 && !IsWhitespace(s[0])
    ensures LeadingWhitespace(pad + s) == |pad|
  {
    if |pad| > 0 {
      assert (pad + s)[1..] == pad[1..] + s;
      LeadingWhitespacePadded(pad[1..], s);
    } else {
      assert pad + s == s;
    }
  }

  lemma {:induction false} TrailingWhitespacePadded(s: string, pad: string)
    requires AllWhitespace(pad)
    requires |s| > 0 && !IsWhitespace(s[|s| - 1])
    ensures TrailingWhitespace(s + pad) == |pad|
  {
    if |pad| > 0 {
      assert (s + pad)[..|s + pad| - 1] == s + pad[..|pad| - 1];
      TrailingWhitespacePadded(s, pad[..|pad| - 1]);
    } else {
      assert s + pad == s;
    }
  }

  /** `trim` removes exactly the whitespace padding around a string that
      neither starts nor ends with whitespace. */
  lemma TrimPadded(before: string, s: string, after: string)
    requires AllWhitespace(before) && AllWhitespace(after)
    requires |s| > 0 ==> !IsWhitespace(s[0]) && !IsWhitespace(s[|s| - 1])
    ensures Trim(before + s + after) == s
  {
    var t := before + s + after;
    if |s| == 0 {
      assert forall i :: 0 <= i < |t| ==> IsWhitespace(t[i]) by {
        assert t == before + after;
      }
    } else {
      assert t == before + (s + after);
      LeadingWhitespacePadded(before, s + after);
      TrailingWhitespacePadded(before + s, after);
      assert t[|before|..|t| - |after|] == s;
    }
  }

  function DigitChar(d: nat): (c: char)
    requires d < 10
    ensures IsAsciiDigit(c)
  {
    ('0' as int + d) as char
  }

  function DigitValue(c: char): nat
    requires IsAsciiDigit(c)
  {
    c as int - '0' as int
  }

  /** Decimal formatting of a natural number, as `format!("{}")` and
      Python's `str()` print it. */
  function NatToString(n: nat): (r: string)
    ensures |r| > 0
    ensures forall i :: 0 <= i < |r| ==> IsAsciiDigit(r[i])
    decreases n
  {
    if n < 10 then [DigitChar(n)] else NatToString(n / 10) + [DigitChar(n % 10)]
  }

  /** Value of a non-empty string of decimal digits. */
  function DigitsValue(s: string): nat
    requires forall i :: 0 <= i < |s| ==> IsAsciiDigit(s[i])
  {
    if |s| == 0 then 0 else 10 * DigitsValue(s[..|s| - 1]) + DigitValue(s[|s| - 1])
  }

  /** Reading back the digits of `NatToString(n)` gives `n`. */
  lemma {:induction false} NatToStringRoundTrip(n: nat)
    ensures DigitsValue(NatToString(n)) == n
    decreases n
  {
    if n >= 10 {
      var s := NatToString(n);
      assert s[..|s| - 1] == NatToString(n / 10);
      NatToStringRoundTrip(n / 10);
    }
  }

  /** `NatToString` never repeats a rendering: distinct numbers print differently. */
  lemma NatToStringInjective(m: nat, n: nat)
    requires NatToString(m) == NatToString(n)
    ensures m == n
  {
    NatToStringRoundTrip(m);
    NatToStringRoundTrip(n);
  }

  /** Decimal formatting of an integer: a minus sign before the magnitude. */
  function IntToString(i: int): (r: string)
    ensures i >= 0 ==> r == NatToString(i)
    ensures i < 0 ==> r == "-" + NatToString(-i)
  {
    if i < 0 then "-" + NatToString(-i) else NatToString(i)
  }

  /** `sep.join(parts)`. */
  function Join(parts: seq<string>, sep: char): string
  {
    if |parts| == 0 then ""
    else if |parts| == 1 then parts[0]
    else parts[0] + [sep] + Join(parts[1..], sep)
  }

  /** `s.split(sep)`: the pieces between separators (always at least one). */
  function Split(s: string, sep: char): (r: seq<string>)
    ensures |r| >= 1
    ensures forall i :: 0 <= i < |r| ==> sep !in r[i]
    decreases |s|
  {
    if sep !in s then [s]
    else
      var k := IndexOf(s, sep);
      [s[..k]] + Split(s[k + 1..], sep)
  }

  function IndexOf(s: string, c: char): (k: nat)
    requires c in s
    ensures k < |s| && s[k] == c && c !in s[..k]
  {
    if s[0] == c then 0
    else
      var k := 1 + IndexOf(s[1..], c);
      assert s[..k] == [s[0]] + s[1..][..k - 1];
      k
  }

  /** Splitting a joined string recovers the parts when none of them contains
      the separator. */
  lemma {:induction false} SplitJoin(parts: seq<string>, sep: char)
    requires |parts| >= 1
    requires forall i :: 0 <= i < |parts| ==> sep !in parts[i]
    ensures Split(Join(parts, sep), sep) == parts
    decreases |parts|
  {
    if |parts| > 1 {
      var p := parts[0];
      var rest := Join(parts[1..], sep);
      assert Join(parts, sep) == p + [sep] + rest;
      SplitFirstPiece(p, rest, sep);
      SplitJoin(parts[1..], sep);
      assert parts == [p] + parts[1..];
    }
  }

  /** A first piece without the separator splits off whole. */
  lemma SplitFirstPiece(p: string, rest: string, sep: char)
    requires sep !in p
    ensures Split(p + [sep] + rest, sep) == [p] + Split(rest, sep)
  {
    var s := p + [sep] + rest;
    assert s[|p|] == sep;
    IndexOfAfterPrefix(p, [sep] + rest, sep);
    assert s == p + ([sep] + rest);
    assert s[..|p|] == p;
    assert s[|p| + 1..] == rest;
  }

  lemma {:induction false} IndexOfAfterPrefix(p: string, t: string, c: char)
    requires c !in p && |t| > 0 && t[0] == c
    ensures IndexOf(p + t, c) == |p|
  {
    if |p| > 0 {
      assert (p + t)[0] == p[0];
      assert (p + t)[1..] == p[1..] + t;
      IndexOfAfterPrefix(p[1..], t, c);
    }
  }
}
