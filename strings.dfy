/** The few Python string operations the request handler relies on:
    `str.strip()`, `str.endswith`, the `in` test and `split(sep)[0]`
    for a fixed separator, and `str(int)` with its inverse `int(str)`. */
module Strings {

  datatype Option<+T> = None | Some(value: T) {
    /** `dict.get(key, default)`: the value when present, the default otherwise. */
    function GetOr(default: T): T {
      match this
      case Some(v) => v
      case None => default
    }
  }

  /** The characters Python's `str.isspace()` accepts, which are exactly the
      characters a bare `str.strip()` removes. */
  predicate IsSpace(c: char) {
    ('\t' <= c <= '\r') || ('\U{1C}' <= c <= '\U{1F}') || c == ' '
    || c == '\U{85}' || c == '\U{A0}' || c == '\U{1680}'
    || ('\U{2000}' <= c <= '\U{200A}') || c == '\U{2028}' || c == '\U{2029}'
    || c == '\U{202F}' || c == '\U{205F}' || c == '\U{3000}'
  }

  /** Printable ASCII characters other than the space are not whitespace. */
  lemma PrintableNotSpace(c: char)
    requires '!' <= c <= '~'
    ensures !IsSpace(c)
  {
  }

  predicate AllSpace(s: string) {
    forall i :: 0 <= i < |s| ==> IsSpace(s[i])
  }

  /** No whitespace at either end: what `s.strip() == s` means. */
  predicate Trimmed(s: string) {
    s == [] || (!IsSpace(s[0]) && !IsSpace(s[|s| - 1]))
  }

  /** Number of whitespace characters at the start of `s`. */
  function LeadingSpaces(s: string): (n: nat)
    ensures n <= |s|
    ensures AllSpace(s[..n])
    ensures n == |s| || !IsSpace(s[n])
  {
    if s != [] && IsSpace(s[0]) then 1 + LeadingSpaces(s[1..]) else 0
  }

  /** Number of whitespace characters at the end of `s`. */
  function TrailingSpaces(s: string): (n: nat)
    ensures n <= |s|
    ensures AllSpace(s[|s| - n..])
    ensures n == |s| || !IsSpace(s[|s| - n - 1])
  {
    if s != [] && IsSpace(s[|s| - 1]) then 1 + TrailingSpaces(s[..|s| - 1]) else 0
  }

  /** Python's `s.strip()` with no argument: `s` is split into leading
      whitespace, the result, and trailing whitespace, and the result
      starts and ends with a non-whitespace character. */
  function Strip(s: string): (r: string)
    ensures Trimmed(r)
    ensures |r| <= |s|
    ensures var i := LeadingSpaces(s);
      i + |r| <= |s| && s[i..i + |r|] == r && AllSpace(s[..i]) && AllSpace(s[i + |r|..])
  {
    var i := LeadingSpaces(s);
    var t := s[i..];
    var j := TrailingSpaces(t);
    var r := t[..|t| - j];
    assert r == s[i..i + |r|];
    assert Trimmed(r) by {
      if r != [] {
        assert r[0] == s[i];
        assert r[|r| - 1] == t[|t| - j - 1];
      }
    }
    assert AllSpace(s[i + |r|..]) by {
      assert s[i + |r|..] == t[|t| - j..];
    }
    r
  }

  /** Stripping a string without surrounding whitespace changes nothing. */
  lemma StripTrimmed(s: string)
    requires Trimmed(s)
    ensures Strip(s) == s
  {
    if s != [] {
      assert LeadingSpaces(s) == 0;
      assert TrailingSpaces(s) == 0;
    }
  }

  lemma {:induction false} LeadingSpacesOf(pre: string, rest: string)
    requires AllSpace(pre)
    requires rest == [] || !IsSpace(rest[0])
    ensures LeadingSpaces(pre + rest) == |pre|
  {
    if pre != [] {
      assert (pre + rest)[0] == pre[0];
      assert (pre + rest)[1..] == pre[1..] + rest;
      LeadingSpacesOf(pre[1..], rest);
    } else {
      assert pre + rest == rest;
    }
  }

  lemma {:induction false} TrailingSpacesOf(rest: string, post: string)
    requires AllSpace(post)
    requires rest == [] || !IsSpace(rest[|rest| - 1])
    ensures TrailingSpaces(rest + post) == |post|
  {
    if post != [] {
      var s := rest + post;
      assert s[|s| - 1] == post[|post| - 1];
      assert s[..|s| - 1] == rest + post[..|post| - 1];
      TrailingSpacesOf(rest, post[..|post| - 1]);
    } else {
      assert rest + post == rest;
    }
  }

  /** `strip()` removes exactly the surrounding whitespace: whatever
      whitespace is wrapped around a trimmed string, stripping gives it back. */
  lemma StripAround(pre: string, mid: string, post: string)
    requires AllSpace(pre) && AllSpace(post) && Trimmed(mid)
    ensures Strip(pre + mid + post) == mid
  {
    var s := pre + mid + post;
    if mid == [] {
      assert s == (pre + post) + [];
      assert AllSpace(pre + post);
      LeadingSpacesOf(pre + post, []);
    } else {
      assert s == pre + (mid + post);
      LeadingSpacesOf(pre, mid + post);
      assert s[|pre|..] == mid + post;
      TrailingSpacesOf(mid, post);
      assert (mid + post)[..|mid|] == mid;
    }
  }

  /** A line break after a trimmed string is stripped away. */
  lemma StripLineBreak(s: string)
    requires Trimmed(s)
    ensures Strip(s + "\n") == s
  {
    var newline: string := "\n";
    assert AllSpace(newline) by {
      assert IsSpace(newline[0]);
    }
    assert s + newline == [] + s + newline;
    StripAround([], s, newline);
  }

  /** `strip()` is idempotent. */
  lemma StripIdempotent(s: string)
    ensures Strip(Strip(s)) == Strip(s)
  {
    StripTrimmed(Strip(s));
  }

  /** Python's `s.endswith(suffix)`. */
  predicate EndsWith(s: string, suffix: string) {
    |suffix| <= |s| && s[|s| - |suffix|..] == suffix
  }

  /** `pat` occurs in `s` starting at index `j`. */
  predicate OccursAt(s: string, pat: string, j: int) {
    0 <= j && j + |pat| <= |s| && s[j..j + |pat|] == pat
  }

  /** Python's `pat in s`. */
  predicate Contains(s: string, pat: string) {
    exists j :: 0 <= j <= |s| && OccursAt(s, pat, j)
  }

  /** Index of the first occurrence of `pat` in `s`, the point where
      `split(pat)` makes its first cut; `None` when there is none. */
  function FindFirst(s: string, pat: string): (r: Option<nat>)
    ensures r.Some? ==> OccursAt(s, pat, r.value)
    ensures r.Some? ==> forall j :: 0 <= j < r.value ==> !OccursAt(s, pat, j)
    ensures r.None? ==> forall j :: !OccursAt(s, pat, j)
    decreases |s|
  {
    if |s| < |pat| then None
    else if s[..|pat|] == pat then Some(0)
    else
      var rest := FindFirst(s[1..], pat);
      assert forall j :: 1 <= j ==> (OccursAt(s, pat, j) <==> OccursAt(s[1..], pat, j - 1)) by {
        forall j | 1 <= j
          ensures OccursAt(s, pat, j) <==> OccursAt(s[1..], pat, j - 1)
        {
          if j + |pat| <= |s| {
            assert s[1..][j - 1..j - 1 + |pat|] == s[j..j + |pat|];
          }
        }
      }
      assert !OccursAt(s, pat, 0);
      match rest
      case None => None
      case Some(k) => Some(k + 1)
  }

  lemma FindFirstDecidesContains(s: string, pat: string)
    ensures Contains(s, pat) <==> FindFirst(s, pat).Some?
  {
    var r := FindFirst(s, pat);
    if r.Some? {
      assert OccursAt(s, pat, r.value);
    }
  }

  /** Python's `s.split(sep)[0]`: everything before the first occurrence of
      `sep`, or the whole string when there is none (Python refuses an empty
      separator with a `ValueError`). */
  function BeforeFirst(s: string, sep: string): (r: string)
    requires sep != []
    ensures |r| <= |s| && s[..|r|] == r
    ensures !Contains(s, sep) ==> r == s
    ensures Contains(s, sep) ==> OccursAt(s, sep, |r|)
    ensures forall j :: 0 <= j < |r| ==> !OccursAt(s, sep, j)
    ensures !Contains(r, sep)
  {
    FindFirstDecidesContains(s, sep);
    match FindFirst(s, sep)
    case None =>
      s
    case Some(i) =>
      var r := s[..i];
      forall j ensures !OccursAt(r, sep, j) {
        if OccursAt(r, sep, j) {
          assert r == s[0..i];
          OccursInSlice(s, 0, i, sep, j);
        }
      }
      r
  }

  /** An occurrence inside a slice is an occurrence in the whole string. */
  lemma OccursInSlice(s: string, a: nat, b: nat, pat: string, j: int)
    requires a <= b <= |s|
    requires OccursAt(s[a..b], pat, j)
    ensures OccursAt(s, pat, a + j)
  {
    var t := s[a..b];
    var u, v := t[j..j + |pat|], s[a + j..a + j + |pat|];
    forall k | 0 <= k < |pat|
      ensures u[k] == v[k]
    {
      assert t[j + k] == s[a + j + k];
    }
    assert u == v;
  }

  // ----- integers as decimal text -----

  predicate IsDigit(c: char) {
    '0' <= c <= '9'
  }

  predicate AllDigits(s: string) {
    forall i :: 0 <= i < |s| ==> IsDigit(s[i])
  }

  function DigitChar(d: nat): (c: char)
    requires d < 10
    ensures IsDigit(c) && c as int - '0' as int == d
  {
    ['0', '1', '2', '3', '4', '5', '6', '7', '8', '9'][d]
  }

  /** Decimal digits of `n`, most significant first, without leading zeros. */
  function NatToDecimal(n: nat): (s: string)
    ensures |s| >= 1 && AllDigits(s)
    ensures s[0] == '0' ==> n == 0 && s == "0"
  {
    if n < 10 then [DigitChar(n)] else NatToDecimal(n / 10) + [DigitChar(n % 10)]
  }

  /** Python's `str(n)` for an integer. */
  function IntToDecimal(n: int): (s: string)
    ensures |s| >= 1
    ensures s[0] == '-' <==> n < 0
  {
    if n < 0 then "-" + NatToDecimal(-n) else NatToDecimal(n)
  }

  /** `str(n)` is Python's canonical text: an optional minus sign, then at
      least one digit, with no leading zero unless the number is 0 itself. */
  lemma IntToDecimalCanonical(n: int)
    ensures var s := IntToDecimal(n);
      var d := if n < 0 then s[1..] else s;
      |d| >= 1 && AllDigits(d) && (d[0] == '0' ==> n == 0 && s == "0")
  {
    if n < 0 {
      assert IntToDecimal(n)[1..] == NatToDecimal(-n);
    }
  }

  /** Value of a string of decimal digits. */
  function DecimalValue(s: string): nat
    requires AllDigits(s)
  {
    if s == [] then 0
    else DecimalValue(s[..|s| - 1]) * 10 + (s[|s| - 1] as int - '0' as int)
  }

  /** Python's `int(s)` restricted to an optional minus sign followed by
      decimal digits; anything else is a `ValueError`, here `None`. */
  function ParseInt(s: string): Option<int> {
    if |s| >= 2 && s[0] == '-' && AllDigits(s[1..]) then Some(0 - DecimalValue(s[1..]) as int)
    else if |s| >= 1 && AllDigits(s) then Some(DecimalValue(s))
    else None
  }

  lemma {:induction false} NatToDecimalValue(n: nat)
    ensures DecimalValue(NatToDecimal(n)) == n
  {
    if n >= 10 {
      NatToDecimalValue(n / 10);
      var s := NatToDecimal(n);
      assert s[..|s| - 1] == NatToDecimal(n / 10);
    }
  }

  /** `int(str(n)) == n`: the decimal text of an integer reads back as it. */
  lemma IntToDecimalRoundTrip(n: int)
    ensures ParseInt(IntToDecimal(n)) == Some(n)
  {
    var s := IntToDecimal(n);
    if n < 0 {
      var d := NatToDecimal(-n);
      NatToDecimalValue(-n);
      assert |s| >= 2 && s[0] == '-' && s[1..] == d by {
        assert s == "-" + d;
      }
    } else {
      NatToDecimalValue(n);
      assert s[0] != '-' by {
        assert IsDigit(s[0]);
      }
    }
  }

}
