/** Character classes and the small string operations of Python's standard
    library that the bot relies on: `str.strip()`, `int()` on a stripped text,
    and `str()` of an integer (the reference rendering `int()` is checked
    against). Character classes are the ASCII part of Python's own. */
module Text {

  datatype Option<+T> = None | Some(value: T)

  /** Python's whitespace (`str.isspace`, and the regex class `\s` of a str
      pattern) restricted to ASCII: tab, line feed, vertical tab, form feed,
      carriage return, the separators 0x1C-0x1F, and space. */
  predicate IsSpace(c: char) {
    (9 <= c as int <= 13) || (28 <= c as int <= 32)
  }

  /** The regex class `\w` restricted to ASCII. */
  predicate IsWordChar(c: char) {
    ('a' <= c <= 'z') || ('A' <= c <= 'Z') || ('0' <= c <= '9') || c == '_'
  }

  predicate IsDigit(c: char) {
    '0' <= c <= '9'
  }

  predicate AllSpace(s: string) {
    forall k :: 0 <= k < |s| ==> IsSpace(s[k])
  }

  /** The number of whitespace characters at the front of `s`. */
  function LeadingSpace(s: string): (n: nat)
    ensures n <= |s|
    ensures forall k :: 0 <= k < n ==> IsSpace(s[k])
    ensures n == |s| || !IsSpace(s[n])
  {
    if s == [] || !IsSpace(s[0]) then 0 else 1 + LeadingSpace(s[1..])
  }

  /** The number of whitespace characters at the back of `s`. */
  function TrailingSpace(s: string): (n: nat)
    ensures n <= |s|
    ensures forall k :: |s| - n <= k < |s| ==> IsSpace(s[k])
    ensures n == |s| || !IsSpace(s[|s| - 1 - n])
  {
    if s == [] || !IsSpace(s[|s| - 1]) then 0 else 1 + TrailingSpace(s[..|s| - 1])
  }

  /** `s.strip()`: `s` without its leading and trailing whitespace. */
  function Strip(s: string): (r: string)
    ensures |r| <= |s|
    ensures r == [] <==> AllSpace(s)
    ensures r != [] ==> !IsSpace(r[0]) && !IsSpace(r[|r| - 1])
    ensures LeadingSpace(s) + |r| <= |s|
    ensures s[LeadingSpace(s)..LeadingSpace(s) + |r|] == r
    ensures forall k :: LeadingSpace(s) + |r| <= k < |s| ==> IsSpace(s[k])
  {
    var i := LeadingSpace(s);
    var t := s[i..];
    var r := t[..|t| - TrailingSpace(t)];
    assert AllSpace(s) ==> i == |s|;
    assert i < |s| ==> r != [] && r[0] == s[i];
    r
  }

  /** Stripping is determined by the shape of its result: whatever whitespace
      surrounds a text that neither starts nor ends with whitespace, `Strip`
      gives back exactly that text. */
  lemma StripPadded(pre: string, mid: string, post: string)
    requires AllSpace(pre) && AllSpace(post)
    requires mid != [] ==> !IsSpace(mid[0]) && !IsSpace(mid[|mid| - 1])
    ensures Strip(pre + mid + post) == mid
  {
    var s := pre + mid + post;
    var r := Strip(s);
    var i := LeadingSpace(s);
    forall k | 0 <= k < |pre| ensures IsSpace(s[k]) { assert s[k] == pre[k]; }
    forall k | |pre| + |mid| <= k < |s| ensures IsSpace(s[k]) { assert s[k] == post[k - |pre| - |mid|]; }
    if mid == [] {
      assert AllSpace(s);
    } else {
      assert s[|pre|] == mid[0];
      assert i == |pre|;
      assert s[|pre| + |mid| - 1] == mid[|mid| - 1];
      assert |r| >= |mid|;
      assert r[|r| - 1] == s[|pre| + |r| - 1];
      assert |r| == |mid|;
      assert r == s[|pre|..|pre| + |mid|] == mid;
    }
  }

  /** A text that neither starts nor ends with whitespace is left as it is. */
  lemma StripTrimmed(s: string)
    requires s != [] ==> !IsSpace(s[0]) && !IsSpace(s[|s| - 1])
    ensures Strip(s) == s
  {
    StripPadded([], s, []);
    assert [] + s + [] == s;
  }

  /** Stripping twice changes nothing more. */
  lemma StripIdempotent(s: string)
    ensures Strip(Strip(s)) == Strip(s)
  {
    StripTrimmed(Strip(s));
  }

  predicate IsDigits(ds: string) {
    ds != [] && forall k :: 0 <= k < |ds| ==> IsDigit(ds[k])
  }

  /** The value of a string of decimal digits, leading zeros allowed. */
  function DigitsValue(ds: string): nat
    requires forall k :: 0 <= k < |ds| ==> IsDigit(ds[k])
  {
    if ds == [] then 0
    else
      assert IsDigit(ds[|ds| - 1]);
      10 * DigitsValue(ds[..|ds| - 1]) + (ds[|ds| - 1] as int - '0' as int)
  }

  /** Whether `int(t)` accepts `t` (already stripped): an optional sign
      followed by one or more decimal digits. */
  predicate IsIntLiteral(t: string) {
    IsDigits(t) || (|t| > 0 && (t[0] == '+' || t[0] == '-') && IsDigits(t[1..]))
  }

  /** `int(t)` for a stripped text `t`; `None` stands for the ValueError. */
  function ParseInt(t: string): (r: Option<int>)
    ensures r.Some? <==> IsIntLiteral(t)
    ensures r.Some? && IsDigits(t) ==> r.value == DigitsValue(t)
    ensures r.Some? && t[0] == '-' ==> r.value == -(DigitsValue(t[1..]) as int)
    ensures r.Some? && t[0] == '+' ==> r.value == DigitsValue(t[1..])
  {
    if |t| > 0 && (t[0] == '+' || t[0] == '-') then
      if IsDigits(t[1..]) then
        Some(if t[0] == '-' then -(DigitsValue(t[1..]) as int) else DigitsValue(t[1..]))
      else None
    else if IsDigits(t) then Some(DigitsValue(t))
    else None
  }

  function DigitChar(d: nat): (c: char)
    requires d < 10
    ensures IsDigit(c) && c as int - '0' as int == d
  {
    ('0' as int + d) as char
  }

  /** `str(n)` for a natural number: its decimal digits, without leading zeros. */
  function Decimal(n: nat): (r: string)
    ensures IsDigits(r)
    ensures r[0] == '0' ==> n == 0
    decreases n
  {
    if n < 10 then [DigitChar(n)] else Decimal(n / 10) + [DigitChar(n % 10)]
  }

  /** `str(n)` for any integer. */
  function IntToString(n: int): (r: string)
  {
    if n < 0 then "-" + Decimal(-n) else Decimal(n)
  }

  lemma {:induction false} DigitsValueOfDecimal(n: nat)
    ensures DigitsValue(Decimal(n)) == n
    decreases n
  {
    if n >= 10 {
      var ds := Decimal(n);
      assert ds[..|ds| - 1] == Decimal(n / 10);
      DigitsValueOfDecimal(n / 10);
    }
  }

  /** `int(str(n)) == n`: parsing takes back what rendering produced. */
  lemma ParseIntRoundTrip(n: int)
    ensures ParseInt(IntToString(n)) == Some(n)
  {
    if n < 0 {
      var t := IntToString(n);
      assert t[1..] == Decimal(-n);
      DigitsValueOfDecimal(-n);
    } else {
      DigitsValueOfDecimal(n);
    }
  }
}
