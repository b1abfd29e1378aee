// String helpers shared by the pages: the whitespace class of JavaScript
// (`\s` in a regular expression, and what `String.prototype.trim` removes),
// trimming, the `/^\d+\.\s*/` ordinal-prefix rule applied to company names,
// decimal rendering of numbers and substring search.
module Text {

  /** JavaScript WhiteSpace and LineTerminator code points. */
  predicate IsSpace(c: char) {
    var n := c as int;
    (9 <= n <= 13) || n == 32 || n == 0xA0 || n == 0x1680 || (0x2000 <= n <= 0x200A)
    || n == 0x2028 || n == 0x2029 || n == 0x202F || n == 0x205F || n == 0x3000 || n == 0xFEFF
  }

  /** `\d` without the unicode flag: ASCII digits only. */
  predicate IsDigit(c: char) {
    '0' <= c <= '9'
  }

  predicate AllSpace(s: string) {
    forall i :: 0 <= i < |s| ==> IsSpace(s[i])
  }

  predicate AllDigits(s: string) {
    forall i :: 0 <= i < |s| ==> IsDigit(s[i])
  }

  /** A string in the sense of JavaScript truthiness: only "" is falsy. */
  predicate NonEmpty(s: string) {
    s != []
  }

  /** Removes leading whitespace (`trimStart`). */
  function TrimStart(s: string): (r: string)
    ensures |r| <= |s|
    ensures r == [] || !IsSpace(r[0])
  {
    if |s| > 0 && IsSpace(s[0]) then TrimStart(s[1..]) else s
  }

  /** What `trimStart` removes is a run of whitespace at the front, and
      nothing else. */
  lemma {:induction false} TrimStartRemovesSpace(s: string)
    ensures TrimStart(s) == s[|s| - |TrimStart(s)|..]
    ensures AllSpace(s[..|s| - |TrimStart(s)|])
  {
    if |s| > 0 && IsSpace(s[0]) {
      TrimStartRemovesSpace(s[1..]);
      var r := TrimStart(s);
      assert s[..|s| - |r|] == [s[0]] + s[1..][..|s| - 1 - |r|];
    }
  }

  /** Removes trailing whitespace (`trimEnd`). */
  function TrimEnd(s: string): (r: string)
    ensures |r| <= |s|
    ensures r == [] || !IsSpace(r[|r| - 1])
  {
    if |s| > 0 && IsSpace(s[|s| - 1]) then TrimEnd(s[..|s| - 1]) else s
  }

  /** What `trimEnd` removes is a run of whitespace at the back, and
      nothing else. */
  lemma {:induction false} TrimEndRemovesSpace(s: string)
    ensures TrimEnd(s) == s[..|TrimEnd(s)|]
    ensures AllSpace(s[|TrimEnd(s)|..])
  {
    if |s| > 0 && IsSpace(s[|s| - 1]) {
      TrimEndRemovesSpace(s[..|s| - 1]);
      var r := TrimEnd(s);
      assert s[|r|..] == s[..|s| - 1][|r|..] + [s[|s| - 1]];
    }
  }

  /** `String.prototype.trim`: both ends, nothing in between. */
  function Trim(s: string): (r: string)
    ensures r == [] || (!IsSpace(r[0]) && !IsSpace(r[|r| - 1]))
    ensures |r| <= |s|
  {
    var t := TrimStart(s);
    var r := TrimEnd(t);
    TrimEndRemovesSpace(t);
    assert r != [] ==> r[0] == t[0];
    r
  }

  lemma {:induction false} TrimStartOfSpaces(w: string, s: string)
    requires AllSpace(w)
    ensures TrimStart(w + s) == TrimStart(s)
  {
    if w != [] {
      var ws := w + s;
      assert ws[0] == w[0] && IsSpace(ws[0]);
      assert ws[1..] == w[1..] + s;
      TrimStartOfSpaces(w[1..], s);
    } else {
      assert w + s == s;
    }
  }

  lemma {:induction false} TrimEndOfSpaces(s: string, w: string)
    requires AllSpace(w)
    ensures TrimEnd(s + w) == TrimEnd(s)
  {
    if w != [] {
      var sw := s + w;
      assert sw[|sw| - 1] == w[|w| - 1] && IsSpace(sw[|sw| - 1]);
      assert sw[..|sw| - 1] == s + w[..|w| - 1];
      TrimEndOfSpaces(s, w[..|w| - 1]);
    } else {
      assert s + w == s;
    }
  }

  lemma TrimStartOfNonSpace(t: string)
    requires t != [] && !IsSpace(t[0])
    ensures TrimStart(t) == t
  {
  }

  lemma TrimEndOfNonSpace(t: string)
    requires t != [] && !IsSpace(t[|t| - 1])
    ensures TrimEnd(t) == t
  {
  }

  /** Trailing whitespace does not change what `trim` gives. */
  lemma TrimIgnoresTrailingSpace(s: string, w': string)
    requires AllSpace(w')
    ensures Trim(s + w') == Trim(s)
  {
    var t := TrimStart(s);
    TrimStartRemovesSpace(s);
    var p := s[..|s| - |t|];
    assert s + w' == p + (t + w');
    TrimStartOfSpaces(p, t + w');
    if t == [] {
      assert t + w' == w' + [];
      TrimStartOfSpaces(w', []);
    } else {
      assert (t + w')[0] == t[0];
      TrimStartOfNonSpace(t + w');
      TrimEndOfSpaces(t, w');
    }
  }

  /** Whitespace added around a string does not change what `trim` gives. */
  lemma TrimIgnoresSurroundingSpace(w: string, s: string, w': string)
    requires AllSpace(w) && AllSpace(w')
    ensures Trim(w + s + w') == Trim(s)
  {
    assert w + s + w' == w + (s + w');
    TrimStartOfSpaces(w, s + w');
    assert Trim(w + s + w') == Trim(s + w');
    TrimIgnoresTrailingSpace(s, w');
  }

  /** `trim` is idempotent. */
  lemma TrimIdempotent(s: string)
    ensures Trim(Trim(s)) == Trim(s)
  {
    var r := Trim(s);
    if r != [] {
      TrimStartOfNonSpace(r);
      TrimEndOfNonSpace(r);
    }
  }

  /** Number of leading ASCII digits. */
  function LeadingDigits(s: string): (k: nat)
    ensures k <= |s|
    ensures k == |s| || !IsDigit(s[k])
  {
    if |s| > 0 && IsDigit(s[0]) then 1 + LeadingDigits(s[1..]) else 0
  }

  /** Whether `/^\d+\./` matches at the start of `s`. */
  predicate HasOrdinalPrefix(s: string) {
    var k := LeadingDigits(s);
    0 < k < |s| && s[k] == '.'
  }

  // `s.replace(/^\d+\.\s*/, '')`: drops a leading `digits.` and the
  // whitespace after it; any other string is returned unchanged.
  function StripOrdinalPrefix(s: string): (r: string)
    ensures HasOrdinalPrefix(s) ==> |r| + 2 <= |s|
  {
    if HasOrdinalPrefix(s) then TrimStart(s[LeadingDigits(s) + 1..]) else s
  }

  // The company-name rule used by the templates and leads pages:
  // `name.replace(/^\d+\.\s*/, '').trim()`.
  function NormalizeCompanyName(s: string): (r: string)
    ensures r == [] || (!IsSpace(r[0]) && !IsSpace(r[|r| - 1]))
  {
    Trim(StripOrdinalPrefix(s))
  }

  lemma {:induction false} LeadingDigitsOfNumbered(d: string, rest: string)
    requires AllDigits(d)
    requires rest == [] || !IsDigit(rest[0])
    ensures LeadingDigits(d + rest) == |d|
  {
    if d != [] {
      assert (d + rest)[1..] == d[1..] + rest;
      LeadingDigitsOfNumbered(d[1..], rest);
    } else {
      assert d + rest == rest;
    }
  }

  /** A numbered company name groups with the same name without its number:
      `"3. Acme Corp"` and `"Acme Corp"` normalise alike. */
  lemma OrdinalPrefixIgnored(d: string, w: string, s: string)
    requires d != [] && AllDigits(d) && AllSpace(w)
    requires !HasOrdinalPrefix(s)
    ensures NormalizeCompanyName(d + "." + w + s) == NormalizeCompanyName(s)
  {
    var n := d + "." + w + s;
    var rest := "." + w + s;
    assert n == d + rest;
    LeadingDigitsOfNumbered(d, rest);
    assert n[|d|] == '.';
    assert HasOrdinalPrefix(n);
    assert n[|d| + 1..] == w + s;
    TrimStartOfSpaces(w, s);
    var t := TrimStart(s);
    assert StripOrdinalPrefix(n) == t;
    if t != [] {
      TrimStartOfNonSpace(t);
    }
    assert TrimStart(t) == t;
  }

  /** A name that carries no number and no surrounding whitespace is left
      as it is; with the lemma above, `"3. Acme Corp"` normalises to
      `"Acme Corp"`. */
  lemma PlainNameUnchanged(s: string)
    requires !HasOrdinalPrefix(s)
    requires s == [] || (!IsSpace(s[0]) && !IsSpace(s[|s| - 1]))
    ensures NormalizeCompanyName(s) == s
  {
    assert StripOrdinalPrefix(s) == s;
    if s != [] {
      TrimStartOfNonSpace(s);
      TrimEndOfNonSpace(s);
    }
    assert TrimStart(s) == s;
    assert TrimEnd(s) == s;
    assert Trim(s) == s;
  }

  function DigitChar(d: nat): (c: char)
    requires d < 10
    ensures IsDigit(c) && (c as int) - ('0' as int) == d
  {
    (('0' as int) + d) as char
  }

  /** Decimal rendering of a non-negative integer, as template literals give it. */
  function NatToString(n: nat): (r: string)
    ensures |r| >= 1 && AllDigits(r)
    ensures (n < 10) == (|r| == 1)
  {
    if n < 10 then [DigitChar(n)]
    else NatToString(n / 10) + [DigitChar(n % 10)]
  }

  /** Distinct numbers render differently. */
  lemma {:induction false} NatToStringInjective(m: nat, n: nat)
    requires NatToString(m) == NatToString(n)
    ensures m == n
  {
    var s := NatToString(m);
    if m >= 10 && n >= 10 {
      assert s[|s| - 1] == DigitChar(m % 10) == DigitChar(n % 10);
      assert NatToString(m / 10) == s[..|s| - 1] == NatToString(n / 10);
      NatToStringInjective(m / 10, n / 10);
    } else {
      assert s[0] == DigitChar(m) == DigitChar(n);
    }
  }

  predicate IsPrefix(p: string, s: string) {
    |p| <= |s| && s[..|p|] == p
  }

  /** `s.includes(sub)`. */
  predicate Contains(s: string, sub: string)
  {
    IsPrefix(sub, s) || (|s| > 0 && Contains(s[1..], sub))
  }

  /** A text in which the first character of `sub` never occurs does not
      contain `sub`. */
  lemma {:induction false} AbsentFirstChar(s: string, sub: string)
    requires sub != [] && sub[0] !in s
    ensures !Contains(s, sub)
  {
    if s != [] {
      AbsentFirstChar(s[1..], sub);
    }
  }
}
