/**
 * Character and string operations the application relies on: Python's
 * `str.lower` and substring `in` on the backend, and JavaScript's
 * `String.prototype.trim`, `parseInt` and number printing in the intake form.
 */
module Text {
  import opened Wrappers

  // ---------------------------------------------------------------------
  // Case folding and substrings (Python)
  // ---------------------------------------------------------------------

  /** Lower-cases an ASCII capital and leaves every other character alone. */
  function LowerChar(c: char): char {
    if 'A' <= c <= 'Z' then (c as int + 32) as char else c
  }

  /** `s.lower()`, restricted to ASCII case mapping. */
  function Lower(s: string): string {
    seq(|s|, i requires 0 <= i < |s| => LowerChar(s[i]))
  }

  /** `needle` occurs in `haystack` starting at offset `i`. */
  ghost predicate OccursAt(haystack: string, needle: string, i: int) {
    0 <= i && i + |needle| <= |haystack| && haystack[i..i + |needle|] == needle
  }

  /** `needle in haystack`: tries every start offset from the left. */
  function Contains(haystack: string, needle: string): bool
    decreases |haystack|
  {
    if |needle| > |haystack| then false
    else if haystack[..|needle|] == needle then true
    else Contains(haystack[1..], needle)
  }

  /** The offset scan finds a match exactly when some offset holds one. */
  lemma {:induction false} ContainsIff(haystack: string, needle: string)
    ensures Contains(haystack, needle) <==> exists i :: OccursAt(haystack, needle, i)
    decreases |haystack|
  {
    if |needle| > |haystack| {
    } else if haystack[..|needle|] == needle {
      assert OccursAt(haystack, needle, 0);
    } else {
      var tail := haystack[1..];
      ContainsIff(tail, needle);
      forall i | OccursAt(haystack, needle, i)
        ensures i > 0 && OccursAt(tail, needle, i - 1)
      {
        assert tail[i - 1..i - 1 + |needle|] == haystack[i..i + |needle|];
      }
      forall j | OccursAt(tail, needle, j)
        ensures OccursAt(haystack, needle, j + 1)
      {
        assert tail[j..j + |needle|] == haystack[j + 1..j + 1 + |needle|];
      }
    }
  }

  // ---------------------------------------------------------------------
  // Whitespace and trim (JavaScript)
  // ---------------------------------------------------------------------

  /** The ECMAScript WhiteSpace and LineTerminator code points. */
  predicate IsJsWhitespace(c: char) {
    var n := c as int;
    n == 0x09 || n == 0x0A || n == 0x0B || n == 0x0C || n == 0x0D || n == 0x20
    || n == 0xA0 || n == 0x1680 || (0x2000 <= n <= 0x200A) || n == 0x2028
    || n == 0x2029 || n == 0x202F || n == 0x205F || n == 0x3000 || n == 0xFEFF
  }

  /** `s` without its leading whitespace. */
  function TrimStart(s: string): (r: string)
    ensures |r| <= |s| && r == s[|s| - |r|..]
    ensures r == [] || !IsJsWhitespace(r[0])
  {
    if s != [] && IsJsWhitespace(s[0]) then TrimStart(s[1..]) else s
  }

  /** `s` without its trailing whitespace. */
  function TrimEnd(s: string): (r: string)
    ensures |r| <= |s| && r == s[..|r|]
    ensures r == [] || !IsJsWhitespace(r[|r| - 1])
  {
    if s != [] && IsJsWhitespace(s[|s| - 1]) then TrimEnd(s[..|s| - 1]) else s
  }

  /** `s.trim()`: drops leading, then trailing whitespace. */
  function Trim(s: string): (r: string)
    ensures r == [] || (!IsJsWhitespace(r[0]) && !IsJsWhitespace(r[|r| - 1]))
    ensures |r| <= |s|
  {
    var u := TrimStart(s);
    var r := TrimEnd(u);
    assert r != [] ==> r[0] == u[0];
    r
  }

  /** A string with no whitespace at either end is its own trim. */
  lemma TrimOfTrimmed(s: string)
    requires s == [] || (!IsJsWhitespace(s[0]) && !IsJsWhitespace(s[|s| - 1]))
    ensures Trim(s) == s
  {
    assert TrimStart(s) == s;
    assert TrimEnd(s) == s;
  }

  /** Trimming twice is trimming once. */
  lemma TrimIdempotent(s: string)
    ensures Trim(Trim(s)) == Trim(s)
  {
    TrimOfTrimmed(Trim(s));
  }

  /** Whitespace put in front of `s` is skipped along with `s`'s own. */
  lemma {:induction false} TrimStartOfPrefixed(w: string, s: string)
    requires forall i :: 0 <= i < |w| ==> IsJsWhitespace(w[i])
    ensures TrimStart(w + s) == TrimStart(s)
    decreases |w|
  {
    if w != [] {
      assert (w + s)[0] == w[0];
      assert (w + s)[1..] == w[1..] + s;
      TrimStartOfPrefixed(w[1..], s);
    } else {
      assert w + s == s;
    }
  }

  /** Whitespace put after `s` is dropped along with `s`'s own. */
  lemma {:induction false} TrimEndOfSuffixed(s: string, w: string)
    requires forall i :: 0 <= i < |w| ==> IsJsWhitespace(w[i])
    ensures TrimEnd(s + w) == TrimEnd(s)
    decreases |w|
  {
    if w != [] {
      assert (s + w)[|s + w| - 1] == w[|w| - 1];
      assert (s + w)[..|s + w| - 1] == s + w[..|w| - 1];
      TrimEndOfSuffixed(s, w[..|w| - 1]);
    } else {
      assert s + w == s;
    }
  }

  /** Text after a string that holds a non-whitespace character is kept by `TrimStart`. */
  lemma {:induction false} TrimStartOfSuffixed(s: string, w: string)
    requires TrimStart(s) != []
    ensures TrimStart(s + w) == TrimStart(s) + w
    decreases |s|
  {
    assert (s + w)[0] == s[0];
    if IsJsWhitespace(s[0]) {
      assert (s + w)[1..] == s[1..] + w;
      TrimStartOfSuffixed(s[1..], w);
    }
  }

  /** After an all-whitespace string, `TrimStart` starts over on what follows. */
  lemma {:induction false} TrimStartAfterBlank(s: string, w: string)
    requires TrimStart(s) == []
    ensures TrimStart(s + w) == TrimStart(w)
    decreases |s|
  {
    if s != [] {
      assert (s + w)[0] == s[0];
      assert (s + w)[1..] == s[1..] + w;
      TrimStartAfterBlank(s[1..], w);
    } else {
      assert s + w == w;
    }
  }

  /** Trimming ignores whitespace put in front of the string. */
  lemma TrimIgnoresPrefix(w: string, s: string)
    requires forall i :: 0 <= i < |w| ==> IsJsWhitespace(w[i])
    ensures Trim(w + s) == Trim(s)
  {
    TrimStartOfPrefixed(w, s);
  }

  /** Trimming ignores whitespace put after the string. */
  lemma TrimIgnoresSuffix(s: string, w: string)
    requires forall i :: 0 <= i < |w| ==> IsJsWhitespace(w[i])
    ensures Trim(s + w) == Trim(s)
  {
    if TrimStart(s) != [] {
      TrimStartOfSuffixed(s, w);
      TrimEndOfSuffixed(TrimStart(s), w);
    } else {
      TrimStartAfterBlank(s, w);
      TrimStartOfPrefixed(w, []);
      assert w + [] == w;
    }
  }

  // ---------------------------------------------------------------------
  // Numbers (JavaScript parseInt and decimal printing)
  // ---------------------------------------------------------------------

  /** Value of an ASCII digit or letter as a digit of radix up to 36, and 36 for anything else. */
  function DigitValue(c: char): (v: nat)
    ensures v <= 36
  {
    if '0' <= c <= '9' then c as int - '0' as int
    else if 'a' <= c <= 'z' then c as int - 'a' as int + 10
    else if 'A' <= c <= 'Z' then c as int - 'A' as int + 10
    else 36
  }

  /** Length of the longest prefix of `s` made of digits of the radix. */
  function DigitRun(s: string, radix: nat): (n: nat)
    ensures n <= |s|
    ensures forall i :: 0 <= i < n ==> DigitValue(s[i]) < radix
    ensures n < |s| ==> DigitValue(s[n]) >= radix
  {
    if s != [] && DigitValue(s[0]) < radix then 1 + DigitRun(s[1..], radix) else 0
  }

  /** Positional value of a digit string, most significant digit first. */
  function DigitsValue(digits: string, radix: nat): nat {
    if digits == [] then 0
    else DigitsValue(digits[..|digits| - 1], radix) * radix + DigitValue(digits[|digits| - 1])
  }

  /**
   * The digits part of `parseInt`: a `0x`/`0X` prefix selects radix 16,
   * otherwise radix 10, and the longest run of digits that follows is the
   * value; no digit at all gives `None`.
   */
  function ParseMagnitude(s: string): Option<nat> {
    var hex := |s| >= 2 && s[0] == '0' && (s[1] == 'x' || s[1] == 'X');
    var radix := if hex then 16 else 10;
    var body := if hex then s[2..] else s;
    var n := DigitRun(body, radix);
    if n == 0 then None else Some(DigitsValue(body[..n], radix))
  }

  /**
   * `parseInt(s)` with no radix argument; `None` stands for `NaN`. Leading
   * whitespace is skipped and one sign character is read before the digits.
   */
  function ParseInt(s: string): Option<int> {
    ParseSigned(TrimStart(s))
  }

  /** The part of `parseInt` after leading whitespace: an optional sign, then the digits. */
  function ParseSigned(t: string): Option<int> {
    if |t| > 0 && t[0] == '-' then
      match ParseMagnitude(t[1..])
      case None => None
      case Some(m) => Some(-(m as int))
    else if |t| > 0 && t[0] == '+' then ParseMagnitude(t[1..])
    else ParseMagnitude(t)
  }

  /** The character for a decimal digit. */
  function DigitChar(d: nat): (c: char)
    requires d < 10
    ensures DigitValue(c) == d
  {
    ('0' as int + d) as char
  }

  /** Shortest decimal numeral of a natural number. */
  function Decimal(n: nat): (r: string)
    ensures |r| >= 1
    ensures forall i :: 0 <= i < |r| ==> DigitValue(r[i]) < 10
  {
    if n < 10 then [DigitChar(n)] else Decimal(n / 10) + [DigitChar(n % 10)]
  }

  /** `String(n)` for an integer: a minus sign for negatives, then the decimal numeral. */
  function IntToString(n: int): string {
    if n < 0 then "-" + Decimal(-n) else Decimal(n)
  }

  /** A decimal numeral reads back as the number it was printed from. */
  lemma {:induction false} DecimalValue(n: nat)
    ensures DigitsValue(Decimal(n), 10) == n
  {
    if n >= 10 {
      var d := Decimal(n / 10);
      assert (d + [DigitChar(n % 10)])[..|d|] == d;
      DecimalValue(n / 10);
    }
  }

  /** A non-empty run of decimal digits reads as its decimal value. */
  lemma MagnitudeOfNumeral(d: string)
    requires |d| >= 1 && forall i :: 0 <= i < |d| ==> DigitValue(d[i]) < 10
    ensures ParseMagnitude(d) == Some(DigitsValue(d, 10))
  {
    assert |d| >= 2 ==> DigitValue(d[1]) < 10;
    assert DigitRun(d, 10) == |d|;
    assert d[..|d|] == d;
  }

  /** A decimal digit is not whitespace. */
  lemma DigitIsNotSpace(c: char)
    requires DigitValue(c) < 10
    ensures !IsJsWhitespace(c)
  {
    assert '0' <= c <= '9';
  }

  /** A string that starts with a non-whitespace character has no leading whitespace to skip. */
  lemma NoLeadingSpace(s: string)
    requires s != [] && !IsJsWhitespace(s[0])
    ensures TrimStart(s) == s
  {
  }

  /** Digits of magnitude `m`, starting with a decimal digit, parse to `m`. */
  lemma ParseIntOfNumeral(d: string, m: nat)
    requires |d| >= 1 && DigitValue(d[0]) < 10 && ParseMagnitude(d) == Some(m)
    ensures ParseInt(d) == Some(m)
  {
    assert TrimStart(d) == d by {
      DigitIsNotSpace(d[0]);
      NoLeadingSpace(d);
    }
    assert d[0] != '-' && d[0] != '+';
  }

  /** A leading minus sign negates the magnitude that follows it. */
  lemma MinusNegates(t: string, m: nat)
    requires |t| >= 2 && t[0] == '-' && ParseMagnitude(t[1..]) == Some(m)
    ensures ParseSigned(t) == Some(-(m as int))
  {
  }

  /** A minus sign followed by digits of magnitude `m` parses to `-m`. */
  lemma ParseIntOfNegativeNumeral(d: string, m: nat)
    requires ParseMagnitude(d) == Some(m)
    ensures ParseInt("-" + d) == Some(-(m as int))
  {
    var s := "-" + d;
    assert s[0] == '-' && s[1..] == d;
    assert ParseSigned(s) == Some(-(m as int)) by {
      MinusNegates(s, m);
    }
    assert TrimStart(s) == s by {
      NoLeadingSpace(s);
    }
  }

  /** `parseInt(String(n)) === n` for every integer `n`. */
  lemma ParseIntRoundTrip(n: int)
    ensures ParseInt(IntToString(n)) == Some(n)
  {
    var m := if n < 0 then -n else n;
    DecimalValue(m);
    MagnitudeOfNumeral(Decimal(m));
    if n < 0 {
      ParseIntOfNegativeNumeral(Decimal(m), m);
    } else {
      ParseIntOfNumeral(Decimal(m), m);
    }
  }

  /** A string without a single decimal digit parses to `NaN`. */
  lemma ParseIntNoDigits(s: string)
    requires forall i :: 0 <= i < |s| ==> DigitValue(s[i]) >= 10
    ensures ParseInt(s).None?
  {
    var t := TrimStart(s);
    forall i | 0 <= i < |t| ensures DigitValue(t[i]) >= 10 {
      assert t[i] == s[|s| - |t| + i];
    }
    SignedNoDigits(t);
  }

  /** After the whitespace, no decimal digit means no number. */
  lemma SignedNoDigits(t: string)
    requires forall i :: 0 <= i < |t| ==> DigitValue(t[i]) >= 10
    ensures ParseSigned(t).None?
  {
    if |t| > 0 && (t[0] == '-' || t[0] == '+') {
      var u := t[1..];
      forall i | 0 <= i < |u| ensures DigitValue(u[i]) >= 10 {
        assert u[i] == t[i + 1];
      }
      MagnitudeNoDigits(u);
    } else {
      MagnitudeNoDigits(t);
    }
  }

  /** Without a leading decimal digit there is neither a `0x` prefix nor a digit run. */
  lemma MagnitudeNoDigits(u: string)
    requires u == [] || DigitValue(u[0]) >= 10
    ensures ParseMagnitude(u).None?
  {
    assert u == [] || u[0] != '0';
    assert DigitRun(u, 10) == 0;
  }
}
