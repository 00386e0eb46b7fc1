/**
 * Python's two conversions between integers and their text, as the program uses them:
 * `str(n)` (the product ID, the quantity Redis stores) and `int(text)` (the quantity and
 * stock-delta lines typed by the operator, the quantity read back from Redis).
 *
 * `int(text)` accepts, after stripping surrounding whitespace, an optional sign followed by
 * decimal digits in which single underscores may separate digits; anything else raises
 * ValueError, which is `None` here.
 */
module IntText {
  import opened Wrappers

  predicate IsDigit(c: char) {
    '0' <= c <= '9'
  }

  /** The ASCII whitespace `int()` strips: space, tab, line feed, vertical tab, form feed, carriage return. */
  predicate IsSpace(c: char) {
    c == ' ' || '\t' <= c <= '\r'
  }

  function DigitValue(c: char): (d: nat)
    requires IsDigit(c)
    ensures d < 10
  {
    c as int - '0' as int
  }

  function DigitChar(d: nat): (c: char)
    requires d < 10
    ensures IsDigit(c) && DigitValue(c) == d
  {
    ('0' as int + d) as char
  }

  /** `str(n)` for a non-negative integer: its decimal digits, without leading zeros. */
  function DecimalString(n: nat): (s: string)
    ensures |s| > 0 && forall i :: 0 <= i < |s| ==> IsDigit(s[i])
    ensures s[0] == '0' ==> n == 0
  {
    if n < 10 then [DigitChar(n)] else DecimalString(n / 10) + [DigitChar(n % 10)]
  }

  /** `str(i)` for any integer: a minus sign before the digits of a negative number. */
  function IntToString(i: int): (s: string)
    ensures |s| > 0
    ensures i < 0 <==> s[0] == '-'
  {
    if i < 0 then "-" + DecimalString(-i) else DecimalString(i)
  }

  function TrimStart(s: string): (t: string)
    ensures t == [] || !IsSpace(t[0])
    ensures |t| <= |s| && t == s[|s| - |t|..]
  {
    if s != [] && IsSpace(s[0]) then TrimStart(s[1..]) else s
  }

  function TrimEnd(s: string): (t: string)
    ensures t == [] || !IsSpace(t[|t| - 1])
    ensures |t| <= |s| && t == s[..|t|]
  {
    if s != [] && IsSpace(s[|s| - 1]) then TrimEnd(s[..|s| - 1]) else s
  }

  /** `text.strip()`, restricted to the whitespace of IsSpace. */
  function Strip(s: string): (t: string)
    ensures t == [] || (!IsSpace(t[0]) && !IsSpace(t[|t| - 1]))
  {
    TrimEnd(TrimStart(s))
  }

  /** Digits, with single underscores allowed between two digits: `digit ('_'? digit)*`. */
  predicate IsDigitGroup(s: string) {
    |s| > 0 && IsDigit(s[0]) &&
    (|s| == 1 || IsDigitGroup(s[1..]) || (|s| > 2 && s[1] == '_' && IsDigitGroup(s[2..])))
  }

  /** The number the digits of `s` spell, underscores ignored. */
  function GroupValue(s: string): nat {
    if s == [] then 0
    else if IsDigit(s[|s| - 1]) then 10 * GroupValue(s[..|s| - 1]) + DigitValue(s[|s| - 1])
    else GroupValue(s[..|s| - 1])
  }

  /** `int(text)`; `None` where Python raises ValueError. */
  function ParseInt(text: string): (r: Option<int>)
  {
    var t := Strip(text);
    var signed := t != [] && (t[0] == '-' || t[0] == '+');
    var digits := if signed then t[1..] else t;
    if !IsDigitGroup(digits) then None
    else if signed && t[0] == '-' then Some(-(GroupValue(digits) as int))
    else Some(GroupValue(digits))
  }

  /**
   * What `int()` accepts: a blank line is refused, an accepted line ends (once stripped) in a
   * digit, and only a leading minus sign gives a negative number.
   */
  lemma ParseIntShape(text: string)
    ensures ParseInt(text).Some? ==> Strip(text) != [] && IsDigit(Strip(text)[|Strip(text)| - 1])
    ensures ParseInt(text).Some? && ParseInt(text).value < 0 ==> Strip(text)[0] == '-'
  {
    var t := Strip(text);
    var signed := t != [] && (t[0] == '-' || t[0] == '+');
    var digits := if signed then t[1..] else t;
    if IsDigitGroup(digits) {
      GroupEndsInDigit(digits);
    }
  }

  lemma {:induction false} DecimalStringValue(n: nat)
    ensures GroupValue(DecimalString(n)) == n
  {
    if n >= 10 {
      var s := DecimalString(n);
      var prefix := DecimalString(n / 10);
      assert s[..|s| - 1] == prefix;
      DecimalStringValue(n / 10);
    }
  }

  lemma {:induction false} DigitsAreGroup(s: string)
    requires |s| > 0 && forall i :: 0 <= i < |s| ==> IsDigit(s[i])
    ensures IsDigitGroup(s)
  {
    if |s| > 1 {
      DigitsAreGroup(s[1..]);
    }
  }

  /** Text that neither starts nor ends with whitespace is left alone by `strip()`. */
  lemma StripUnpadded(s: string)
    requires s != [] && !IsSpace(s[0]) && !IsSpace(s[|s| - 1])
    ensures Strip(s) == s
  {
    assert TrimStart(s) == s;
  }

  lemma {:induction false} GroupEndsInDigit(s: string)
    requires IsDigitGroup(s)
    ensures IsDigit(s[|s| - 1])
  {
    if |s| > 1 {
      if IsDigitGroup(s[1..]) {
        GroupEndsInDigit(s[1..]);
      } else {
        GroupEndsInDigit(s[2..]);
      }
    }
  }

  /** `int()` of a digit group with an optional leading sign. */
  lemma ParseSignedGroup(s: string, sign: char, digits: string)
    requires sign == '-' || sign == '+'
    requires IsDigitGroup(digits) && s == [sign] + digits
    ensures ParseInt(s) == Some(if sign == '-' then -(GroupValue(digits) as int) else GroupValue(digits))
  {
    GroupEndsInDigit(digits);
    StripUnpadded(s);
    assert s[1..] == digits;
  }

  lemma ParseUnsignedGroup(digits: string)
    requires IsDigitGroup(digits)
    ensures ParseInt(digits) == Some(GroupValue(digits))
  {
    GroupEndsInDigit(digits);
    StripUnpadded(digits);
  }

  /** Reading back what `str` wrote gives the same integer: `int(str(i)) == i`. */
  lemma IntRoundTrip(i: int)
    ensures ParseInt(IntToString(i)) == Some(i)
  {
    var n: nat := if i < 0 then -i else i;
    var digits := DecimalString(n);
    DecimalStringValue(n);
    DigitsAreGroup(digits);
    if i < 0 {
      ParseSignedGroup(IntToString(i), '-', digits);
    } else {
      ParseUnsignedGroup(digits);
    }
  }

  /** Distinct non-negative integers have distinct decimal strings. */
  lemma DecimalStringInjective(m: nat, n: nat)
    requires m != n
    ensures DecimalString(m) != DecimalString(n)
  {
    IntRoundTrip(m);
    IntRoundTrip(n);
  }

  /** `int()` looks only at the stripped text. */
  lemma ParseIntOfStripped(a: string, b: string)
    requires Strip(a) == Strip(b)
    ensures ParseInt(a) == ParseInt(b)
  {
  }

  /** Whitespace before the typed number does not change what `int()` reads. */
  lemma ParseIntIgnoresLeadingSpace(c: char, text: string)
    requires IsSpace(c)
    ensures ParseInt([c] + text) == ParseInt(text)
  {
    assert ([c] + text)[1..] == text;
    ParseIntOfStripped([c] + text, text);
  }

  /** Whitespace after the typed number (the line's own end) does not change what `int()` reads. */
  lemma ParseIntIgnoresTrailingSpace(text: string, c: char)
    requires IsSpace(c)
    ensures ParseInt(text + [c]) == ParseInt(text)
  {
    TrimStartAppendSpace(text, c);
    var t := TrimStart(text);
    if t != [] {
      assert (t + [c])[..|t + [c]| - 1] == t;
    }
    ParseIntOfStripped(text + [c], text);
  }

  /**
   * The information separators U+001C..U+001F count as whitespace for `str.isspace` but not
   * for `int()`: a quantity line that starts with one is refused.
   */
  lemma SeparatorNotStripped(text: string)
    requires text != [] && '\U{1C}' <= text[0] <= '\U{1F}'
    ensures ParseInt(text) == None
  {
    assert TrimStart(text) == text;
    if TrimEnd(text) != [] {
      assert TrimEnd(text)[0] == text[0];
    }
  }

  lemma {:induction false} TrimStartAppendSpace(s: string, c: char)
    requires IsSpace(c)
    ensures TrimStart(s + [c]) == if TrimStart(s) == [] then [] else TrimStart(s) + [c]
  {
    if s == [] {
      assert TrimStart([c]) == TrimStart([c][1..]);
    } else if IsSpace(s[0]) {
      assert (s + [c])[1..] == s[1..] + [c];
      TrimStartAppendSpace(s[1..], c);
    }
  }
}
