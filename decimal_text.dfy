/**
 * The text conversions of the buf_size attribute: the kernel's
 * `sscanf(buf, "%d", &x)` that buf_size_store uses to read a size, and the
 * `sprintf(buf, "%d\n", x)` that buf_size_show uses to print one.
 *
 * The kernel's `%d` conversion skips white space, accepts an optional '-'
 * (no '+'), then needs at least one decimal digit and reads the longest run of
 * digits that follows; whatever comes after that run is ignored. The value is
 * stored into a 32-bit `int`, which wraps it modulo 2^32.
 */
module DecimalText {
  import opened Wrappers

  const INT_MIN: int := -0x8000_0000
  const INT_MAX: int := 0x7fff_ffff

  predicate IsDigit(c: char) {
    '0' <= c <= '9'
  }

  /**
   * The kernel's isspace(): blank, the controls 9 to 13, and byte 0xA0.
   * None of them is a digit or the sign, so skipping white space never eats
   * part of a number.
   */
  predicate IsSpace(c: char): (b: bool)
    ensures b ==> !IsDigit(c) && c != '-'
  {
    c == ' ' || 9 <= c as int <= 13 || c as int == 0xA0
  }

  predicate AllDigits(s: string) {
    forall i :: 0 <= i < |s| ==> IsDigit(s[i])
  }

  function DigitValue(c: char): nat
    requires IsDigit(c)
  {
    c as int - '0' as int
  }

  function DigitChar(d: nat): (c: char)
    requires d < 10
    ensures IsDigit(c) && DigitValue(c) == d
  {
    ('0' as int + d) as char
  }

  /** What is left of `s` once skip_spaces() has dropped its leading white space. */
  function SkipSpaces(s: string): (t: string)
    ensures |t| <= |s| && t == s[|s| - |t|..]
    ensures forall i :: 0 <= i < |s| - |t| ==> IsSpace(s[i])
    ensures t == [] || !IsSpace(t[0])
  {
    if s != [] && IsSpace(s[0]) then SkipSpaces(s[1..]) else s
  }

  /** The run of decimal digits at the front of `s` (LeadingDigitsIsLongestRun: the longest one). */
  function LeadingDigits(s: string): (d: string)
    ensures AllDigits(d)
  {
    if s != [] && IsDigit(s[0]) then [s[0]] + LeadingDigits(s[1..]) else []
  }

  /** LeadingDigits is a prefix of `s`, and the character after it, if any, is not a digit. */
  lemma {:induction false} LeadingDigitsIsLongestRun(s: string)
    ensures var d := LeadingDigits(s); d <= s && (|d| == |s| || !IsDigit(s[|d|]))
  {
    if s != [] && IsDigit(s[0]) {
      LeadingDigitsIsLongestRun(s[1..]);
      var d := LeadingDigits(s[1..]);
      assert LeadingDigits(s) == [s[0]] + d;
      assert s == [s[0]] + s[1..];
    }
  }

  /** The number a string of decimal digits denotes, most significant digit first. */
  function DigitsValue(d: string): nat
    requires AllDigits(d)
  {
    if d == [] then 0 else 10 * DigitsValue(d[..|d| - 1]) + DigitValue(d[|d| - 1])
  }

  /** The conversion before it is stored: None when `%d` matches nothing. */
  function ScanDecimal(s: string): Option<int>
  {
    ScanNumber(SkipSpaces(s))
  }

  /**
   * The conversion once white space is skipped: an optional '-', then at
   * least one digit. It matches exactly when the text starts that way, and
   * only a '-' makes the value negative.
   */
  function ScanNumber(t: string): (r: Option<int>)
    ensures r.Some? <==> (t != [] && IsDigit(t[0])) || (|t| >= 2 && t[0] == '-' && IsDigit(t[1]))
    ensures r.Some? && r.value < 0 ==> t[0] == '-'
    ensures r.Some? && t[0] == '-' ==> r.value <= 0
  {
    if |t| >= 2 && t[0] == '-' && IsDigit(t[1]) then
      Some(-(DigitsValue(LeadingDigits(t[1..])) as int))
    else if t != [] && IsDigit(t[0]) then
      Some(DigitsValue(LeadingDigits(t)))
    else
      None
  }

  /** Storing a value into a 32-bit int: wrap-around modulo 2^32. */
  function Wrap32(v: int): (r: int)
    ensures INT_MIN <= r <= INT_MAX
    ensures (r - v) % 0x1_0000_0000 == 0
    ensures INT_MIN <= v <= INT_MAX ==> r == v
  {
    var m := v % 0x1_0000_0000;
    if m <= INT_MAX then m else m - 0x1_0000_0000
  }

  /**
   * The int that `sscanf(s, "%d", &x)` stores in x, or None when it returns
   * 0: it matches when the conversion does, always yields an int, and yields
   * the number read itself whenever that fits.
   */
  function ScanInt(s: string): (r: Option<int>)
    ensures r.Some? <==> ScanDecimal(s).Some?
    ensures r.Some? ==> INT_MIN <= r.value <= INT_MAX
    ensures ScanDecimal(s).Some? && INT_MIN <= ScanDecimal(s).value <= INT_MAX ==> r == ScanDecimal(s)
  {
    match ScanDecimal(s)
    case None => None
    case Some(v) => Some(Wrap32(v))
  }

  /** The decimal digits of `n`, without leading zeros. */
  function FormatNat(n: nat): (s: string)
    ensures |s| > 0 && AllDigits(s)
    ensures s[0] == '0' ==> s == "0"
    ensures DigitsValue(s) == n
  {
    if n < 10 then
      [DigitChar(n)]
    else
      var s := FormatNat(n / 10) + [DigitChar(n % 10)];
      assert s[..|s| - 1] == FormatNat(n / 10);
      s
  }

  /** What `%d` prints: a '-' for a negative number, then the digits of its magnitude. */
  function FormatInt(n: int): (s: string)
    ensures |s| > 0
    ensures n >= 0 ==> AllDigits(s)
    ensures n < 0 ==> s[0] == '-' && AllDigits(s[1..]) && |s| >= 2
    ensures s[0] == '0' ==> s == "0"
  {
    if n < 0 then ['-'] + FormatNat(-n) else FormatNat(n)
  }

  /** A run of digits followed by something that is not a digit is exactly what LeadingDigits finds. */
  lemma {:induction false} LeadingDigitsOfRun(d: string, rest: string)
    requires AllDigits(d)
    requires rest == [] || !IsDigit(rest[0])
    ensures LeadingDigits(d + rest) == d
  {
    if d != [] {
      assert (d + rest)[1..] == d[1..] + rest;
      LeadingDigitsOfRun(d[1..], rest);
    } else {
      assert d + rest == rest;
    }
  }

  /** Digits that LeadingDigits finds in full scan as the number they denote. */
  lemma ScanNumberOfDigits(digits: string, rest: string)
    requires digits != [] && AllDigits(digits)
    requires LeadingDigits(digits + rest) == digits
    ensures ScanNumber(digits + rest) == Some(DigitsValue(digits))
  {
    assert (digits + rest)[0] == digits[0];
  }

  /** A '-' before digits that LeadingDigits finds in full scans as the negated number. */
  lemma ScanNumberOfMinusDigits(digits: string, rest: string)
    requires digits != [] && AllDigits(digits)
    requires LeadingDigits(digits + rest) == digits
    ensures ScanNumber(['-'] + (digits + rest)) == Some(-(DigitsValue(digits) as int))
  {
    var tail := digits + rest;
    assert (['-'] + tail)[1..] == tail;
    assert tail[0] == digits[0];
  }

  /** Text that starts with a digit or a '-' has no white space to skip. */
  lemma SkipNothing(s: string)
    requires s != [] && (IsDigit(s[0]) || s[0] == '-')
    ensures SkipSpaces(s) == s
  {
  }

  /** The printed form of a negative number, then a non-digit, scans back to that number. */
  lemma ScanFormatNegative(n: int, rest: string)
    requires n < 0
    requires rest == [] || !IsDigit(rest[0])
    ensures ScanDecimal(FormatInt(n) + rest) == Some(n)
  {
    var digits := FormatNat(-n);
    var s := ['-'] + (digits + rest);
    assert FormatInt(n) + rest == s;
    LeadingDigitsOfRun(digits, rest);
    ScanNumberOfMinusDigits(digits, rest);
    SkipNothing(s);
    assert ScanDecimal(s) == ScanNumber(s);
  }

  /** The printed form of a non-negative number, then a non-digit, scans back to that number. */
  lemma ScanFormatNonNegative(n: int, rest: string)
    requires n >= 0
    requires rest == [] || !IsDigit(rest[0])
    ensures ScanDecimal(FormatInt(n) + rest) == Some(n)
  {
    var digits := FormatNat(n);
    LeadingDigitsOfRun(digits, rest);
    ScanNumberOfDigits(digits, rest);
    assert (digits + rest)[0] == digits[0];
    SkipNothing(digits + rest);
  }

  /**
   * What buf_size_show prints, buf_size_store reads back: scanning the
   * printed form of any int, followed by anything that does not start with a
   * digit (the newline, say), yields that int.
   */
  lemma ScanFormatRoundTrip(n: int, rest: string)
    requires INT_MIN <= n <= INT_MAX
    requires rest == [] || !IsDigit(rest[0])
    ensures ScanInt(FormatInt(n) + rest) == Some(n)
  {
    if n < 0 {
      ScanFormatNegative(n, rest);
    } else {
      ScanFormatNonNegative(n, rest);
    }
  }

  /** A leading '+' is not a sign to the kernel's `%d`: such text matches nothing. */
  lemma PlusSignNotAccepted(s: string)
    requires s != [] && s[0] == '+'
    ensures ScanInt(s) == None
  {
  }
}
