/**
 * Text helpers used to lay out receipt lines and driver tag values:
 * the 45-column centering helper, Python's `str.strip()` and the
 * `%d.%m.%Y` date rendering used for tag 1263.
 */
module Receipt {

  /** Width of one line on the receipt ribbon. */
  const LineWidth := 45

  /** Python's `" " * n`: n spaces, and the empty string when n <= 0. */
  function Spaces(n: int): (r: string)
    ensures |r| == if n > 0 then n else 0
    ensures forall k :: 0 <= k < |r| ==> r[k] == ' '
    decreases n
  {
    if n <= 0 then "" else " " + Spaces(n - 1)
  }

  /** `add_spaces_to_45_chars`: `s` with `(45 - len) // 2` spaces before it and the rest of 45 after. */
  function PadTo45(s: string): string
  {
    var total := LineWidth - |s|;
    var left := total / 2;
    Spaces(left) + s + Spaces(total - left)
  }

  /**
   * PadTo45 centres a string on the 45-column line: `s` starts at column
   * `(45 - len) // 2` (Python's `//` floors, and so does Dafny's `/` for the
   * positive divisor 2), only spaces surround it, and the right margin
   * equals the left one or exceeds it by one; a string wider than the line
   * has both margins non-positive and is left unchanged.
   */
  lemma PadTo45Centres(s: string)
    ensures var r := PadTo45(s);
      |s| <= LineWidth ==>
        && |r| == LineWidth
        && r[(LineWidth - |s|) / 2 .. (LineWidth - |s|) / 2 + |s|] == s
        && (forall k :: 0 <= k < (LineWidth - |s|) / 2 ==> r[k] == ' ')
        && (forall k :: (LineWidth - |s|) / 2 + |s| <= k < |r| ==> r[k] == ' ')
    ensures var r, left := PadTo45(s), (LineWidth - |s|) / 2;
      |s| <= LineWidth ==> |r| - |s| - left == left || |r| - |s| - left == left + 1
    ensures |s| > LineWidth ==> PadTo45(s) == s
  {
    var total := LineWidth - |s|;
    var left := total / 2;
    var r := PadTo45(s);
    if |s| <= LineWidth {
      assert r[left .. left + |s|] == s;
    } else {
      assert Spaces(left) == [] && Spaces(total - left) == [];
      assert r == s;
    }
  }

  /** Python's `str.isspace()` for one character (Unicode White_Space, bidi B/S/WS). */
  predicate IsSpace(c: char)
  {
    || ('\U{9}' <= c <= '\U{D}')
    || ('\U{1C}' <= c <= '\U{20}')
    || c == '\U{85}' || c == '\U{A0}' || c == '\U{1680}'
    || ('\U{2000}' <= c <= '\U{200A}')
    || c == '\U{2028}' || c == '\U{2029}' || c == '\U{202F}' || c == '\U{205F}' || c == '\U{3000}'
  }

  /** Number of whitespace characters at the start of `s`. */
  function LeadingSpaces(s: string): (n: nat)
    ensures n <= |s|
    ensures forall k :: 0 <= k < n ==> IsSpace(s[k])
    ensures n == |s| || !IsSpace(s[n])
  {
    if s != [] && IsSpace(s[0]) then 1 + LeadingSpaces(s[1..]) else 0
  }

  /** Number of whitespace characters at the end of `s`. */
  function TrailingSpaces(s: string): (n: nat)
    ensures n <= |s|
    ensures forall k :: |s| - n <= k < |s| ==> IsSpace(s[k])
    ensures n == |s| || !IsSpace(s[|s| - n - 1])
  {
    if s != [] && IsSpace(s[|s| - 1]) then 1 + TrailingSpaces(s[..|s| - 1]) else 0
  }

  /** Python's `str.strip()` with no argument: `s` without its leading and trailing whitespace. */
  function Strip(s: string): string
  {
    var i := LeadingSpaces(s);
    s[i .. |s| - TrailingSpaces(s[i..])]
  }

  /**
   * Strip cuts away exactly the whitespace at both ends: the result is the
   * slice of `s` that starts after the leading whitespace, and only
   * whitespace follows it in `s`.
   */
  lemma StripTrims(s: string)
    ensures var r, i := Strip(s), LeadingSpaces(s);
      && i + |r| <= |s|
      && r == s[i .. i + |r|]
      && (forall k :: i + |r| <= k < |s| ==> IsSpace(s[k]))
  {
    var i := LeadingSpaces(s);
    var rest := s[i..];
    var j := |s| - TrailingSpaces(rest);
    assert Strip(s) == s[i..j];
    assert forall k :: j <= k < |s| ==> s[k] == rest[k - i];
  }

  /** What Strip keeps neither starts nor ends with whitespace. */
  lemma StripEnds(s: string)
    ensures var r := Strip(s);
      r == [] || (!IsSpace(r[0]) && !IsSpace(r[|r| - 1]))
  {
    var i := LeadingSpaces(s);
    var rest := s[i..];
    var t := TrailingSpaces(rest);
    var r := Strip(s);
    assert r == rest[..|rest| - t];
    if r != [] {
      assert r[0] == s[i];
      assert r[|r| - 1] == rest[|rest| - t - 1];
    }
  }

  /** Stripping twice is stripping once. */
  lemma StripIdempotent(s: string)
    ensures Strip(Strip(s)) == Strip(s)
  {
    var r := Strip(s);
    StripTrims(s);
    StripEnds(s);
    if r != [] {
      assert LeadingSpaces(r) == 0;
      assert TrailingSpaces(r) == 0;
    }
  }

  /** A calendar date as `datetime.now()` yields it (four-digit years only). */
  type Year = y: int | 1000 <= y <= 9999 witness 2000
  type Month = m: int | 1 <= m <= 12 witness 1
  type Day = d: int | 1 <= d <= 31 witness 1
  datatype Date = Date(year: Year, month: Month, day: Day)

  function Digit(n: int): (c: char)
    requires 0 <= n <= 9
  {
    "0123456789"[n]
  }

  function DigitValue(c: char): int
  {
    (c as int) - ('0' as int)
  }

  predicate IsDigit(c: char)
  {
    '0' <= c <= '9'
  }

  /** The number a string of decimal digits denotes, most significant first. */
  function DecimalValue(s: string): int
  {
    if s == [] then 0 else 10 * DecimalValue(s[..|s| - 1]) + DigitValue(s[|s| - 1])
  }

  /** `n` written with exactly `width` digits, zero-padded on the left. */
  function ZeroPadded(n: nat, width: nat): (r: string)
    requires n < Pow10(width)
    ensures |r| == width
    ensures forall k :: 0 <= k < |r| ==> IsDigit(r[k])
    ensures DecimalValue(r) == n
  {
    if width == 0 then ""
    else
      var r := ZeroPadded(n / 10, width - 1) + [Digit(n % 10)];
      assert r[..|r| - 1] == ZeroPadded(n / 10, width - 1);
      r
  }

  function Pow10(k: nat): (p: nat)
    ensures p >= 1
  {
    if k == 0 then 1 else 10 * Pow10(k - 1)
  }

  /** `strftime("%d.%m.%Y")` */
  function FormatDate(d: Date): string
  {
    ZeroPadded(d.day, 2) + "." + ZeroPadded(d.month, 2) + "." + ZeroPadded(d.year, 4)
  }

  /**
   * FormatDate writes the day and the month on two digits and the year on
   * four, separated by dots, and each field reads back as its number.
   */
  lemma FormatDateFields(d: Date)
    ensures var r := FormatDate(d);
      && |r| == 10 && r[2] == '.' && r[5] == '.'
      && (forall k :: 0 <= k < |r| && k != 2 && k != 5 ==> IsDigit(r[k]))
      && DecimalValue(r[..2]) == d.day
      && DecimalValue(r[3..5]) == d.month
      && DecimalValue(r[6..]) == d.year
  {
    var dd := ZeroPadded(d.day, 2);
    var mm := ZeroPadded(d.month, 2);
    var yyyy := ZeroPadded(d.year, 4);
    var r := FormatDate(d);
    assert r[..2] == dd && r[3..5] == mm && r[6..] == yyyy;
  }
}
